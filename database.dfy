/**
 * The message log (src/database.ts): an append-only table of
 * (userId, role, content) rows behind a lazily created connection pool.
 * Insertion order stands for the `timestamp` column's order; the success or
 * failure of each SQL query is an input.
 */
module Database {
  import opened Wrappers
  import opened Gemini

  datatype Row = Row(userId: string, role: Role, content: string)

  /** What `getPool` throws. */
  datatype StoreError = DatabaseUrlMissing

  /** `getHistory`'s default `limit`. */
  const DefaultHistoryLimit: nat := 20

  /** A `pg` pool: only the connection string it was opened with is modelled. */
  class Pool {
    const connectionString: string

    constructor (url: string)
      ensures connectionString == url
    {
      connectionString := url;
    }
  }

  /**
   * The rows of `userId`, newest first, at most `limit` of them: the SELECT with
   * `ORDER BY "timestamp" DESC LIMIT $2`.
   */
  function NewestFirst(rows: seq<Row>, userId: string, limit: nat): (r: seq<Row>)
    ensures |r| == if |OfUser(rows, userId)| <= limit then |OfUser(rows, userId)| else limit
    ensures forall i :: 0 <= i < |r| ==> r[i].userId == userId
    ensures forall i :: 0 <= i < |r| ==> r[i] in rows
  {
    if |rows| == 0 || limit == 0 then []
    else
      var last := rows[|rows| - 1];
      if last.userId == userId then [last] + NewestFirst(rows[..|rows| - 1], userId, limit - 1)
      else NewestFirst(rows[..|rows| - 1], userId, limit)
  }

  function Reverse<T>(s: seq<T>): (r: seq<T>)
    ensures |r| == |s|
    ensures forall i :: 0 <= i < |s| ==> r[i] == s[|s| - 1 - i]
  {
    seq(|s|, i requires 0 <= i < |s| => s[|s| - 1 - i])
  }

  /** All of `userId`'s rows, in insertion order. */
  function OfUser(rows: seq<Row>, userId: string): (r: seq<Row>)
    ensures |r| <= |rows|
    ensures forall i :: 0 <= i < |r| ==> r[i].userId == userId
    ensures forall row :: row in rows && row.userId == userId ==> row in r
    ensures forall row :: row in r ==> row in rows
  {
    if rows == [] then []
    else
      var last := rows[|rows| - 1];
      OfUser(rows[..|rows| - 1], userId) + (if last.userId == userId then [last] else [])
  }

  /** The last `min(|s|, n)` elements of `s`, in their order. */
  function LastN<T>(s: seq<T>, n: nat): seq<T>
  {
    if |s| <= n then s else s[|s| - n..]
  }

  /**
   * getHistory's window before mapping: the newest `limit` rows of `userId`,
   * reversed into chronological order.
   */
  function Window(rows: seq<Row>, userId: string, limit: nat): (w: seq<Row>)
    ensures w == LastN(OfUser(rows, userId), limit)
    ensures |w| <= limit
    ensures forall i :: 0 <= i < |w| ==> w[i].userId == userId
  {
    WindowIsLastN(rows, userId, limit);
    Reverse(NewestFirst(rows, userId, limit))
  }

  /** `{role, parts: [{text: content}]}`. */
  function ToContent(row: Row): Content
  {
    Content(Some(row.role), [Part(row.content)])
  }

  /** `rows.map(row => ({role, parts: [{text}]}))`. */
  function ToContents(rows: seq<Row>): (r: seq<Content>)
    ensures |r| == |rows|
    ensures forall i :: 0 <= i < |rows| ==> r[i] == ToContent(rows[i])
  {
    seq(|rows|, i requires 0 <= i < |rows| => ToContent(rows[i]))
  }

  lemma ReverseCons<T>(x: T, s: seq<T>)
    ensures Reverse([x] + s) == Reverse(s) + [x]
  {
  }

  lemma LastNSnoc<T>(s: seq<T>, x: T, n: nat)
    ensures LastN(s + [x], n + 1) == LastN(s, n) + [x]
  {
    if |s| > n {
      assert (s + [x])[|s| + 1 - (n + 1)..] == s[|s| - n..] + [x];
    }
  }

  /** The DESC query followed by `reverse()` is the user's last `limit` rows in order. */
  lemma {:induction false} WindowIsLastN(rows: seq<Row>, userId: string, limit: nat)
    ensures Reverse(NewestFirst(rows, userId, limit)) == LastN(OfUser(rows, userId), limit)
  {
    if |rows| == 0 {
    } else if limit == 0 {
    } else {
      var init, last := rows[..|rows| - 1], rows[|rows| - 1];
      WindowIsLastN(init, userId, if last.userId == userId then limit - 1 else limit);
      if last.userId == userId {
        ReverseCons(last, NewestFirst(init, userId, limit - 1));
        LastNSnoc(OfUser(init, userId), last, limit - 1);
      } else {
        assert OfUser(rows, userId) == OfUser(init, userId) + [];
      }
    }
  }

  lemma OfUserAppend(rows: seq<Row>, row: Row, userId: string)
    ensures OfUser(rows + [row], userId) == OfUser(rows, userId) + (if row.userId == userId then [row] else [])
  {
    assert (rows + [row])[..|rows|] == rows;
  }

  /** The row just appended is the newest entry of its user's window. */
  lemma WindowEndsWithLatest(rows: seq<Row>, row: Row, limit: nat)
    requires limit > 0
    ensures var w := Window(rows + [row], row.userId, limit); |w| > 0 && w[|w| - 1] == row
  {
    OfUserAppend(rows, row, row.userId);
  }

  /** Appending another user's row leaves a user's window as it was. */
  lemma WindowIgnoresOthers(rows: seq<Row>, row: Row, userId: string, limit: nat)
    requires row.userId != userId
    ensures Window(rows + [row], userId, limit) == Window(rows, userId, limit)
  {
    OfUserAppend(rows, row, userId);
  }

  /** The table and the module-level `pool` variable of src/database.ts. */
  class Store {
    var rows: seq<Row>
    var pool: Pool?

    constructor ()
      ensures rows == [] && pool == null
    {
      rows := [];
      pool := null;
    }

    /** `getPool` can hand out a pool: one exists, or DATABASE_URL is set. */
    predicate PoolAvailable(databaseUrl: Option<string>)
      reads this
    {
      pool != null || Present(databaseUrl)
    }

    /**
     * `getPool`: creates the pool on the first call only; every later call
     * returns the same handle without reading the environment again.
     */
    method GetPool(databaseUrl: Option<string>) returns (r: Result<Pool, StoreError>)
      modifies this`pool
      ensures r.Ok? <==> old(PoolAvailable(databaseUrl))
      ensures old(pool) != null ==> r == Ok(old(pool)) && pool == old(pool)
      ensures old(pool) == null && r.Err? ==> r.error == DatabaseUrlMissing && pool == null
      ensures old(pool) == null && r.Ok? ==>
        fresh(r.value) && r.value.connectionString == databaseUrl.value && pool == r.value
    {
      if pool == null {
        if !Present(databaseUrl) {
          return Err(DatabaseUrlMissing);
        }
        pool := new Pool(databaseUrl.value);
      }
      r := Ok(pool);
    }

    /**
     * `addMessage`: the pool error propagates; a failing INSERT is swallowed and
     * leaves the table as it was; otherwise exactly one row is appended.
     */
    method AddMessage(databaseUrl: Option<string>, userId: string, role: Role, content: string, queryOk: bool)
      returns (r: Result<(), StoreError>)
      modifies this`rows, this`pool
      ensures r.Ok? <==> old(PoolAvailable(databaseUrl))
      ensures r.Err? ==> r.error == DatabaseUrlMissing && pool == null
      ensures old(pool) != null ==> pool == old(pool)
      ensures old(pool) == null && r.Ok? ==> fresh(pool) && pool.connectionString == databaseUrl.value
      ensures rows == if r.Ok? && queryOk then old(rows) + [Row(userId, role, content)] else old(rows)
    {
      var p := GetPool(databaseUrl);
      if p.Err? {
        return Err(p.error);
      }
      if queryOk {
        rows := rows + [Row(userId, role, content)];
      }
      r := Ok(());
    }

    /**
     * `getHistory`: the pool error propagates; a failing SELECT (a negative
     * LIMIT is one) yields []; otherwise the user's window, mapped to request
     * entries. The table is only read.
     */
    method GetHistory(databaseUrl: Option<string>, userId: string, limit: int, queryOk: bool)
      returns (r: Result<seq<Content>, StoreError>)
      modifies this`pool
      ensures r.Ok? <==> old(PoolAvailable(databaseUrl))
      ensures r.Err? ==> r.error == DatabaseUrlMissing && pool == null
      ensures old(pool) != null ==> pool == old(pool)
      ensures old(pool) == null && r.Ok? ==> fresh(pool) && pool.connectionString == databaseUrl.value
      ensures r.Ok? ==> r.value == if queryOk && limit >= 0 then ToContents(Window(rows, userId, limit)) else []
    {
      var p := GetPool(databaseUrl);
      if p.Err? {
        return Err(p.error);
      }
      if queryOk && limit >= 0 {
        var newest := NewestFirst(rows, userId, limit);
        r := Ok(ToContents(Reverse(newest)));
      } else {
        r := Ok([]);
      }
    }
  }
}
