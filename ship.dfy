/**
 * The quote of the `/ship` command (src/commands/ship.ts): a percentage in
 * 0..100 is mapped to one of six quotes by five rising thresholds. The random
 * draw and the canvas drawing are not modelled; the percentage is an input.
 */
module Ship {
  const CommandName: string := "ship"

  /** The quotes from the worst match to the best. */
  const Quotes: seq<string> := [
    "Not a great match, it seems... \U{1F62C}",
    "There might be a small spark! \U{2728}",
    "Hmm, possibilities are brewing. \U{1F914}",
    "A pretty good match! \U{1F60A}",
    "Wow, things are heating up! \U{1F525}",
    "It's a perfect match! \U{2764}\U{FE0F}"
  ]

  /** The percentage at which each quote after the first begins. */
  const Thresholds: seq<int> := [10, 30, 50, 70, 90]

  /** `Math.floor(Math.random() * 101)` ranges over these values. */
  predicate IsPercentage(p: int)
  {
    0 <= p <= 100
  }

  /** `getQuote`: the first threshold the percentage is below picks the quote. */
  function GetQuote(percentage: int): (q: string)
    ensures q in Quotes
    ensures percentage < Thresholds[0] <==> q == Quotes[0]
    ensures percentage >= Thresholds[4] <==> q == Quotes[5]
  {
    QuotesDistinct();
    if percentage < 10 then Quotes[0]
    else if percentage < 30 then Quotes[1]
    else if percentage < 50 then Quotes[2]
    else if percentage < 70 then Quotes[3]
    else if percentage < 90 then Quotes[4]
    else Quotes[5]
  }

  /** How many of `ts` the percentage has reached. */
  function CountReached(ts: seq<int>, p: int): (n: nat)
    ensures n <= |ts|
  {
    if ts == [] then 0 else (if ts[0] <= p then 1 else 0) + CountReached(ts[1..], p)
  }

  /** The reference definition: the quote's index is the number of thresholds reached. */
  function Bucket(p: int): (k: nat)
    ensures k < |Quotes|
  {
    CountReached(Thresholds, p)
  }

  /** No two quotes are the same text, so a quote names its bucket. */
  lemma QuotesDistinct()
    ensures forall i, j :: 0 <= i < j < |Quotes| ==> Quotes[i] != Quotes[j]
  {
    forall i, j | 0 <= i < j < |Quotes|
      ensures Quotes[i] != Quotes[j]
    {
      assert Quotes[i][0] != Quotes[j][0];
    }
  }

  /** The counted thresholds of the sorted list, computed once for each band. */
  lemma BucketBands(p: int)
    ensures p < 10 ==> Bucket(p) == 0
    ensures 10 <= p < 30 ==> Bucket(p) == 1
    ensures 30 <= p < 50 ==> Bucket(p) == 2
    ensures 50 <= p < 70 ==> Bucket(p) == 3
    ensures 70 <= p < 90 ==> Bucket(p) == 4
    ensures 90 <= p ==> Bucket(p) == 5
  {
    var t := Thresholds;
    assert CountReached([90], p) == if 90 <= p then 1 else 0 by {
      assert [90][1..] == [];
    }
    assert CountReached([70, 90], p) == (if 70 <= p then 1 else 0) + CountReached([90], p) by {
      assert [70, 90][1..] == [90];
    }
    assert CountReached([50, 70, 90], p) == (if 50 <= p then 1 else 0) + CountReached([70, 90], p) by {
      assert [50, 70, 90][1..] == [70, 90];
    }
    assert CountReached([30, 50, 70, 90], p) == (if 30 <= p then 1 else 0) + CountReached([50, 70, 90], p) by {
      assert [30, 50, 70, 90][1..] == [50, 70, 90];
    }
    assert Bucket(p) == (if 10 <= p then 1 else 0) + CountReached([30, 50, 70, 90], p) by {
      assert t[1..] == [30, 50, 70, 90];
    }
  }

  /** The if-ladder agrees with the threshold count on every input. */
  lemma QuoteIsBucket(p: int)
    ensures GetQuote(p) == Quotes[Bucket(p)]
  {
    BucketBands(p);
  }

  /** Each boundary value already belongs to the higher bucket; the value below it does not. */
  lemma BoundariesGoUp(k: nat)
    requires k < |Thresholds|
    ensures GetQuote(Thresholds[k]) == Quotes[k + 1]
    ensures GetQuote(Thresholds[k] - 1) == Quotes[k]
  {
  }

  lemma {:induction false} CountMonotone(ts: seq<int>, p: int, p': int)
    requires p <= p'
    ensures CountReached(ts, p) <= CountReached(ts, p')
  {
    if ts != [] {
      CountMonotone(ts[1..], p, p');
    }
  }

  /** A higher percentage never gets a worse quote. */
  lemma BucketMonotone(p: int, p': int)
    requires p <= p'
    ensures Bucket(p) <= Bucket(p')
  {
    CountMonotone(Thresholds, p, p');
  }

  /** Every quote is drawn by some percentage the command can produce. */
  lemma AllQuotesReachable(k: nat)
    requires k < |Quotes|
    ensures exists p :: IsPercentage(p) && GetQuote(p) == Quotes[k]
  {
    var p := if k == 0 then 0 else Thresholds[k - 1];
    assert IsPercentage(p) && GetQuote(p) == Quotes[k];
  }
}
