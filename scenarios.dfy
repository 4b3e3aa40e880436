/**
 * Whole runs of the MessageCreate handler on concrete responses, for any
 * message whose prompt is "Hello": clients of the handler's contract, which is
 * all these proofs use.
 */
module ChatScenarios {
  import opened Wrappers
  import opened Gemini
  import opened Database
  import opened Prompt
  import opened Chat

  const Configured: Env := Env(Some("key"), Some("postgres://db"))
  const AllQueriesOk: QueryOutcomes := QueryOutcomes(true, true, true)

  function TextResponse(text: string): Response
  {
    var part := ResponsePart(Some(text), None);
    Response(true, 200, "", Some(Body(None, Some([Candidate(Some(CandidateContent(Some([part]))), Some("STOP"))]))))
  }

  lemma HelloStripped()
    ensures StripFirstMention("<@42> Hello") == " Hello"
  {
    var s := "<@42> Hello";
    assert DigitRunEnd(s, 2) == 4 by {
      assert s[2] == '4' && s[3] == '2' && s[4] == '>';
      assert DigitRunEnd(s, 4) == 4;
      assert DigitRunEnd(s, 3) == 4;
    }
    assert MentionAt(s, 0) == Some(5);
    assert s[..0] + s[5..] == " Hello";
  }

  lemma HelloTrimmed()
    ensures Trim(" Hello") == "Hello"
  {
    var s := " Hello";
    assert LeadingSpaces(s) == 1 by {
      assert s[1..] == "Hello";
      assert LeadingSpaces("Hello") == 0;
    }
    assert TrailingSpaces(s) == 0;
    assert s[1..6] == "Hello";
  }

  lemma HelloPrompt()
    ensures ExtractPrompt("<@42> Hello") == "Hello"
  {
    HelloStripped();
    HelloTrimmed();
  }

  lemma SingleRowWindow(row: Row)
    ensures Window([row], row.userId, DefaultHistoryLimit) == [row]
  {
    assert [row][..0] == [];
    assert OfUser([row], row.userId) == [row];
  }

  lemma TextIsSuccess(text: string)
    requires text != ""
    ensures ClassifyChat(TextResponse(text)) == Success(text)
  {
    assert FirstCandidate(TextResponse(text)).Some?;
  }

  /**
   * A message whose prompt is "Hello" (such as "<@42> Hello", by HelloPrompt),
   * answered with "Hi!": both turns are stored in order and the reply is the
   * model's text.
   */
  method HelloIsAnswered(userId: string, content: string) returns (trace: seq<Event>, rows: seq<Row>)
    requires ExtractPrompt(content) == "Hello"
    ensures rows == [Row(userId, User, "Hello"), Row(userId, Model, "Hi!")]
    ensures |trace| == 5 && trace[4] == Reply("Hi!")
    ensures trace[0] == AddMessageCall(userId, User, "Hello")
    ensures trace[2] == Fetch(ChatRequest([ToContent(Row(userId, User, "Hello"))]))
  {
    var store := new Store();
    var msg := Message(userId, false, true, content);
    assert Proceeds(msg, Configured);
    var row := Row(userId, User, "Hello");
    SingleRowWindow(row);
    TextIsSuccess("Hi!");
    assert [] + [row] == [row];
    ghost var history := ToContents([row]);
    assert history == [ToContent(row)];
    ghost var tail := Conclusion(userId, Success("Hi!"));
    assert tail == [AddMessageCall(userId, Model, "Hi!"), Reply("Hi!")];
    trace := HandleMessage(store, msg, Configured, true, TextResponse("Hi!"), AllQueriesOk);
    assert trace == [AddMessageCall(userId, User, "Hello"), GetHistoryCall(userId, DefaultHistoryLimit),
                     Fetch(ChatRequest(history))] + tail;
    rows := store.rows;
  }

  /** The Discord message "<@42> Hello" is one such message. */
  method MentionedHelloIsAnswered(userId: string) returns (trace: seq<Event>, rows: seq<Row>)
    ensures rows == [Row(userId, User, "Hello"), Row(userId, Model, "Hi!")]
    ensures |trace| == 5 && trace[4] == Reply("Hi!")
  {
    HelloPrompt();
    trace, rows := HelloIsAnswered(userId, "<@42> Hello");
  }

  /** A message whose prompt is "Hello" meets a SAFETY candidate: the safety notice, and only the user turn is stored. */
  method SafetyIsNotStored(userId: string, content: string) returns (trace: seq<Event>, rows: seq<Row>)
    requires ExtractPrompt(content) == "Hello"
    ensures rows == [Row(userId, User, "Hello")]
    ensures |trace| > 0 && trace[|trace| - 1] == Reply(SafetyNotice)
  {
    var store := new Store();
    var blocked := Response(true, 200, "", Some(Body(None, Some([Candidate(None, Some("SAFETY"))]))));
    assert ClassifyChat(blocked) == SafetyBlocked;
    var msg := Message(userId, false, true, content);
    assert Proceeds(msg, Configured);
    trace := HandleMessage(store, msg, Configured, true, blocked, AllQueriesOk);
    rows := store.rows;
  }

  /** A message whose prompt is "Hello" meets an HTTP 500: the generic notice, and the user turn stays stored. */
  method ServerErrorKeepsUserTurn(userId: string, content: string) returns (trace: seq<Event>, rows: seq<Row>)
    requires ExtractPrompt(content) == "Hello"
    ensures rows == [Row(userId, User, "Hello")]
    ensures |trace| > 0 && trace[|trace| - 1] == Reply(GenericFailure)
  {
    var store := new Store();
    var failed := Response(false, 500, "Internal error", None);
    assert ClassifyChat(failed) == TransportFailure(500, "Internal error");
    var msg := Message(userId, false, true, content);
    assert Proceeds(msg, Configured);
    trace := HandleMessage(store, msg, Configured, true, failed, AllQueriesOk);
    rows := store.rows;
  }
}
