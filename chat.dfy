/**
 * The MessageCreate handler of src/index.ts: one run per inbound message,
 * over the message log, producing the trace of what it asked of the outside
 * world. The generative endpoint's reply is an input; the typing indicator
 * and logging are not modelled.
 */
module Chat {
  import opened Wrappers
  import opened Gemini
  import opened Database
  import opened Prompt

  /** The parts of a Discord message the handler reads. */
  datatype Message = Message(authorId: string, authorIsBot: bool, mentionsBot: bool, content: string)

  /** `process.env.GOOGLE_API_KEY` and `process.env.DATABASE_URL`. */
  datatype Env = Env(googleApiKey: Option<string>, databaseUrl: Option<string>)

  /** Whether each SQL query the handler causes succeeds, in the order they run. */
  datatype QueryOutcomes = QueryOutcomes(userInsertOk: bool, selectOk: bool, modelInsertOk: bool)

  /** What the handler does outside itself, in order. */
  datatype Event =
    | AddMessageCall(userId: string, role: Role, content: string)
    | GetHistoryCall(userId: string, limit: nat)
    | Fetch(request: Request)
    | Reply(content: string)

  const SaySomething: string := "You need to say something to me!"
  const NotConfigured: string := "The AI is not configured on this bot. Missing API Key."
  const SafetyNotice: string :=
    "I'm sorry, but I can't respond to that. It seems to have triggered my safety filters. Let's talk about something else!"
  const GenericFailure: string := "Something went wrong while talking to the AI. Please try again later."

  const ChatModel: string := "gemini-2.0-flash"
  const ChatConfig: GenerationConfig := Sampling(0.8, 40, 0.95, 100)
  /** The persona instruction, represented by its opening sentence. */
  const PersonaText: string := "You are FSON — a friendly, upbeat, and kind chatbot."
  const GreetingText: string := "Hey there! I'm FSON. What's up?"

  const SystemInstruction: Content := Content(Some(User), [Part(PersonaText)])
  const ModelGreeting: Content := Content(Some(Model), [Part(GreetingText)])

  /** The request's `contents`: persona, greeting, then the history unchanged and in order. */
  function Envelope(history: seq<Content>): (c: seq<Content>)
    ensures |c| == |history| + 2
    ensures c[0] == SystemInstruction && c[1] == ModelGreeting
    ensures forall i :: 0 <= i < |history| ==> c[i + 2] == history[i]
  {
    [SystemInstruction, ModelGreeting] + history
  }

  /** The POST to `gemini-2.0-flash` with the fixed sampling settings and the envelope. */
  function ChatRequest(history: seq<Content>): (r: Request)
    ensures r.model == "gemini-2.0-flash"
    ensures r.config == Sampling(0.8, 40, 0.95, 100)
    ensures |r.contents| == |history| + 2
    ensures r.contents[..2] == [SystemInstruction, ModelGreeting] && r.contents[2..] == history
  {
    Request(ChatModel, Envelope(history), ChatConfig)
  }

  /** The message is from a human and mentions the bot. */
  predicate Addressed(msg: Message)
  {
    !msg.authorIsBot && msg.mentionsBot
  }

  /** The message gets past every guard that precedes the `try`. */
  predicate Proceeds(msg: Message, env: Env)
  {
    Addressed(msg) && ExtractPrompt(msg.content) != "" && Present(env.googleApiKey)
  }

  /** What follows the call: persist and echo the text on success, a notice otherwise. */
  function Conclusion(userId: string, o: Outcome<string>): (e: seq<Event>)
    ensures |e| == if o.Success? then 2 else 1
    ensures e[|e| - 1].Reply?
    ensures forall i :: 0 <= i < |e| - 1 ==> !e[i].Reply?
    ensures e[|e| - 1].content == match o
      case Success(t) => t
      case SafetyBlocked => SafetyNotice
      case _ => GenericFailure
    ensures forall i :: 0 <= i < |e| && e[i].AddMessageCall? ==> o.Success? && e[i].role == Model
    ensures o.Success? ==> e[0] == AddMessageCall(userId, Model, o.value)
  {
    match o
    case Success(t) => [AddMessageCall(userId, Model, t), Reply(t)]
    case SafetyBlocked => [Reply(SafetyNotice)]
    case _ => [Reply(GenericFailure)]
  }

  /** Exactly one reply, and it comes last. */
  predicate EndsWithSingleReply(trace: seq<Event>)
  {
    |trace| > 0 && trace[|trace| - 1].Reply? && forall i :: 0 <= i < |trace| - 1 ==> !trace[i].Reply?
  }

  lemma SingleReplyAfter(prefix: seq<Event>, userId: string, o: Outcome<string>)
    requires forall i :: 0 <= i < |prefix| ==> !prefix[i].Reply?
    ensures EndsWithSingleReply(prefix + Conclusion(userId, o))
  {
    var e := Conclusion(userId, o);
    forall i | 0 <= i < |prefix + e| - 1
      ensures !(prefix + e)[i].Reply?
    {
      if i >= |prefix| {
        assert (prefix + e)[i] == e[i - |prefix|];
      }
    }
  }

  /**
   * After the call: on success persist the model's turn and echo it, otherwise
   * reply with the matching notice. The pool already exists at this point.
   */
  method Conclude(store: Store, userId: string, databaseUrl: Option<string>, outcome: Outcome<string>,
                  modelInsertOk: bool)
    returns (tail: seq<Event>)
    requires store.pool != null
    modifies store
    ensures tail == Conclusion(userId, outcome)
    ensures store.rows == old(store.rows) + (if outcome.Success? && modelInsertOk
                                             then [Row(userId, Model, outcome.value)] else [])
    ensures store.pool == old(store.pool)
  {
    if outcome.Success? {
      var saved := store.AddMessage(databaseUrl, userId, Model, outcome.value, modelInsertOk);
      tail := [AddMessageCall(userId, Model, outcome.value), Reply(outcome.value)];
    } else if outcome.SafetyBlocked? {
      tail := [Reply(SafetyNotice)];
    } else {
      tail := [Reply(GenericFailure)];
    }
  }

  /**
   * Once the user turn is handled and the pool exists: read the window, call
   * the model, then conclude.
   */
  method Consult(store: Store, userId: string, databaseUrl: Option<string>, response: Response,
                 selectOk: bool, modelInsertOk: bool)
    returns (rest: seq<Event>)
    requires store.pool != null
    modifies store
    ensures
      var history := if selectOk then ToContents(Window(old(store.rows), userId, DefaultHistoryLimit)) else [];
      var outcome := ClassifyChat(response);
      && rest == [GetHistoryCall(userId, DefaultHistoryLimit), Fetch(ChatRequest(history))] + Conclusion(userId, outcome)
      && store.rows == old(store.rows) + (if outcome.Success? && modelInsertOk
                                          then [Row(userId, Model, outcome.value)] else [])
      && store.pool == old(store.pool)
  {
    var history := store.GetHistory(databaseUrl, userId, DefaultHistoryLimit, selectOk);
    var outcome := ClassifyChat(response);
    var tail := Conclude(store, userId, databaseUrl, outcome, modelInsertOk);
    rest := [GetHistoryCall(userId, DefaultHistoryLimit), Fetch(ChatRequest(history.value))] + tail;
  }

  /**
   * The `try` after the typing indicator: persist the user turn, read the
   * window, call the model, then conclude. A thrown error (the pool's) becomes the generic reply.
   */
  method Converse(store: Store, userId: string, prompt: string, databaseUrl: Option<string>,
                  response: Response, queries: QueryOutcomes)
    returns (trace: seq<Event>)
    modifies store
    ensures EndsWithSingleReply(trace)
    ensures !old(store.PoolAvailable(databaseUrl)) ==>
      && trace == [AddMessageCall(userId, User, prompt), Reply(GenericFailure)]
      && store.rows == old(store.rows) && store.pool == null
    ensures old(store.PoolAvailable(databaseUrl)) ==>
      var afterUser := old(store.rows) + (if queries.userInsertOk then [Row(userId, User, prompt)] else []);
      var history := if queries.selectOk then ToContents(Window(afterUser, userId, DefaultHistoryLimit)) else [];
      var outcome := ClassifyChat(response);
      && trace == [AddMessageCall(userId, User, prompt), GetHistoryCall(userId, DefaultHistoryLimit),
                   Fetch(ChatRequest(history))] + Conclusion(userId, outcome)
      && store.rows == afterUser + (if outcome.Success? && queries.modelInsertOk
                                    then [Row(userId, Model, outcome.value)] else [])
      && store.pool != null && (old(store.pool) != null ==> store.pool == old(store.pool))
  {
    var added := store.AddMessage(databaseUrl, userId, User, prompt, queries.userInsertOk);
    if added.Err? {
      trace := [AddMessageCall(userId, User, prompt), Reply(GenericFailure)];
      return;
    }
    ghost var afterUser := store.rows;
    assert afterUser == old(store.rows) + (if queries.userInsertOk then [Row(userId, User, prompt)] else []);
    ghost var history := if queries.selectOk then ToContents(Window(afterUser, userId, DefaultHistoryLimit)) else [];
    ghost var prefix := [AddMessageCall(userId, User, prompt), GetHistoryCall(userId, DefaultHistoryLimit),
                         Fetch(ChatRequest(history))];
    ghost var outcome := ClassifyChat(response);
    var rest := Consult(store, userId, databaseUrl, response, queries.selectOk, queries.modelInsertOk);
    assert rest == prefix[1..] + Conclusion(userId, outcome);
    trace := [AddMessageCall(userId, User, prompt)] + rest;
    assert trace == prefix + Conclusion(userId, outcome);
    SingleReplyAfter(prefix, userId, outcome);
  }

  /**
   * The MessageCreate handler: ignore bots and messages that do not mention the
   * bot, answer an empty prompt or a missing key at once, otherwise converse.
   * `typingOk` says whether `sendTyping` resolves (true when the channel is not
   * a text channel, where it is not called).
   */
  method HandleMessage(store: Store, msg: Message, env: Env, typingOk: bool, response: Response,
                       queries: QueryOutcomes)
    returns (trace: seq<Event>)
    modifies store
    ensures !Addressed(msg) ==> trace == []
    ensures Addressed(msg) ==> EndsWithSingleReply(trace)
    ensures Addressed(msg) && ExtractPrompt(msg.content) == "" ==> trace == [Reply(SaySomething)]
    ensures Addressed(msg) && ExtractPrompt(msg.content) != "" && !Present(env.googleApiKey) ==>
      trace == [Reply(NotConfigured)]
    ensures Proceeds(msg, env) && !typingOk ==> trace == [Reply(GenericFailure)]
    ensures !Proceeds(msg, env) || !typingOk ==> store.rows == old(store.rows) && store.pool == old(store.pool)
    ensures Proceeds(msg, env) && typingOk && !old(store.PoolAvailable(env.databaseUrl)) ==>
      && trace == [AddMessageCall(msg.authorId, User, ExtractPrompt(msg.content)), Reply(GenericFailure)]
      && store.rows == old(store.rows) && store.pool == null
    ensures Proceeds(msg, env) && typingOk && old(store.PoolAvailable(env.databaseUrl)) ==>
      var userId, prompt := msg.authorId, ExtractPrompt(msg.content);
      var afterUser := old(store.rows) + (if queries.userInsertOk then [Row(userId, User, prompt)] else []);
      var history := if queries.selectOk then ToContents(Window(afterUser, userId, DefaultHistoryLimit)) else [];
      var outcome := ClassifyChat(response);
      && trace == [AddMessageCall(userId, User, prompt), GetHistoryCall(userId, DefaultHistoryLimit),
                   Fetch(ChatRequest(history))] + Conclusion(userId, outcome)
      && store.rows == afterUser + (if outcome.Success? && queries.modelInsertOk
                                    then [Row(userId, Model, outcome.value)] else [])
      && store.pool != null && (old(store.pool) != null ==> store.pool == old(store.pool))
  {
    trace := [];
    if msg.authorIsBot || !msg.mentionsBot {
      return;
    }
    var prompt := ExtractPrompt(msg.content);
    if prompt == "" {
      trace := [Reply(SaySomething)];
      return;
    }
    if !Present(env.googleApiKey) {
      trace := [Reply(NotConfigured)];
      return;
    }
    // The typing indicator is the first step of the `try`: a rejection skips every store access.
    if !typingOk {
      trace := [Reply(GenericFailure)];
      return;
    }
    trace := Converse(store, msg.authorId, prompt, env.databaseUrl, response, queries);
  }
}
