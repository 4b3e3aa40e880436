# FSON chat bot — a Dafny model of its decision and ordering rules

FSON is a Discord bot. The parts of it modelled here are:

- **Mention handling.** When a message mentions the bot, it strips the mention token and trims the rest into a prompt.
- **Chat turns.** It stores the user's turn in a Postgres log. It reads back that user's last 20 turns. It sends `[persona, greeting, ...history]` to the Gemini `generateContent` endpoint. It sorts the response into success, safety block or failure. It stores the model's turn only on success. It replies exactly once.
- **`/generate-image`.** This slash command runs the same response ladder over image data.
- **`/ship`.** This slash command maps a percentage to one of six quotes.
- **Command registry and dispatch.** The registry maps each command name to its module. The InteractionCreate handler dispatches through it.

Every effect is an input or an event in a trace:

- The Discord message, the environment variables and the endpoint's parsed response are inputs.
- Whether each SQL query succeeds is a boolean input.
- What the handler asks of the outside world (store calls, the fetch, replies) is recorded in a trace of events, in order.

The model is split into these modules:

| module | file | contents |
|---|---|---|
| `Wrappers` | `wrappers.dfy` | `Option`, `Result` and `Present`. `Present` is JavaScript truthiness for an optional string: present and not `""`. |
| `Gemini` | `gemini.dfy` | The request and response shapes and the shared screening ladder (`Screen`). Two classifiers build on `Screen`: `ClassifyChat` for text and `ClassifyImage` for base64 image data. |
| `Database` | `database.dfy` | The message log, as class `Store`. Its fields are the table `rows` and the lazily created `pool`. The file also holds the pure window `Window` that `getHistory` computes, and lemmas about it. |
| `Prompt` | `prompt.dfy` | `replace(/<@!?\d+>/, '')` with its first-match-only semantics, and `trim()` over the ECMAScript whitespace set. `trim()` is defined directly by the whitespace counts at both ends. |
| `Chat` | `chat.dfy` | The MessageCreate handler (`HandleMessage`). The body of its `try` is split into three methods: `Converse`, `Consult` and `Conclude`. |
| `ChatScenarios` | `scenarios.dfy` | Runs of `HandleMessage` on concrete responses, for any message whose prompt is "Hello", such as "<@42> Hello". Each is proved from the handler's contract alone. |
| `GenerateImage` | `generate_image.dfy` | The `/generate-image` command's `execute`. |
| `Commands` | `commands.dfy` | The registry loop and the InteractionCreate dispatch. |
| `Ship` | `ship.dfy` | `getQuote` and its bucket properties. |

Three behaviours of the code that the model keeps:

- A missing `DATABASE_URL` is not a silent store failure. `getPool` throws outside `addMessage`'s `try`. The chat handler catches that throw and gives the generic failure reply, and no fetch happens (`Chat.Converse`). The process reaches this path only when it survives the start-up rejection described under "## Left out".
- A 2xx body that fails to parse as JSON (`MalformedBody`) ends in the generic failure reply.
- An empty `candidates` array (`NoCandidates`) also ends in the generic failure reply.

## Model

| member | source | states |
|---|---|---|
| Database.Store.GetPool | src/database.ts:5-18 | Succeeds exactly when a pool exists or `DATABASE_URL` is truthy. The pool is created on the first successful call only, from the URL. Later calls return the same handle and do not read the URL again. With no pool and no URL it fails with `DatabaseUrlMissing`. |
| Database.Store.AddMessage | src/database.ts:41-53 | A pool error propagates. A failing INSERT is swallowed and the rows stay unchanged. Otherwise exactly one row `(userId, role, content)` is appended and every existing row is kept. |
| Database.Store.GetHistory | src/database.ts:55-69 | A pool error propagates. A failing SELECT gives `[]`, and so does a negative limit. Otherwise the result is `ToContents(Window(rows, userId, limit))`, and the table is only read. |
| Database.Window | src/database.ts:55-64 | The window equals the last `min(n, limit)` rows of the user, in chronological order. It holds at most `limit` rows, all with the given userId. |
| Database.NewestFirst | src/database.ts:58-61 | The SELECT with `ORDER BY "timestamp" DESC LIMIT $2` returns `min(limit, n)` rows, where `n` is the number of the user's rows. All of them belong to the user and come from the table. |
| Database.WindowIsLastN | src/database.ts:59-64 | The DESC-ordered, LIMIT-bounded selection followed by `reverse()` equals the user's last `limit` rows in insertion order. |
| Database.ToContents | src/database.ts:64 | One `{role, parts:[{text: content}]}` entry per row, in the same order, with role and content copied unchanged. |
| Database.OfUser | src/database.ts:59 | Contains exactly the rows whose userId matches, and nothing from outside the table. |
| Database.WindowEndsWithLatest | src/database.ts:41-64 | When the limit is positive, a row just appended is the last entry of its user's window. |
| Database.WindowIgnoresOthers | src/database.ts:59 | Appending another user's row leaves a user's window unchanged. |
| Prompt.MentionAt | src/index.ts:54 | A match found at a position is a whole match of `<@!?\d+>`. |
| Prompt.MentionAtComplete | src/index.ts:54 | Every whole match of `<@!?\d+>` at a position is the one `MentionAt` finds (completeness of the matcher). |
| Prompt.FirstMention | src/index.ts:54 | Returns the leftmost position where the pattern matches, or none when no position matches. |
| Prompt.StripRemovesLeftmost | src/index.ts:54 | When the leftmost match is `s[a..b]`, the result is `s[..a] + s[b..]`: only that token is removed and later matches stay. |
| Prompt.StripWithoutMention | src/index.ts:54 | Content without a match is left unchanged. |
| Prompt.Trim | src/index.ts:54 | The result is the contiguous slice that begins after the leading whitespace and leaves only whitespace after it. Neither of its ends is whitespace. It is empty exactly when the whole input is whitespace. |
| Prompt.TrimDetermined | src/index.ts:54 | Those properties fix the result: any slice after the leading whitespace that ends in a non-space and leaves only whitespace behind is `trim()`'s result. |
| Prompt.StripFirstMention | src/index.ts:54 | The text changes exactly when it holds a match of `<@!?\d+>`. When it changes, it loses at least the four characters of the shortest token. |
| Prompt.ExtractPrompt | src/index.ts:54 | The prompt is the text without its first mention token, with the whitespace on both sides cut away: a slice of it that leaves only whitespace behind, with non-space ends. It is empty exactly when nothing but whitespace remains. |
| Gemini.Screen | src/index.ts:124-155 | Passes exactly when a first candidate exists, the body carries no error and the candidate is not flagged SAFETY. When it passes, it hands on `candidates[0]`. |
| Gemini.ClassifyChat | src/index.ts:124-164 | Transport failure exactly when `!ok`. API failure exactly when a 2xx body carries `error`. Safety block exactly when there is no error and `candidates[0]` is flagged. Success exactly when `parts[0].text` is also truthy, and then it carries that text. |
| Gemini.ClassifyImage | src/commands/generate-image.ts:44-71 | The same ladder as `ClassifyChat`. Success is exactly when `parts[0].inlineData.data` is truthy, and then it carries that data. |
| Gemini.ErrorPrecedesSafety | src/index.ts:145-158 | A body error wins over a SAFETY candidate on both endpoints. |
| Gemini.OnlyFirstCandidateExamined | src/index.ts:150-164 | Responses that agree on transport, parse, error and `candidates[0]` classify alike. |
| Gemini.OnlyFirstPartExamined | src/index.ts:160-164 | Candidates that agree on `parts[0]` yield the same text and image data, whatever their other parts. |
| Chat.Envelope | src/index.ts:108-113 | The contents are the persona and then the greeting, followed by the history unchanged and in order. |
| Chat.ChatRequest | src/index.ts:100-122 | The request goes to `gemini-2.0-flash` with temperature 0.8, topK 40, topP 0.95 and 100 output tokens. Its contents are the persona and the greeting, followed by the history. |
| Chat.Conclusion | src/index.ts:155-173 | Two events on success and one otherwise, ending in exactly one reply. The reply is the text on success, the safety notice on SAFETY, and the generic notice otherwise. The only store write is the model turn with that text, on success only, before the reply. |
| Chat.SingleReplyAfter | src/index.ts:67-174 | A prefix that holds no reply, followed by a conclusion, holds exactly one reply, at the end. |
| Chat.Conclude | src/index.ts:155-169 | Emits `Conclusion(outcome)`. Appends the model turn only on success with a working INSERT. Keeps the pool. |
| Chat.Consult | src/index.ts:77-169 | Reads the user's window of 20, fetches with that window, then concludes. |
| Chat.Converse | src/index.ts:71-174 | The `try` after the typing indicator. The user turn is written before the window is read, so the window can contain it, and it stays stored on every later failure. Without a pool the run is one write call and then the generic reply, with no fetch. Otherwise the trace is: write, read, fetch, then the conclusion, with the stored rows as stated. There is always exactly one reply. |
| Chat.HandleMessage | src/index.ts:50-175 | Bot authors and messages without a mention produce nothing. An empty prompt gives exactly "You need to say something to me!". A missing key gives exactly the not-configured reply. A rejected typing indicator gives exactly the generic reply. None of those touches the store or fetches. Every other message runs `Converse`. |
| ChatScenarios.HelloIsAnswered | src/index.ts:50-169 | On a first message whose prompt is "Hello", answered "Hi!", both turns are stored in order. The first event writes the user turn, the fetched history is that turn, and the reply is "Hi!". |
| ChatScenarios.MentionedHelloIsAnswered | src/index.ts:50-169 | The Discord message "<@42> Hello" is such a message: it is answered "Hi!" with both turns stored. |
| ChatScenarios.SafetyIsNotStored | src/index.ts:155-158 | For a message whose prompt is "Hello", on a SAFETY answer only the user turn is stored, and the reply is the safety notice. |
| ChatScenarios.ServerErrorKeepsUserTurn | src/index.ts:124-128 | For a message whose prompt is "Hello", on HTTP 500 the user turn stays stored and the reply is the generic notice. |
| GenerateImage.ImageRequest | src/commands/generate-image.ts:25-40 | A single entry with no role and a single part whose text is the prompt. Model `gemini-1.5-flash`, JSON MIME type. |
| GenerateImage.Answer | src/commands/generate-image.ts:61-80 | An attachment exactly on success: the image data, named `generated-image.png`, with a caption that quotes the prompt. The safety notice on SAFETY, and the generic notice otherwise. |
| GenerateImage.Execute | src/commands/generate-image.ts:12-82 | Not a chat-input command: nothing happens. Otherwise, with every edit accepted, it defers first and ends in exactly one edit. A missing key gives the not-configured edit, with no fetch. Otherwise it is defer, fetch, then the classified answer. |
| Commands.LastIndex | src/index.ts:23-27 | The position of the last file that declares a name. No later file declares that name, and none is found when no file declares it. |
| Commands.LastNamed | src/index.ts:23-27 | The module kept for a name is a file declaring that name. It is absent exactly when no file declares the name. |
| Commands.LoadCommands | src/index.ts:23-27 | The registry's keys are exactly the declared names. Each key maps to the last file that declares it. |
| Commands.LaterFileWins | src/index.ts:26 | A later file with the same name overwrites an earlier one. |
| Commands.ShippedRegistry | src/index.ts:23-27 | The two command files register `generate-image` and `ship`. |
| Commands.Dispatch | src/index.ts:35-48 | Non-commands and unknown names produce nothing. A known command is executed exactly once. A successful `execute` is followed by nothing. A throwing `execute` is followed by exactly one ephemeral error reply. |
| Ship.GetQuote | src/commands/ship.ts:5-12 | Total: the result is one of the six quotes. Below 10 exactly gives the first quote. 90 or above, including over 100, exactly gives the last. |
| Ship.BucketBands | src/commands/ship.ts:6-11 | The half-open bands [10,30), [30,50), [50,70) and [70,90) each count their own number of reached thresholds. |
| Ship.QuoteIsBucket | src/commands/ship.ts:5-12 | The if-chain picks the quote whose index is the number of thresholds reached. |
| Ship.BoundariesGoUp | src/commands/ship.ts:7-10 | Each boundary value belongs to the higher bucket, and the value just below it to the lower one. |
| Ship.CountMonotone | src/commands/ship.ts:6-11 | The number of thresholds reached never decreases as the percentage grows. |
| Ship.BucketMonotone | src/commands/ship.ts:6-11 | A higher percentage never gets a lower quote. |
| Ship.QuotesDistinct | src/commands/ship.ts:6-11 | The six quotes are pairwise different. |
| Ship.AllQuotesReachable | src/commands/ship.ts:34-35 | Every quote is produced by some percentage in 0..100. |

## Left out

- Discord client setup, login, the ready log and console logging: these are I/O and have no effect on the decisions. The typing indicator is kept only as the input `typingOk`, because a rejection of it ends the run.
- The HTTP transport and JSON parsing: a `Response` is what `fetch` and `response.json()` would give. `body == None` stands for a parse that throws.
- Postgres internals: the SSL options, the SQL text, `initializeDatabase`'s CREATE TABLE and real query failures. Each query's success is a boolean input.
- `initializeDatabase()` at start-up: it calls `getPool` before any handler runs. With `DATABASE_URL` set, the pool therefore already exists at the first message. With it unset, `getPool` throws inside that call, which is neither awaited nor caught. On Node 15 and later an unhandled rejection ends the process by default, before `client.login` and before any message arrives. The model starts from an empty `Store` with no pool. Its no-pool path is therefore reached only on a runtime where an unhandled rejection does not end the process.
- The `timestamp` column: insertion order stands for timestamp order. Equal `DEFAULT CURRENT_TIMESTAMP` values have no defined order in the source.
- The `readdirSync`/`require` command discovery: the command files are a given list in directory order.
- `src/deploy-commands.ts` is not part of this model: it is a one-shot REST registration script.
- The Express health endpoint: it is I/O only.
- The ship command's `execute`: its canvas rendering, avatar loading and `Math.random` draw are graphics, floating point and randomness. Only the percentage range 0..100 that it feeds to `getQuote` is kept.
- Ship.GetQuote: the percentage is an integer, not a JavaScript number. Fractions and NaN cannot reach it, because the caller floors the random draw.
- Base64 decoding with `Buffer.from`: it is a library call. An attachment carries the base64 text it would be decoded from.
- Chat.PersonaText: the persona instruction is represented by its opening sentence only. It is an opaque constant to every rule modelled.
- Concurrency between handlers that run at the same time: each handler run is sequential here.
- Gemini.ClassifyChat and Gemini.ClassifyImage: a `null` entry inside `candidates` is not representable. In the source it would throw a TypeError, which the catch turns into the generic failure.
- Commands.Dispatch: whether a command's `execute` throws is an input. A failure of the error reply itself, for example after `deferReply`, is not modelled.
- GenerateImage.Execute: a rejected `editReply` or `deferReply` is not modelled. In the source, a rejected SAFETY or success edit inside the `try` is caught and followed by a second, generic edit. A rejected `deferReply` sits outside the `try`, so it leaves `execute` and reaches the dispatcher's catch.
- Chat.HandleMessage: a failing `message.reply` is not modelled. In the source, a failing safety or success reply would be caught and answered a second time with the generic notice.
- Prompt.StripFirstMention: this strips the first mention token even when it mentions another user, exactly as the source's regex does. The bot's own mention may then stay in the prompt.
