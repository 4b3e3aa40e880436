/**
 * The `/generate-image` slash command (src/commands/generate-image.ts): defer,
 * check the key, call the endpoint with the prompt, then edit the deferred
 * reply exactly once. The response is an input; base64 decoding is not
 * modelled, so an attachment carries the base64 text it is decoded from.
 */
module GenerateImage {
  import opened Wrappers
  import opened Gemini

  const CommandName: string := "generate-image"
  const ImageModel: string := "gemini-1.5-flash"
  const ImageConfig: GenerationConfig := MimeType("application/json")
  const AttachmentName: string := "generated-image.png"

  const NotConfigured: string := "The AI is not configured on this bot. Missing API Key."
  const SafetyNotice: string :=
    "I'm so sorry, but I can't generate that. It seems to have triggered my safety filters. Let's try something else! ðŸ˜Š"
  const GenericFailure: string :=
    "Oh no! Something went wrong while generating the image. Please try again later. ðŸ˜¿"

  /** `new AttachmentBuilder(Buffer.from(data, 'base64'), {name})`. */
  datatype Attachment = Attachment(name: string, base64Data: string)

  datatype Event =
    | DeferReply
    | Fetch(request: Request)
    | EditReply(content: string, files: seq<Attachment>)

  /** The request body's `contents`: one entry, one part, the prompt as its text. */
  function ImageRequest(prompt: string): (r: Request)
    ensures |r.contents| == 1 && r.contents[0].role.None? && r.contents[0].parts == [Part(prompt)]
    ensures r.model == ImageModel && r.config == ImageConfig
  {
    Request(ImageModel, [Content(None, [Part(prompt)])], ImageConfig)
  }

  function Caption(prompt: string): string
  {
    "Here is the generated image for: \"" + prompt + "\""
  }

  /** The one edit that ends a call: an attachment exactly on success. */
  function Answer(prompt: string, o: Outcome<string>): (e: Event)
    ensures e.EditReply?
    ensures |e.files| > 0 <==> o.Success?
    ensures o.Success? ==> e.files == [Attachment(AttachmentName, o.value)] && e.content == Caption(prompt)
    ensures o.SafetyBlocked? ==> e.content == SafetyNotice
    ensures !o.Success? && !o.SafetyBlocked? ==> e.content == GenericFailure
  {
    match o
    case Success(data) => EditReply(Caption(prompt), [Attachment(AttachmentName, data)])
    case SafetyBlocked => EditReply(SafetyNotice, [])
    case _ => EditReply(GenericFailure, [])
  }

  /** Exactly one edit, and it is the last event. */
  predicate EndsWithSingleEdit(trace: seq<Event>)
  {
    |trace| > 0 && trace[|trace| - 1].EditReply? && forall i :: 0 <= i < |trace| - 1 ==> !trace[i].EditReply?
  }

  /** `execute`: ignored unless a chat-input command; otherwise defer first and edit once. */
  method Execute(isChatInput: bool, prompt: string, apiKey: Option<string>, response: Response)
    returns (trace: seq<Event>)
    ensures !isChatInput ==> trace == []
    ensures isChatInput ==> |trace| > 0 && trace[0] == DeferReply && EndsWithSingleEdit(trace)
    ensures isChatInput && !Present(apiKey) ==> trace == [DeferReply, EditReply(NotConfigured, [])]
    ensures isChatInput && Present(apiKey) ==>
      trace == [DeferReply, Fetch(ImageRequest(prompt)), Answer(prompt, ClassifyImage(response))]
  {
    if !isChatInput {
      return [];
    }
    trace := [DeferReply];
    if !Present(apiKey) {
      trace := trace + [EditReply(NotConfigured, [])];
      return;
    }
    trace := trace + [Fetch(ImageRequest(prompt))];
    // Every throw inside the `try` lands in the catch's generic edit.
    var outcome := ClassifyImage(response);
    trace := trace + [Answer(prompt, outcome)];
  }
}
