/**
 * The shapes exchanged with the generative-language endpoint, and the ladder
 * both callers (the chat handler and the image command) run over a response
 * before they trust it. The HTTP transport and JSON parsing are not modelled:
 * a Response is what `fetch` and `response.json()` would have produced.
 */
module Gemini {
  import opened Wrappers

  /** The `role` of a stored turn and of a request entry: 'user' or 'model'. */
  datatype Role = User | Model

  datatype Part = Part(text: string)

  /** One entry of a request's `contents`; the image request's entry carries no role. */
  datatype Content = Content(role: Option<Role>, parts: seq<Part>)

  datatype GenerationConfig =
    | Sampling(temperature: real, topK: nat, topP: real, maxOutputTokens: nat)
    | MimeType(responseMimeType: string)

  /** A POST to `models/<model>:generateContent` with body `{contents, generationConfig}`. */
  datatype Request = Request(model: string, contents: seq<Content>, config: GenerationConfig)

  datatype ApiError = ApiError(code: int, message: string)
  datatype InlineData = InlineData(data: Option<string>)
  datatype ResponsePart = ResponsePart(text: Option<string>, inlineData: Option<InlineData>)
  datatype CandidateContent = CandidateContent(parts: Option<seq<ResponsePart>>)
  datatype Candidate = Candidate(content: Option<CandidateContent>, finishReason: Option<string>)
  datatype Body = Body(error: Option<ApiError>, candidates: Option<seq<Candidate>>)

  /**
   * `ok` is `response.ok` (a 2xx status); `text` is what `response.text()` gives
   * on the failure path; `body` is None when `response.json()` would throw.
   */
  datatype Response = Response(ok: bool, status: int, text: string, body: Option<Body>)

  /** The classification of one call; `Success` carries text or base64 image data. */
  datatype Outcome<+T> =
    | TransportFailure(status: int, detail: string)
    | MalformedBody
    | ApiFailure(error: ApiError)
    | NoCandidates
    | SafetyBlocked
    | EmptyPayload
    | Success(value: T)

  const SafetyReason: string := "SAFETY"

  // Declarative descriptions of a response, independent of the ladder's order.

  /** The transport succeeded and the body parsed. */
  predicate Delivered(r: Response)
  {
    r.ok && r.body.Some?
  }

  /** A 2xx body that carries a top-level `error`. */
  predicate CarriesError(r: Response)
  {
    Delivered(r) && r.body.value.error.Some?
  }

  /** `data.candidates[0]`, when candidates exist and are non-empty. */
  function FirstCandidate(r: Response): Option<Candidate>
  {
    if Delivered(r) && r.body.value.candidates.Some? && |r.body.value.candidates.value| > 0
    then Some(r.body.value.candidates.value[0])
    else None
  }

  predicate Flagged(c: Candidate)
  {
    c.finishReason == Some(SafetyReason)
  }

  /** `candidate.content?.parts?.[0]`. */
  function FirstPart(c: Candidate): Option<ResponsePart>
  {
    if c.content.Some? && c.content.value.parts.Some? && |c.content.value.parts.value| > 0
    then Some(c.content.value.parts.value[0])
    else None
  }

  /** `candidate.content?.parts?.[0]?.text`, when it is truthy (present and not ""). */
  function ChatText(c: Candidate): Option<string>
  {
    var p := FirstPart(c);
    if p.Some? && Present(p.value.text) then p.value.text else None
  }

  /** `imagePart.inlineData.data`, when the part, its inlineData and a truthy data all exist. */
  function ImageData(c: Candidate): Option<string>
  {
    var p := FirstPart(c);
    if p.Some? && p.value.inlineData.Some? && Present(p.value.inlineData.value.data)
    then p.value.inlineData.value.data
    else None
  }

  /**
   * The checks both callers run in this order: transport, parse, body error,
   * no candidates, SAFETY. `Success(c)` hands on the first candidate.
   */
  function Screen(r: Response): (o: Outcome<Candidate>)
    ensures o.Success? <==> FirstCandidate(r).Some? && !CarriesError(r) && !Flagged(FirstCandidate(r).value)
    ensures o.Success? ==> o.value == FirstCandidate(r).value
  {
    if !r.ok then TransportFailure(r.status, r.text)
    else if r.body.None? then MalformedBody
    else if r.body.value.error.Some? then ApiFailure(r.body.value.error.value)
    else if r.body.value.candidates.None? || |r.body.value.candidates.value| == 0 then NoCandidates
    else if Flagged(r.body.value.candidates.value[0]) then SafetyBlocked
    else Success(r.body.value.candidates.value[0])
  }

  /** Carries a non-success outcome of the screen over to another payload type. */
  function Rejected<T>(o: Outcome<Candidate>): Outcome<T>
    requires !o.Success?
  {
    match o
    case TransportFailure(s, d) => TransportFailure(s, d)
    case MalformedBody => MalformedBody
    case ApiFailure(e) => ApiFailure(e)
    case NoCandidates => NoCandidates
    case SafetyBlocked => SafetyBlocked
    case EmptyPayload => EmptyPayload
  }

  /** The chat handler's ladder (src/index.ts). */
  function ClassifyChat(r: Response): (o: Outcome<string>)
    ensures o.TransportFailure? <==> !r.ok
    ensures o.ApiFailure? <==> CarriesError(r)
    ensures o.SafetyBlocked? <==>
      !CarriesError(r) && FirstCandidate(r).Some? && Flagged(FirstCandidate(r).value)
    ensures o.Success? <==>
      !CarriesError(r) && FirstCandidate(r).Some? && !Flagged(FirstCandidate(r).value)
      && ChatText(FirstCandidate(r).value).Some?
    ensures o.Success? ==> o.value != "" && Some(o.value) == ChatText(FirstCandidate(r).value)
  {
    var screened := Screen(r);
    if !screened.Success? then Rejected(screened)
    else if ChatText(screened.value).Some? then Success(ChatText(screened.value).value)
    else EmptyPayload
  }

  /** The image command's ladder (src/commands/generate-image.ts); success carries base64 data. */
  function ClassifyImage(r: Response): (o: Outcome<string>)
    ensures o.TransportFailure? <==> !r.ok
    ensures o.ApiFailure? <==> CarriesError(r)
    ensures o.SafetyBlocked? <==>
      !CarriesError(r) && FirstCandidate(r).Some? && Flagged(FirstCandidate(r).value)
    ensures o.Success? <==>
      !CarriesError(r) && FirstCandidate(r).Some? && !Flagged(FirstCandidate(r).value)
      && ImageData(FirstCandidate(r).value).Some?
    ensures o.Success? ==> o.value != "" && Some(o.value) == ImageData(FirstCandidate(r).value)
  {
    var screened := Screen(r);
    if !screened.Success? then Rejected(screened)
    else if ImageData(screened.value).Some? then Success(ImageData(screened.value).value)
    else EmptyPayload
  }

  /** A body error wins over a SAFETY candidate, on both endpoints. */
  lemma ErrorPrecedesSafety(r: Response)
    requires Delivered(r) && r.body.value.error.Some?
    requires FirstCandidate(r).Some? && Flagged(FirstCandidate(r).value)
    ensures ClassifyChat(r) == ApiFailure(r.body.value.error.value)
    ensures ClassifyImage(r) == ApiFailure(r.body.value.error.value)
  {
  }

  /**
   * Only `candidates[0]` and its `parts[0]` are examined: two responses that agree
   * on everything else the ladder reads classify alike.
   */
  lemma OnlyFirstCandidateExamined(r: Response, r': Response)
    requires r.ok == r'.ok && r.status == r'.status && r.text == r'.text
    requires r.body.Some? <==> r'.body.Some?
    requires r.body.Some? ==> r.body.value.error == r'.body.value.error
    requires FirstCandidate(r) == FirstCandidate(r')
    ensures ClassifyChat(r) == ClassifyChat(r')
    ensures ClassifyImage(r) == ClassifyImage(r')
  {
  }

  lemma OnlyFirstPartExamined(c: Candidate, c': Candidate)
    requires FirstPart(c) == FirstPart(c')
    ensures ChatText(c) == ChatText(c') && ImageData(c) == ImageData(c')
  {
  }
}
