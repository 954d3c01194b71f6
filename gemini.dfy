/**
 * The pure parts of `sendToGemini` (server.js): building the request's `parts`
 * list, reading the reply text defensively out of the parsed JSON response,
 * and turning the outcome of the whole call into the value the caller sees
 * (a reply string, or null when the call failed).
 */
module Gemini {
  import opened Wrappers

  /** Shown when the response does not carry a usable reply text. */
  const NoResponse: string := "(No response from AI)"

  /** `{ text }` objects, as they appear both in requests and in responses. */
  datatype Part = Part(text: Option<string>)
  /** `{ parts }`: a list of parts; in a response the field may be missing. */
  datatype Content = Content(parts: Option<seq<Part>>)
  /** One generated candidate of a response. */
  datatype Candidate = Candidate(content: Option<Content>)
  /** The parsed JSON response body. */
  datatype Response = Response(candidates: Option<seq<Candidate>>)
  /** The request body `{ contents: [{ parts }] }`. */
  datatype Request = Request(contents: seq<Content>)

  /** What the outbound call produced: a network or parse failure, or a parsed
      body (None standing for a body that is null or not an object). */
  datatype Outcome = Failed | Answered(data: Option<Response>)

  /**
   * The `parts` list: the system prompt first when it is truthy, then the
   * user's text.
   */
  function Parts(systemPrompt: Option<string>, userText: string): (r: seq<Part>)
    ensures 1 <= |r| <= 2
    ensures |r| == 2 <==> Truthy(systemPrompt)
    ensures r[|r| - 1] == Part(Some(userText))
    ensures |r| == 2 ==> r[0] == Part(systemPrompt)
  {
    if Truthy(systemPrompt) then [Part(systemPrompt), Part(Some(userText))]
    else [Part(Some(userText))]
  }

  /** The body posted to the generate-content endpoint. */
  function BuildRequest(systemPrompt: Option<string>, userText: string): (req: Request)
    ensures |req.contents| == 1 && req.contents[0].parts.Some?
    ensures req.contents[0].parts.value == Parts(systemPrompt, userText)
  {
    Request([Content(Some(Parts(systemPrompt, userText)))])
  }

  /**
   * Reads a request back: the system prompt it carries (None when there is
   * none) and the user's text. Partner of BuildRequest, see RequestRoundTrip.
   */
  function ReadRequest(req: Request): Option<(Option<string>, string)> {
    if |req.contents| != 1 || req.contents[0].parts.None? then None
    else
      var ps := req.contents[0].parts.value;
      if |ps| == 1 && ps[0].text.Some? then Some((None, ps[0].text.value))
      else if |ps| == 2 && ps[1].text.Some? then Some((ps[0].text, ps[1].text.value))
      else None
  }

  /** BuildRequest loses nothing but a falsy system prompt, which it leaves out. */
  lemma RequestRoundTrip(systemPrompt: Option<string>, userText: string)
    ensures ReadRequest(BuildRequest(systemPrompt, userText))
         == Some((if Truthy(systemPrompt) then systemPrompt else None, userText))
  {
  }

  /**
   * The reply text: the text of the first part of the first candidate's
   * content when that path exists and the text is truthy, the placeholder
   * otherwise.
   */
  function ExtractReply(data: Option<Response>): (r: string)
    ensures r != ""
    ensures Truthy(FirstText(data)) ==> r == FirstText(data).value
    ensures !Truthy(FirstText(data)) ==> r == NoResponse
  {
    match FirstText(data)
    case Some(t) => if t != "" then t else NoResponse
    case None => NoResponse
  }

  /** The text at candidates[0].content.parts[0], when every step of that path exists. */
  function FirstText(data: Option<Response>): Option<string> {
    if data.None? || data.value.candidates.None? || |data.value.candidates.value| == 0 then None
    else
      var c := data.value.candidates.value[0];
      if c.content.None? || c.content.value.parts.None? || |c.content.value.parts.value| == 0 then None
      else c.content.value.parts.value[0].text
  }

  /** The smallest response that carries `text` as its reply. */
  function ResponseWith(text: string): Response {
    Response(Some([Candidate(Some(Content(Some([Part(Some(text))]))))]))
  }

  /** Extraction inverts ResponseWith on every non-empty text, whatever follows
      the first candidate and the first part. */
  lemma ExtractRoundTrip(text: string, moreCandidates: seq<Candidate>, moreParts: seq<Part>)
    requires text != ""
    ensures ExtractReply(Some(ResponseWith(text))) == text
    ensures ExtractReply(Some(Response(Some(
              [Candidate(Some(Content(Some([Part(Some(text))] + moreParts))))] + moreCandidates))))
         == text
  {
  }

  /** Extraction falls back to the placeholder on every missing step of the path. */
  lemma ExtractFallback(data: Option<Response>)
    requires data.None? || data.value.candidates.None? || data.value.candidates.value == []
             || data.value.candidates.value[0].content.None?
             || data.value.candidates.value[0].content.value.parts.None?
             || data.value.candidates.value[0].content.value.parts.value == []
             || !Truthy(data.value.candidates.value[0].content.value.parts.value[0].text)
    ensures ExtractReply(data) == NoResponse
  {
  }

  /**
   * The value `sendToGemini` resolves to: null on failure, the extracted
   * reply otherwise.
   */
  function CallResult(outcome: Outcome): (r: Option<string>)
    ensures r.None? <==> outcome.Failed?
    ensures r.Some? ==> Truthy(r)
    ensures outcome.Answered? ==> r == Some(ExtractReply(outcome.data))
  {
    match outcome
    case Failed => None
    case Answered(data) => Some(ExtractReply(data))
  }
}
