/** The decisions of the `/summarize` (server.js:64-99) and `/chat`
    (server.js:104-153) handlers around their single call to the
    generative-text API: which input and configuration checks run before the
    call, and when the reply yields an answer. The call itself is a parameter. */
module Gemini {
  import opened Optional
  import opened Decimal
  import opened Http

  /** The parts of a parsed `generateContent` reply the handlers look at;
      every level may be missing. */
  datatype Part = Part(text: Option<string>)
  datatype Content = Content(parts: Option<seq<Part>>)
  datatype Candidate = Candidate(content: Option<Content>)
  datatype GenerateResult = GenerateResult(candidates: Option<seq<Candidate>>)

  /** `await response.json()`: the parsed body, or the message of the error it throws. */
  datatype JsonRead = Parsed(result: GenerateResult) | Unparsable(message: string)

  /** What the `fetch` to the API did: it answered with a status and a body, or it threw. */
  datatype ApiReply = Replied(status: nat, json: JsonRead) | Unreachable(message: string)

  /** One turn of the chat history; the handler passes the history on unread. */
  datatype Turn = Turn(role: string, text: string)

  /** A handler's response, and whether it called the API. */
  datatype Handled = Handled(response: Response, called: bool)

  const MissingPrompt := "Thiếu prompt"
  const MissingHistory := "Thiếu history"
  const ApiKeyMissing := "API Key chưa được cấu hình trên server"
  const GeminiError := "Lỗi từ Gemini"
  const NoValidContent := "Không nhận được nội dung hợp lệ từ API Gemini."
  const SummarizeFailedPrefix := "Lỗi khi tóm tắt: "
  const ChatFailedPrefix := "Lỗi khi chat: "

  /** `xs?.[0]`: the first element, if there is a list and it is not empty. */
  function First<T>(xs: Option<seq<T>>): Option<T>
  {
    if xs.Some? && |xs.value| > 0 then Some(xs.value[0]) else None
  }

  /** `result.candidates[0]?.content?.parts?.[0]?.text`, kept only when it is
      truthy: every step of the path must exist and the text must not be empty. */
  function CandidateText(r: GenerateResult): (t: Option<string>)
    ensures t.Some? <==>
      && r.candidates.Some? && |r.candidates.value| > 0
      && r.candidates.value[0].content.Some?
      && r.candidates.value[0].content.value.parts.Some?
      && |r.candidates.value[0].content.value.parts.value| > 0
      && r.candidates.value[0].content.value.parts.value[0].text.Some?
      && r.candidates.value[0].content.value.parts.value[0].text.value != ""
    ensures t.Some? ==> t.value == r.candidates.value[0].content.value.parts.value[0].text.value
  {
    var candidate :- First(r.candidates);
    var content :- candidate.content;
    var part :- First(content.parts);
    var text :- part.text;
    if text == "" then None else Some(text)
  }

  /** The reply carries an answer: an ok status, a parsable body, and a
      truthy text at the head of the first candidate. */
  predicate Answered(reply: ApiReply) {
    && reply.Replied? && IsOk(reply.status)
    && reply.json.Parsed? && CandidateText(reply.json.result).Some?
  }

  function AnswerText(reply: ApiReply): string
    requires Answered(reply)
  {
    CandidateText(reply.json.result).value
  }

  /** The checks both handlers make before calling the API, in their order:
      the missing input first (400), then the missing API key (500). `None`
      means the call goes ahead. */
  function Gate(inputPresent: bool, missingInput: string, apiKey: Option<string>): (g: Option<Response>)
    ensures g.None? <==> inputPresent && Truthy(apiKey)
    ensures !inputPresent ==> g == Some(Response(400, Text(missingInput)))
    ensures inputPresent && !Truthy(apiKey) ==> g == Some(Response(500, Text(ApiKeyMissing)))
  {
    if !inputPresent then Some(Response(400, Text(missingInput)))
    else if !Truthy(apiKey) then Some(Response(500, Text(ApiKeyMissing)))
    else None
  }

  /** The `try` block of `/summarize`: the answer text, or the message of the
      error it throws. A non-ok status is reported without reading the body. */
  function SummarizeCall(reply: ApiReply): (r: Result<string>)
    ensures r.Ok? <==> Answered(reply)
    ensures r.Ok? ==> r.value == AnswerText(reply)
    ensures reply.Replied? && !IsOk(reply.status) ==> r == Err(GeminiError)
  {
    match reply
    case Unreachable(message) => Err(message)
    case Replied(status, json) =>
      if !IsOk(status) then Err(GeminiError)
      else match json
        case Unparsable(message) => Err(message)
        case Parsed(result) =>
          match CandidateText(result)
          case Some(text) => Ok(text)
          case None => Err(NoValidContent)
  }

  /** The `try` block of `/chat`: like `/summarize`, except that on a non-ok
      status the error body is read first (its parse error, if any, is what
      is reported) and the message then names the status. */
  function ChatCall(reply: ApiReply): (r: Result<string>)
    ensures r.Ok? <==> Answered(reply)
    ensures r.Ok? ==> r.value == AnswerText(reply)
    ensures reply.Replied? && !IsOk(reply.status) && reply.json.Parsed? ==>
              r == Err(GeminiError + ": " + NatToString(reply.status))
  {
    match reply
    case Unreachable(message) => Err(message)
    case Replied(status, json) =>
      match json
      case Unparsable(message) => Err(message)
      case Parsed(result) =>
        if !IsOk(status) then Err(GeminiError + ": " + NatToString(status))
        else
          match CandidateText(result)
          case Some(text) => Ok(text)
          case None => Err(NoValidContent)
  }

  /** `POST /summarize` with body `{ prompt }`. */
  function Summarize(prompt: Option<string>, apiKey: Option<string>, reply: ApiReply): (h: Handled)
    // the API is called only once both checks have passed
    ensures h.called <==> Truthy(prompt) && Truthy(apiKey)
    // a missing prompt is a 400 whether or not the key is configured
    ensures !Truthy(prompt) ==> h.response == Response(400, Text(MissingPrompt))
    ensures Truthy(prompt) && !Truthy(apiKey) ==> h.response == Response(500, Text(ApiKeyMissing))
    // a 200 only with an answer, and then it carries that answer as `summary`
    ensures h.response.status == 200 <==> h.called && Answered(reply)
    ensures h.response.status == 200 ==> h.response.body == JsonField("summary", AnswerText(reply))
    // every other outcome of the call is a 500 reporting the error
    ensures h.called && !Answered(reply) ==>
              h.response.status == 500 && h.response.body.Text? &&
              h.response.body.text == SummarizeFailedPrefix + SummarizeCall(reply).message
  {
    match Gate(Truthy(prompt), MissingPrompt, apiKey)
    case Some(rejection) => Handled(rejection, false)
    case None =>
      match SummarizeCall(reply)
      case Ok(text) => Handled(Response(200, JsonField("summary", text)), true)
      case Err(message) => Handled(Response(500, Text(SummarizeFailedPrefix + message)), true)
  }

  /** `POST /chat` with body `{ history }`. */
  function Chat(history: Option<seq<Turn>>, apiKey: Option<string>, reply: ApiReply): (h: Handled)
    // the API is called only with a non-empty history and a configured key
    ensures h.called <==> history.Some? && |history.value| > 0 && Truthy(apiKey)
    // a missing or empty history is a 400 whether or not the key is configured
    ensures (history.None? || history.value == []) ==> h.response == Response(400, Text(MissingHistory))
    ensures history.Some? && history.value != [] && !Truthy(apiKey) ==> h.response == Response(500, Text(ApiKeyMissing))
    // a 200 only with an answer, and then it carries that answer as `answer`
    ensures h.response.status == 200 <==> h.called && Answered(reply)
    ensures h.response.status == 200 ==> h.response.body == JsonField("answer", AnswerText(reply))
    ensures h.called && !Answered(reply) ==>
              h.response.status == 500 && h.response.body.Text? &&
              h.response.body.text == ChatFailedPrefix + ChatCall(reply).message
  {
    match Gate(history.Some? && |history.value| > 0, MissingHistory, apiKey)
    case Some(rejection) => Handled(rejection, false)
    case None =>
      match ChatCall(reply)
      case Ok(text) => Handled(Response(200, JsonField("answer", text)), true)
      case Err(message) => Handled(Response(500, Text(ChatFailedPrefix + message)), true)
  }

  /** The answer a 200 carries is never empty, from either handler: an empty
      text at the head of the first candidate is treated like a missing one. */
  lemma AnswerNeverEmpty(prompt: Option<string>, history: Option<seq<Turn>>, apiKey: Option<string>, reply: ApiReply)
    ensures Summarize(prompt, apiKey, reply).response.status == 200 ==>
              Summarize(prompt, apiKey, reply).response.body.value != ""
    ensures Chat(history, apiKey, reply).response.status == 200 ==>
              Chat(history, apiKey, reply).response.body.value != ""
  {
  }

  /** The 500 body of a `/chat` call rejected with a parsable error body
      names the status, and the status can be read back from it. */
  lemma ChatErrorNamesStatus(history: Option<seq<Turn>>, apiKey: Option<string>, status: nat, body: GenerateResult)
    requires history.Some? && history.value != [] && Truthy(apiKey) && !IsOk(status)
    ensures var text := Chat(history, apiKey, Replied(status, Parsed(body))).response.body.text;
      && |text| > |ChatFailedPrefix + GeminiError + ": "|
      && text[..|ChatFailedPrefix + GeminiError + ": "|] == ChatFailedPrefix + GeminiError + ": "
      && AllDigits(text[|ChatFailedPrefix + GeminiError + ": "|..])
      && DigitsValue(text[|ChatFailedPrefix + GeminiError + ": "|..]) == status
  {
    var digits := NatToString(status);
    var text := Chat(history, apiKey, Replied(status, Parsed(body))).response.body.text;
    assert text == (ChatFailedPrefix + GeminiError + ": ") + digits;
    assert text[|ChatFailedPrefix + GeminiError + ": "|..] == digits;
    NatToStringRoundTrip(status);
  }

  /** On a non-ok status `/summarize` never reads the reply body, so two
      rejections with the same status and different bodies are reported
      identically; `/chat` reports an unparsable error body's own message. */
  lemma SummarizeIgnoresErrorBody(prompt: Option<string>, apiKey: Option<string>, status: nat, a: JsonRead, b: JsonRead, parseError: string)
    requires !IsOk(status)
    ensures Summarize(prompt, apiKey, Replied(status, a)) == Summarize(prompt, apiKey, Replied(status, b))
    ensures ChatCall(Replied(status, Unparsable(parseError))) == Err(parseError)
  {
  }
}
