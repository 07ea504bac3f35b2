/** The Dify side of the plugin: the headers and the JSON payload of the blocking
    workflow request, and how the answer is read out of the reply. The POST itself
    is a network call; it enters the model as the `Reply` it produced. */
module Summarizer {
  import opened Results
  import opened Json
  import opened Settings

  const BearerPrefix := "Bearer "
  const JsonContentType := "application/json"
  const InputField := "transcript"
  const ResponseMode := "blocking"
  const UserId := "astrbot-url-summarizer"
  const AnswerField := "answer"
  const OutputsField := "outputs"
  const UnexpectedFormatMessage := "Dify API response format is not as expected."

  /** How the server reads the credential back out of an Authorization header. */
  function BearerToken(header: string): Option<string> {
    if |header| >= |BearerPrefix| && header[..|BearerPrefix|] == BearerPrefix
    then Some(header[|BearerPrefix|..])
    else None
  }

  /** How the workflow reads its named string input out of a request payload. */
  function WorkflowInput(payload: Json, name: string): Option<string> {
    if payload.JObject? && "inputs" in payload.fields
       && payload.fields["inputs"].JObject? && name in payload.fields["inputs"].fields
       && payload.fields["inputs"].fields[name].JString?
    then Some(payload.fields["inputs"].fields[name].s)
    else None
  }

  /** The request headers: a bearer credential carrying exactly the Dify key, and a
      JSON content type; nothing else. */
  function RequestHeaders(difyApiKey: string): (h: map<string, string>)
    ensures h.Keys == {"Authorization", "Content-Type"}
    ensures BearerToken(h["Authorization"]) == Some(difyApiKey)
    ensures h["Content-Type"] == JsonContentType
  {
    map["Authorization" := BearerPrefix + difyApiKey, "Content-Type" := JsonContentType]
  }

  /** The request body: the transcript as the workflow's only input, a blocking
      response mode and the fixed user id; nothing else. */
  function RequestPayload(text: string): (p: Json)
    ensures p.JObject? && p.fields.Keys == {"inputs", "response_mode", "user"}
    ensures p.fields["inputs"].JObject? && p.fields["inputs"].fields.Keys == {InputField}
    ensures WorkflowInput(p, InputField) == Some(text)
    ensures p.fields["response_mode"] == JString(ResponseMode)
    ensures p.fields["user"] == JString(UserId)
  {
    JObject(map[
      "inputs" := JObject(map[InputField := JString(text)]),
      "response_mode" := JString(ResponseMode),
      "user" := JString(UserId)])
  }

  /** The request as a whole, sent to the configured endpoint. */
  datatype Request = Request(url: string, headers: map<string, string>, payload: Json)

  function SummarizeRequest(keys: Keys, text: string): (r: Request)
    ensures r.url == keys.difyApiUrl
    ensures "Authorization" in r.headers && BearerToken(r.headers["Authorization"]) == Some(keys.difyApiKey)
    ensures WorkflowInput(r.payload, InputField) == Some(text)
  {
    Request(keys.difyApiUrl, RequestHeaders(keys.difyApiKey), RequestPayload(text))
  }

  /** What the POST produced: the HTTP status and the body decoded as JSON (None when
      the body is not JSON). */
  datatype Reply = Reply(status: int, body: Option<Json>)

  datatype SummarizeError =
    | HttpStatusError(status: int)   // raise_for_status on a non-2xx status
    | JsonDecodeError                // response.json() on a body that is not JSON
    | Raised(cause: PyError)         // `in` or a subscript raised while looking up the answer
    | UnexpectedFormat(message: string)  // the ValueError raised when no answer is found

  function LiftPyError<T>(r: Result<T, PyError>): Result<T, SummarizeError> {
    match r
    case Success(v) => Success(v)
    case Failure(e) => Failure(Raised(e))
  }

  /** The answer as a reader of a dict-shaped reply expects it: top-level `answer`
      first, then `outputs.answer`. */
  function AnswerOf(data: Json): Option<Json> {
    if data.JObject? && AnswerField in data.fields then
      Some(data.fields[AnswerField])
    else if data.JObject? && OutputsField in data.fields
            && data.fields[OutputsField].JObject? && AnswerField in data.fields[OutputsField].fields then
      Some(data.fields[OutputsField].fields[AnswerField])
    else
      None
  }

  /** The lookup over the decoded reply, with Python's `in` and subscript semantics on
      whatever JSON value came back. */
  function ResolveAnswer(data: Json): (r: Result<Json, SummarizeError>)
    ensures r.Success? <==> AnswerOf(data).Some?
    ensures r.Success? ==> r.value == AnswerOf(data).value
  {
    var hasAnswer :- LiftPyError(Contains(data, AnswerField));
    if hasAnswer then
      LiftPyError(Subscript(data, AnswerField))
    else
      // `data` already answered one membership test, so it answers this one too
      var hasOutputs := Contains(data, OutputsField).value;
      if !hasOutputs then
        Failure(UnexpectedFormat(UnexpectedFormatMessage))
      else
        var outputs :- LiftPyError(Subscript(data, OutputsField));
        var hasNested :- LiftPyError(Contains(outputs, AnswerField));
        if hasNested then LiftPyError(Subscript(outputs, AnswerField)) else Failure(UnexpectedFormat(UnexpectedFormatMessage))
  }

  /** The tail of `_summarize_text` after the POST: the status check comes before any
      decoding or lookup. */
  function ReadReply(reply: Reply): (r: Result<Json, SummarizeError>)
    ensures !(200 <= reply.status < 300) ==> r == Failure(HttpStatusError(reply.status))
    ensures 200 <= reply.status < 300 && reply.body.None? ==> r == Failure(JsonDecodeError)
    ensures r.Success? <==> 200 <= reply.status < 300 && reply.body.Some? && AnswerOf(reply.body.value).Some?
    ensures r.Success? ==> r.value == AnswerOf(reply.body.value).value
  {
    if !(200 <= reply.status < 300) then Failure(HttpStatusError(reply.status))
    else if reply.body.None? then Failure(JsonDecodeError)
    else ResolveAnswer(reply.body.value)
  }

  /** A top-level `answer` is returned even when `outputs.answer` is present too. */
  lemma TopLevelAnswerWins(fields: map<string, Json>, nested: map<string, Json>)
    requires AnswerField in fields
    requires OutputsField in fields && fields[OutputsField] == JObject(nested) && AnswerField in nested
    ensures ResolveAnswer(JObject(fields)) == Success(fields[AnswerField])
  {
  }

  /** Without a top-level `answer`, a dict under `outputs` supplies it. */
  lemma NestedAnswerUsed(fields: map<string, Json>, nested: map<string, Json>)
    requires AnswerField !in fields
    requires OutputsField in fields && fields[OutputsField] == JObject(nested) && AnswerField in nested
    ensures ResolveAnswer(JObject(fields)) == Success(nested[AnswerField])
  {
  }

  /** A dict reply with neither answer fails with the ValueError, not with a lookup error. */
  lemma MissingAnswerFails(fields: map<string, Json>)
    requires AnswerField !in fields
    requires OutputsField in fields ==> fields[OutputsField].JObject? && AnswerField !in fields[OutputsField].fields
    ensures ResolveAnswer(JObject(fields)) == Failure(UnexpectedFormat(UnexpectedFormatMessage))
  {
  }

  /** An `outputs` that is null, a bool or a number makes the membership test raise. */
  lemma ScalarOutputsRaises(fields: map<string, Json>)
    requires AnswerField !in fields
    requires OutputsField in fields && (fields[OutputsField].JNull? || fields[OutputsField].JBool? || fields[OutputsField].JNumber?)
    ensures ResolveAnswer(JObject(fields)) == Failure(Raised(TypeError))
  {
  }
}
