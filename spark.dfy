/**
 * The request and response data of the Spark chat plugin: the validation
 * that turns a caller's `SparkRequest` into the request sent to the Xunfei
 * Spark service, and the helpers that read a streamed response frame.
 */
module Spark {
  import opened Wrappers
  import Text

  /** The model domain every request names. */
  const GENERAL: string := "generalv3"

  /** The longest uid the service accepts, in bytes. */
  const MAX_UID_BYTES: nat := 32

  /** The most bytes the history and the new content may hold together. */
  const MAX_CONTENT_BYTES: nat := 10000

  type U8 = x: int | 0 <= x < 0x100
  type U32 = x: int | 0 <= x < 0x1_0000_0000

  datatype Role = User | Assistant

  /** One message of the conversation. */
  datatype RequestText = RequestText(role: Role, content: string)

  /** What a caller asks for; `temperature` is an `f32` there, modelled by its value. */
  datatype SparkRequest = SparkRequest(
    appId: string,
    apiSecret: string,
    apiKey: string,
    uid: Option<string>,
    temperature: Option<real>,
    maxTokens: Option<U32>,
    topK: Option<U8>,
    chatId: Option<string>,
    history: Option<seq<RequestText>>,
    content: string)

  datatype RequestHeader = RequestHeader(appId: string, uid: Option<string>)

  datatype ChatConfig = ChatConfig(
    domain: string,
    temperature: Option<real>,
    maxTokens: Option<U32>,
    topK: Option<U8>,
    chatId: Option<string>)

  /** The request sent to the service; its payload is the list of messages. */
  datatype Request = Request(header: RequestHeader, chat: ChatConfig, text: seq<RequestText>)

  /** Why a request was refused, with the values the error message reports. */
  datatype SparkError =
    | EmptyCredentials
    | UidTooLong(uid: string, bytes: nat)
    | TemperatureOutOfRange(temperature: real)
    | MaxTokensOutOfRange(maxTokens: U32)
    | TopKOutOfRange(topK: U8)
    | ContentsTooLong(bytes: nat)

  /** The byte length of every message's content, summed left to right. */
  function TextBytes(text: seq<RequestText>): nat
  {
    if |text| == 0 then 0 else TextBytes(text[..|text| - 1]) + Text.Utf8Len(text[|text| - 1].content)
  }

  /** The bytes the length check counts: the history's contents and the new content. */
  function ContentBytes(request: SparkRequest): nat
  {
    (match request.history
     case Some(history) => TextBytes(history)
     case None => 0) + Text.Utf8Len(request.content)
  }

  predicate CredentialsOk(request: SparkRequest)
  {
    |request.appId| > 0 && |request.apiSecret| > 0 && |request.apiKey| > 0
  }

  predicate UidOk(request: SparkRequest)
  {
    request.uid.Some? ==> Text.Utf8Len(request.uid.value) <= MAX_UID_BYTES
  }

  predicate TemperatureOk(request: SparkRequest)
  {
    request.temperature.Some? ==> 0.0 <= request.temperature.value <= 1.0
  }

  predicate MaxTokensOk(request: SparkRequest)
  {
    request.maxTokens.Some? ==> 1 <= request.maxTokens.value <= 8192
  }

  predicate TopKOk(request: SparkRequest)
  {
    request.topK.Some? ==> 1 <= request.topK.value <= 6
  }

  predicate LengthOk(request: SparkRequest)
  {
    ContentBytes(request) <= MAX_CONTENT_BYTES
  }

  /**
   * `TryFrom<SparkRequest> for Request`: the checks run in order and the first
   * that fails decides the error; a request that passes them all is copied
   * into the service's format with the new content appended to the history.
   */
  function ToRequest(request: SparkRequest): (r: Result<Request, SparkError>)
    ensures !CredentialsOk(request) ==> r == Failure(EmptyCredentials)
    ensures CredentialsOk(request) && !UidOk(request) ==>
              r == Failure(UidTooLong(request.uid.value, Text.Utf8Len(request.uid.value)))
    ensures CredentialsOk(request) && UidOk(request) && !TemperatureOk(request) ==>
              r == Failure(TemperatureOutOfRange(request.temperature.value))
    ensures CredentialsOk(request) && UidOk(request) && TemperatureOk(request) && !MaxTokensOk(request) ==>
              r == Failure(MaxTokensOutOfRange(request.maxTokens.value))
    ensures CredentialsOk(request) && UidOk(request) && TemperatureOk(request) && MaxTokensOk(request)
            && !TopKOk(request) ==>
              r == Failure(TopKOutOfRange(request.topK.value))
    ensures CredentialsOk(request) && UidOk(request) && TemperatureOk(request) && MaxTokensOk(request)
            && TopKOk(request) && !LengthOk(request) ==>
              r == Failure(ContentsTooLong(ContentBytes(request)))
    ensures r.Success? <==> CredentialsOk(request) && UidOk(request) && TemperatureOk(request)
                            && MaxTokensOk(request) && TopKOk(request) && LengthOk(request)
    ensures r.Success? ==> r.value.text == request.history.GetOr([]) + [RequestText(User, request.content)]
    ensures r.Success? ==> r.value.header == RequestHeader(request.appId, request.uid)
    ensures r.Success? ==> r.value.chat == ChatConfig(GENERAL, request.temperature, request.maxTokens, request.topK, request.chatId)
  {
    if !CredentialsOk(request) then Failure(EmptyCredentials)
    else if request.uid.Some? && Text.Utf8Len(request.uid.value) > MAX_UID_BYTES then
      Failure(UidTooLong(request.uid.value, Text.Utf8Len(request.uid.value)))
    else if request.temperature.Some? && !(0.0 <= request.temperature.value <= 1.0) then
      Failure(TemperatureOutOfRange(request.temperature.value))
    else if request.maxTokens.Some? && !(1 <= request.maxTokens.value <= 8192) then
      Failure(MaxTokensOutOfRange(request.maxTokens.value))
    else if request.topK.Some? && !(1 <= request.topK.value <= 6) then
      Failure(TopKOutOfRange(request.topK.value))
    else if ContentBytes(request) > MAX_CONTENT_BYTES then
      Failure(ContentsTooLong(ContentBytes(request)))
    else
      var text := request.history.GetOr([]) + [RequestText(User, request.content)];
      Success(Request(
        RequestHeader(request.appId, request.uid),
        ChatConfig(GENERAL, request.temperature, request.maxTokens, request.topK, request.chatId),
        text))
  }

  /**
   * A request that passes validation carries at most 10000 bytes of message
   * content, ends with the caller's new content as a user message, and keeps
   * every history message in place.
   */
  lemma AcceptedRequestFits(request: SparkRequest)
    requires ToRequest(request).Success?
    ensures TextBytes(ToRequest(request).value.text) <= MAX_CONTENT_BYTES
    ensures var text := ToRequest(request).value.text;
      |text| > 0 && text[|text| - 1] == RequestText(User, request.content)
  {
    var text := ToRequest(request).value.text;
    assert text[..|text| - 1] == request.history.GetOr([]);
  }

  // ---------------------------------------------------------------------
  // Responses

  datatype ResponseStatus = Start | Middle | End

  datatype ResponseHeader = ResponseHeader(code: int, message: string, sid: string, status: ResponseStatus)

  datatype ResponseText = ResponseText(content: string, role: Role, index: int)

  datatype ResponseChoices = ResponseChoices(status: ResponseStatus, seqNo: U32, text: seq<ResponseText>)

  datatype ResponseTokenStatistics = ResponseTokenStatistics(
    questionTokens: int,
    promptTokens: U32,
    completionTokens: U32,
    totalTokens: U32)

  datatype ResponseUsage = ResponseUsage(text: ResponseTokenStatistics)

  datatype ResponsePayload = ResponsePayload(choices: ResponseChoices, usage: Option<ResponseUsage>)

  /** One frame of the streamed answer. */
  datatype Response = Response(header: ResponseHeader, payload: Option<ResponsePayload>)

  /** The token counts handed back to the caller. */
  datatype TokenStatistics = TokenStatistics(promptTokens: U32, completionTokens: U32, totalTokens: U32)

  /** `is_end`: the frame closes both the session and the choice list. */
  predicate IsEnd(response: Response): (b: bool)
    ensures b <==> response.header.status == End && response.payload.Some? && response.payload.value.choices.status == End
    ensures b ==> Content(response).Some?
  {
    response.header.status == End
    && match response.payload
       case Some(p) => p.choices.status == End
       case None => false
  }

  /** The frame's choice texts, concatenated in order. */
  function Concat(texts: seq<ResponseText>): string
  {
    if |texts| == 0 then "" else Concat(texts[..|texts| - 1]) + texts[|texts| - 1].content
  }

  /** `content`: absent without a payload, else every choice text in order. */
  function Content(response: Response): (r: Option<string>)
    ensures r.Some? <==> response.payload.Some?
    ensures r.Some? ==> r.value == Concat(response.payload.value.choices.text)
  {
    match response.payload
    case Some(p) => Some(Concat(p.choices.text))
    case None => None
  }

  /** Concatenating two runs of texts is concatenating their contents. */
  lemma {:induction false} ConcatAppend(a: seq<ResponseText>, b: seq<ResponseText>)
    ensures Concat(a + b) == Concat(a) + Concat(b)
    decreases |b|
  {
    if |b| == 0 {
      assert a + b == a;
    } else {
      assert (a + b)[..|a + b| - 1] == a + b[..|b| - 1];
      ConcatAppend(a, b[..|b| - 1]);
    }
  }

  /** Each text's content sits in the concatenation right after the contents before it. */
  lemma ConcatContains(texts: seq<ResponseText>, i: nat)
    requires i < |texts|
    ensures var before := |Concat(texts[..i])|;
      before + |texts[i].content| <= |Concat(texts)|
      && Concat(texts)[before..before + |texts[i].content|] == texts[i].content
  {
    assert texts == texts[..i] + [texts[i]] + texts[i + 1..];
    ConcatAppend(texts[..i] + [texts[i]], texts[i + 1..]);
    ConcatAppend(texts[..i], [texts[i]]);
    assert Concat([texts[i]]) == texts[i].content by {
      assert [texts[i]][..0] == [];
    }
  }

  /** `token_statistics`: present exactly when the frame has a payload with usage, and a copy of its counts. */
  function TokenStatisticsOf(response: Response): (r: Option<TokenStatistics>)
    ensures r.Some? <==> response.payload.Some? && response.payload.value.usage.Some?
    ensures r.Some? ==> var u := response.payload.value.usage.value.text;
      r.value == TokenStatistics(u.promptTokens, u.completionTokens, u.totalTokens)
  {
    match response.payload
    case None => None
    case Some(p) =>
      match p.usage
      case None => None
      case Some(u) => Some(TokenStatistics(u.text.promptTokens, u.text.completionTokens, u.text.totalTokens))
  }
}
