/**
 * The request data of the text-to-speech plugin: the validation that turns
 * a caller's `TtsRequest` into the request sent to the Xunfei TTS service.
 */
module Tts {
  import opened Wrappers
  import Text

  /** The longest text the service accepts, in bytes. */
  const MAX_TEXT_BYTES: nat := 8000

  type U8 = x: int | 0 <= x < 0x100

  /** Audio encoding: raw PCM or MP3 (`lame`). */
  datatype Aue = Raw | Lame

  /** The streaming flag, sent only for MP3. */
  datatype Sfl = Stream

  datatype Auf = Audio8kRate | Audio16kRate

  datatype Bgs = NoBackgroundSound | HasBackgroundSound

  /** The text encoding; only UTF-8 is used. */
  datatype Tte = Utf8

  datatype Reg = AutoWord | Alphabet | AutoAlphabet

  datatype Rdn = Auto | Number | StringNumbers | StringPriority

  datatype Status = Synthesis | End

  /** What a caller asks for. */
  datatype TtsRequest = TtsRequest(
    appId: string,
    apiSecret: string,
    apiKey: string,
    aue: Aue,
    auf: Option<Auf>,
    vcn: string,
    speed: Option<U8>,
    volume: Option<U8>,
    pitch: Option<U8>,
    bgs: Option<Bgs>,
    reg: Option<Reg>,
    rdn: Option<Rdn>,
    text: string,
    getAllOnce: bool)

  datatype RequestBusiness = RequestBusiness(
    aue: Aue,
    sfl: Option<Sfl>,
    auf: Option<Auf>,
    vcn: string,
    speed: Option<U8>,
    volume: Option<U8>,
    pitch: Option<U8>,
    bgs: Option<Bgs>,
    tte: Tte,
    reg: Option<Reg>,
    rdn: Option<Rdn>)

  datatype RequestData = RequestData(text: string, status: Status)

  /** The request sent to the service; `appId` is its common part. */
  datatype Request = Request(appId: string, business: RequestBusiness, data: RequestData)

  const EMPTY_CREDENTIALS: string := "app_id, api_secret or api_key is empty"
  const EMPTY_VCN: string := "vcn is empty"

  /** `check_sound_property`: a value is accepted when absent or at most 100. */
  function CheckSoundProperty(name: string, property: Option<U8>): (r: Outcome<string>)
    ensures r.Pass? <==> property.None? || property.value <= 100
    ensures r.Fail? ==> r.error == name + " is less than 0 or greater than 100: " + Text.IntToString(property.value)
  {
    match property
    case None => Pass
    case Some(p) =>
      if p <= 100 then Pass
      else Fail(name + " is less than 0 or greater than 100: " + Text.IntToString(p))
  }

  predicate CredentialsOk(request: TtsRequest)
  {
    |request.appId| > 0 && |request.apiSecret| > 0 && |request.apiKey| > 0
  }

  predicate SoundOk(request: TtsRequest)
  {
    CheckSoundProperty("speed", request.speed).Pass?
    && CheckSoundProperty("volume", request.volume).Pass?
    && CheckSoundProperty("pitch", request.pitch).Pass?
  }

  /**
   * `TryFrom<TtsRequest> for Request`. `encode` is the standard base64
   * encoding of the text, which this model does not define.
   */
  function ToRequest(request: TtsRequest, encode: string -> string): (r: Result<Request, string>)
    ensures !CredentialsOk(request) ==> r == Failure(EMPTY_CREDENTIALS)
    ensures CredentialsOk(request) && |request.vcn| == 0 ==> r == Failure(EMPTY_VCN)
    ensures CredentialsOk(request) && |request.vcn| > 0 && CheckSoundProperty("speed", request.speed).Fail? ==>
              r == Failure(CheckSoundProperty("speed", request.speed).error)
    ensures CredentialsOk(request) && |request.vcn| > 0 && CheckSoundProperty("speed", request.speed).Pass?
            && CheckSoundProperty("volume", request.volume).Fail? ==>
              r == Failure(CheckSoundProperty("volume", request.volume).error)
    ensures CredentialsOk(request) && |request.vcn| > 0 && CheckSoundProperty("speed", request.speed).Pass?
            && CheckSoundProperty("volume", request.volume).Pass? && CheckSoundProperty("pitch", request.pitch).Fail? ==>
              r == Failure(CheckSoundProperty("pitch", request.pitch).error)
    ensures CredentialsOk(request) && |request.vcn| > 0 && SoundOk(request) && Text.Utf8Len(request.text) > MAX_TEXT_BYTES ==>
              r == Failure("the text's length (in bytes) is greater than 8000: " + Text.IntToString(Text.Utf8Len(request.text)))
    ensures r.Success? <==> CredentialsOk(request) && |request.vcn| > 0 && SoundOk(request)
                            && Text.Utf8Len(request.text) <= MAX_TEXT_BYTES
    ensures r.Success? ==> r.value.data == RequestData(encode(request.text), End) && r.value.business.tte == Utf8
    ensures r.Success? ==> (r.value.business.sfl == Some(Stream) <==> request.aue == Lame)
    ensures r.Success? ==> (r.value.business.sfl == None <==> request.aue != Lame)
    ensures r.Success? ==> var b := r.value.business;
      && r.value.appId == request.appId && b.aue == request.aue && b.auf == request.auf && b.vcn == request.vcn
      && b.speed == request.speed && b.volume == request.volume && b.pitch == request.pitch
      && b.bgs == request.bgs && b.reg == request.reg && b.rdn == request.rdn
  {
    if !CredentialsOk(request) then Failure(EMPTY_CREDENTIALS)
    else if |request.vcn| == 0 then Failure(EMPTY_VCN)
    else
      match CheckSoundProperty("speed", request.speed)
      case Fail(e) => Failure(e)
      case Pass =>
        match CheckSoundProperty("volume", request.volume)
        case Fail(e) => Failure(e)
        case Pass =>
          match CheckSoundProperty("pitch", request.pitch)
          case Fail(e) => Failure(e)
          case Pass =>
            if Text.Utf8Len(request.text) > MAX_TEXT_BYTES then
              Failure("the text's length (in bytes) is greater than 8000: " + Text.IntToString(Text.Utf8Len(request.text)))
            else
              Success(Request(
                request.appId,
                RequestBusiness(
                  request.aue,
                  if request.aue == Lame then Some(Stream) else None,
                  request.auf,
                  request.vcn,
                  request.speed,
                  request.volume,
                  request.pitch,
                  request.bgs,
                  Utf8,
                  request.reg,
                  request.rdn),
                RequestData(encode(request.text), End)))
  }

  /**
   * Whether a request is accepted never depends on the audio format, the
   * voice options or the base64 encoder: only credentials, voice name, the
   * three sound properties and the text length decide.
   */
  lemma AcceptanceIgnoresOptions(a: TtsRequest, b: TtsRequest, encA: string -> string, encB: string -> string)
    requires a.appId == b.appId && a.apiSecret == b.apiSecret && a.apiKey == b.apiKey && a.vcn == b.vcn
    requires a.speed == b.speed && a.volume == b.volume && a.pitch == b.pitch && a.text == b.text
    ensures ToRequest(a, encA).Success? <==> ToRequest(b, encB).Success?
    ensures ToRequest(a, encA).Failure? ==> ToRequest(a, encA) == ToRequest(b, encB)
  {
  }
}
