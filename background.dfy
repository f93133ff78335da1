/** The background script: settings state, the PROCESS_VOICE_NOTE message handler,
    payload normalisation, the upload and the handling of the server's reply. */
module Background {
  import opened Wrappers
  import opened Text
  import opened Codec

  /** The JavaScript values a message field or a payload can hold. A Blob is known
      by its bytes; an object by its array-like contents (when it has a length) and
      by its audioBlobArray property. Numbers are integral here. */
  datatype Value =
    | Undefined
    | Null
    | Bool(b: bool)
    | Number(n: int)
    | Str(s: string)
    | ArrayBuffer(bytes: seq<Byte>)
    | Blob(data: seq<Byte>)
    | NumArray(items: seq<int>)
    | Object(arrayLike: Option<seq<int>>, audioBlobArray: Value)

  /** ToBoolean. */
  predicate Truthy(v: Value)
  {
    match v
    case Undefined => false
    case Null => false
    case Bool(b) => b
    case Number(n) => n != 0
    case Str(s) => s != ""
    case _ => true
  }

  /** value.byteLength, where it is a number. */
  function ByteLength(v: Value): Option<nat>
  {
    if v.ArrayBuffer? then Some(|v.bytes|) else None
  }

  /** value.size, where it is a number. */
  function BlobSize(v: Value): Option<nat>
  {
    if v.Blob? then Some(|v.data|) else None
  }

  /** A thrown error: its name and its message. */
  datatype JsError = JsError(name: string, message: string)

  /** new Error(message). */
  function Error(message: string): JsError
  {
    JsError("Error", message)
  }

  const InvalidFormat := "Invalid audio data format"
  const CannotConvert := InvalidFormat + ": " + "Cannot convert object to ArrayBuffer"
  const TooShort := "Audio recording too short or empty"
  const TimedOut := "Request timed out. " + "Server may be unavailable."
  const NetworkFailure := "Network error. Please check your connection and server URL."

  /** Minimum number of bytes worth uploading. */
  const MinUploadSize := 1000

  /** Turns whatever processVoiceNote receives into one byte buffer. An array-like
      object is preferred over an object that wraps an audioBlobArray. */
  function Normalize(data: Value): (r: Result<seq<Byte>, JsError>)
    ensures r.Ok? <==> (data.ArrayBuffer? || data.Blob? || data.NumArray?
                        || (data.Object? && (data.arrayLike.Some? || data.audioBlobArray.NumArray?)))
    ensures data.ArrayBuffer? ==> r == Ok(data.bytes)
    ensures data.Blob? ==> r == Ok(data.data)
    ensures data.NumArray? ==> r == Ok(Uint8ArrayFrom(data.items))
    ensures data.Object? && data.arrayLike.Some? ==> r == Ok(Uint8ArrayFrom(data.arrayLike.value))
    ensures data.Object? && data.arrayLike.None? && data.audioBlobArray.NumArray? ==>
              r == Ok(Uint8ArrayFrom(data.audioBlobArray.items))
    ensures r.Err? ==> r.error == Error(if data.Object? then CannotConvert else InvalidFormat)
  {
    match data
    case ArrayBuffer(bytes) => Ok(bytes)
    case Blob(bytes) => Ok(bytes)
    case NumArray(items) => Ok(Uint8ArrayFrom(items))
    case Object(arrayLike, inner) =>
      if arrayLike.Some? then Ok(Uint8ArrayFrom(arrayLike.value))
      else if inner.NumArray? then Ok(Uint8ArrayFrom(inner.items))
      else Err(Error(CannotConvert))
    case _ => Err(Error(InvalidFormat))
  }

  /** The catch block of processVoiceNote: a timeout and a network failure get
      user-facing messages, everything else is rethrown as it was. */
  function MapError(e: JsError): (r: JsError)
    ensures e.name == "AbortError" ==> r == Error(TimedOut)
    ensures e.name != "AbortError" && Contains(e.message, "NetworkError") ==> r == Error(NetworkFailure)
    ensures e.name != "AbortError" && !Contains(e.message, "NetworkError") ==> r == e
  {
    if e.name == "AbortError" then Error(TimedOut)
    else if Contains(e.message, "NetworkError") then Error(NetworkFailure)
    else e
  }

  /** An error whose message has no capital N passes MapError unchanged. */
  lemma PlainErrorKept(message: string)
    requires 'N' !in message
    ensures MapError(Error(message)) == Error(message)
  {
    NotContainsWithoutFirstChar(message, "NetworkError");
  }

  /** None of the messages processVoiceNote throws itself mentions NetworkError. */
  lemma OwnMessagesPlain()
    ensures 'N' !in InvalidFormat && 'N' !in CannotConvert && 'N' !in TooShort && 'N' !in TimedOut
  {
    InvalidFormatPlain();
    assert 'N' !in "Cannot convert object to ArrayBuffer";
    TimedOutPlain();
    TooShortPlain();
  }

  lemma InvalidFormatPlain()
    ensures 'N' !in InvalidFormat
  {
  }

  lemma TooShortPlain()
    ensures 'N' !in TooShort
  {
  }

  lemma TimedOutPlain()
    ensures 'N' !in TimedOut
  {
    assert 'N' !in "Request timed out. ";
    assert 'N' !in "Server may be unavailable.";
  }

  /** Mapping an already mapped error changes nothing more. */
  lemma MapErrorIdempotent(e: JsError)
    ensures MapError(MapError(e)) == MapError(e)
  {
    if e.name == "AbortError" {
      OwnMessagesPlain();
      PlainErrorKept(TimedOut);
    }
  }

  /** A parsed JSON value. Arrays carry a property map too, because the result
      defaulting may store properties on an array. */
  datatype Json =
    | JNull
    | JBool(b: bool)
    | JNumber(n: real)
    | JString(s: string)
    | JArray(elems: seq<Json>, arrayProps: map<string, Json>)
    | JObject(props: map<string, Json>)

  predicate IsObject(j: Json)
  {
    j.JArray? || j.JObject?
  }

  predicate Falsy(j: Json)
  {
    j == JNull || j == JBool(false) || j == JNumber(0.0) || j == JString("")
  }

  /** The own properties of an object or array. */
  function Props(j: Json): map<string, Json>
  {
    match j
    case JArray(_, ps) => ps
    case JObject(ps) => ps
    case _ => map[]
  }

  /** j[key] as an own property; None is undefined. */
  function Get(j: Json, key: string): Option<Json>
  {
    if key in Props(j) then Some(Props(j)[key]) else None
  }

  predicate HasOwn(j: Json, key: string)
  {
    Get(j, key).Some?
  }

  /** j[key] = value on an object or array. */
  function SetProp(j: Json, key: string, value: Json): (r: Json)
    requires IsObject(j)
    ensures IsObject(r) && r.JArray? == j.JArray?
    ensures r.JArray? ==> r.elems == j.elems
    ensures Get(r, key) == Some(value)
    ensures forall k :: k != key ==> Get(r, k) == Get(j, k)
  {
    match j
    case JArray(es, ps) => JArray(es, ps[key := value])
    case JObject(ps) => JObject(ps[key := value])
  }

  /** a || b, where a may be undefined. */
  function Or(a: Option<Json>, b: Json): Json
  {
    if a.Some? && !Falsy(a.value) then a.value else b
  }

  const Addressee := "addressee"
  const Transcription := "transcription"

  /** The demo fallback used when the server's result is not an object. */
  const Fallback: Json :=
    JObject(map[Transcription := JString("This is a test transcription"), Addressee := JString("John")])

  /** Validates and defaults the parsed result. The parsed object is fresh and
      unshared, so updating it in place is modelled as building the updated value. */
  function DefaultResult(parsed: Json): (r: Json)
    ensures IsObject(r) && HasOwn(r, Addressee) && HasOwn(r, Transcription)
    ensures !IsObject(parsed) ==> r == Fallback
    ensures IsObject(parsed) && HasOwn(parsed, Addressee) && HasOwn(parsed, Transcription) ==> r == parsed
    ensures IsObject(parsed) && !(HasOwn(parsed, Addressee) && HasOwn(parsed, Transcription)) ==>
              r.JArray? == parsed.JArray?
              && (r.JArray? ==> r.elems == parsed.elems)
              && Get(r, Addressee) == Some(Or(Get(parsed, Addressee), JNull))
              && Get(r, Transcription) == Some(Or(Get(parsed, Transcription), JString("")))
    ensures IsObject(parsed) ==> forall k :: k != Addressee && k != Transcription ==> Get(r, k) == Get(parsed, k)
  {
    var result := if Falsy(parsed) || !IsObject(parsed) then Fallback else parsed;
    if !HasOwn(result, Addressee) || !HasOwn(result, Transcription) then
      var withAddressee := SetProp(result, Addressee, Or(Get(result, Addressee), JNull));
      SetProp(withAddressee, Transcription, Or(Get(withAddressee, Transcription), JString("")))
    else
      result
  }

  /** Defaulting a defaulted result leaves it as it is. */
  lemma DefaultResultIdempotent(parsed: Json)
    ensures DefaultResult(DefaultResult(parsed)) == DefaultResult(parsed)
  {
  }

  /** What fetch produced: a rejection, or a response with its status, the body
      as text (None when reading it failed) and the body parsed as JSON (an error
      message when parsing failed). */
  datatype FetchOutcome =
    | Rejected(error: JsError)
    | Responded(ok: bool, status: nat, text: Option<string>, json: Result<Json, string>)

  function ServerErrorMessage(status: nat, text: Option<string>): string
  {
    "Server error: " + NatToString(status) + " - " + (if text.Some? then text.value else "Could not read error response")
  }

  /** Everything after the upload: status check, JSON parse, defaulting, and the
      mapping of any error thrown on the way. */
  function HandleReply(reply: FetchOutcome): (r: Result<Json, JsError>)
    ensures r.Ok? <==> reply.Responded? && reply.ok && reply.json.Ok?
    ensures r.Ok? ==> r.value == DefaultResult(reply.json.value)
    ensures reply.Rejected? ==> r == Err(MapError(reply.error))
    ensures reply.Responded? && !reply.ok ==> r == Err(MapError(Error(ServerErrorMessage(reply.status, reply.text))))
    ensures reply.Responded? && reply.ok && reply.json.Err? ==>
              r == Err(MapError(Error("Invalid response from server: " + reply.json.error)))
  {
    match reply
    case Rejected(e) => Err(MapError(e))
    case Responded(ok, status, text, json) =>
      if !ok then Err(MapError(Error(ServerErrorMessage(status, text))))
      else if json.Err? then Err(MapError(Error("Invalid response from server: " + json.error)))
      else Ok(DefaultResult(json.value))
  }

  /** A non-ok status is reported with its number and the body text, unless the
      body text itself mentions NetworkError. */
  lemma ServerErrorReported(status: nat, text: string, json: Result<Json, string>)
    requires !Contains(text, "NetworkError")
    ensures HandleReply(Responded(false, status, Some(text), json))
            == Err(Error("Server error: " + NatToString(status) + " - " + text))
  {
    var prefix := "Server error: " + NatToString(status) + " - ";
    assert ServerErrorMessage(status, Some(text)) == prefix + text;
    assert forall i :: 0 <= i < |prefix| ==> prefix[i] != 'N';
    if Contains(prefix + text, "NetworkError") {
      ContainsInSuffix(prefix, text, "NetworkError");
    }
  }

  /** The request processVoiceNote sends. */
  datatype Upload = Upload(url: string, audio: seq<Byte>)

  /** The request made (if any) and what processVoiceNote resolves or rejects with. */
  datatype Processed = Processed(upload: Option<Upload>, outcome: Result<Json, JsError>)

  /** processVoiceNote with the server URL and fetch's outcome as parameters. */
  function ProcessVoiceNote(data: Value, serverUrl: string, reply: FetchOutcome): (p: Processed)
    ensures p.upload.Some? <==> Normalize(data).Ok? && |Normalize(data).value| >= MinUploadSize
    ensures p.upload.Some? ==> p.upload.value == Upload(serverUrl + "/process_audio", Normalize(data).value)
    ensures Normalize(data).Err? ==> p.outcome == Err(Normalize(data).error)
    ensures Normalize(data).Ok? && |Normalize(data).value| < MinUploadSize ==> p.outcome == Err(Error(TooShort))
    ensures p.outcome.Ok? ==> p.upload.Some? && IsObject(p.outcome.value)
                              && HasOwn(p.outcome.value, Addressee) && HasOwn(p.outcome.value, Transcription)
  {
    match Normalize(data)
    case Err(e) =>
      OwnMessagesPlain();
      PlainErrorKept(e.message);
      Processed(None, Err(MapError(e)))
    case Ok(audio) =>
      if |audio| < MinUploadSize then
        OwnMessagesPlain();
        PlainErrorKept(TooShort);
        Processed(None, Err(MapError(Error(TooShort))))
      else
        Processed(Some(Upload(serverUrl + "/process_audio", audio)), HandleReply(reply))
  }

  /** A runtime message; absent fields are Undefined. */
  datatype Message = Message(kind: string, audioBinary: Value, audioBlob: Value, audioBlobArray: Value,
                             byteLength: Value, enabled: Value, url: string)

  const EmptyRecording := "Empty audio recording"
  const NoAudio := "No audio data provided"

  /** Which payload a PROCESS_VOICE_NOTE message is processed with: audioBinary,
      then audioBlob, then an audioBlobArray rebuilt into an ArrayBuffer. */
  function SelectPayload(m: Message): (r: Result<Value, string>)
    ensures r == Err(NoAudio) <==> !Truthy(m.audioBinary) && !Truthy(m.audioBlob) && !m.audioBlobArray.NumArray?
    ensures r == Err(EmptyRecording) <==>
              (Truthy(m.audioBinary) && ByteLength(m.audioBinary) == Some(0))
              || (!Truthy(m.audioBinary) && Truthy(m.audioBlob) && BlobSize(m.audioBlob) == Some(0))
    ensures r.Ok? && Truthy(m.audioBinary) ==> r.value == m.audioBinary
    ensures r.Ok? && !Truthy(m.audioBinary) && Truthy(m.audioBlob) ==> r.value == m.audioBlob
    ensures r.Ok? && !Truthy(m.audioBinary) && !Truthy(m.audioBlob) ==>
              r.value == ArrayBuffer(Uint8ArrayFrom(m.audioBlobArray.items))
  {
    if Truthy(m.audioBinary) then
      if ByteLength(m.audioBinary) == Some(0) then Err(EmptyRecording) else Ok(m.audioBinary)
    else if Truthy(m.audioBlob) then
      if BlobSize(m.audioBlob) == Some(0) then Err(EmptyRecording) else Ok(m.audioBlob)
    else if m.audioBlobArray.NumArray? then
      Ok(ArrayBuffer(Uint8ArrayFrom(m.audioBlobArray.items)))
    else
      Err(NoAudio)
  }

  /** A present audioBinary decides the outcome alone; the later fields are not read. */
  lemma BinaryTakesPrecedence(m: Message, blob: Value, blobArray: Value)
    requires Truthy(m.audioBinary)
    ensures SelectPayload(m.(audioBlob := blob, audioBlobArray := blobArray)) == SelectPayload(m)
  {
  }

  /** Without audioBinary, a present audioBlob decides the outcome alone. */
  lemma BlobTakesPrecedence(m: Message, blobArray: Value)
    requires !Truthy(m.audioBinary) && Truthy(m.audioBlob)
    ensures SelectPayload(m.(audioBlobArray := blobArray)) == SelectPayload(m)
  {
  }

  /** What sendResponse is called with. */
  datatype Response =
    | Failure(error: string)
    | Success(result: Json)
    | Acknowledged
    | EnabledIs(enabled: Value)
    | UrlIs(url: string)

  /** error.message || "Unknown error": the message when there is one, and never empty. */
  function ErrorText(e: JsError): (r: string)
    ensures r != ""
    ensures e.message != "" ==> r == e.message
  {
    if e.message == "" then "Unknown error" else e.message
  }

  /** The response of the promise handlers: the result on success, otherwise a
      failure that always carries a non-empty error text. */
  function Respond(outcome: Result<Json, JsError>): (r: Response)
    ensures r.Success? <==> outcome.Ok?
    ensures outcome.Ok? ==> r == Success(outcome.value)
    ensures outcome.Err? ==> r.Failure? && r.error != ""
                             && (outcome.error.message != "" ==> r.error == outcome.error.message)
  {
    match outcome
    case Ok(result) => Success(result)
    case Err(e) => Failure(ErrorText(e))
  }

  /** The background script's module-level settings and its message listener. */
  class BackgroundScript {
    var serverUrl: string
    var isExtensionEnabled: Value

    constructor()
      ensures serverUrl == "http://localhost:5000" && isExtensionEnabled == Bool(true)
    {
      serverUrl := "http://localhost:5000";
      isExtensionEnabled := Bool(true);
    }

    /** One call of the onMessage listener. The response is what sendResponse is
        called with (None: it is never called); upload is the request made. */
    method OnMessage(m: Message, reply: FetchOutcome) returns (response: Option<Response>, upload: Option<Upload>)
      modifies this
      ensures m.kind == "PROCESS_VOICE_NOTE" ==>
                serverUrl == old(serverUrl) && isExtensionEnabled == old(isExtensionEnabled)
                && (!Truthy(isExtensionEnabled) ==> response == Some(Failure("Extension is disabled")) && upload.None?)
                && (Truthy(isExtensionEnabled) && SelectPayload(m).Err? ==>
                      response == Some(Failure(SelectPayload(m).error)) && upload.None?)
                && (Truthy(isExtensionEnabled) && SelectPayload(m).Ok? ==>
                      var p := ProcessVoiceNote(SelectPayload(m).value, serverUrl, reply);
                      response == Some(Respond(p.outcome)) && upload == p.upload)
      ensures m.kind == "SET_ENABLED" ==>
                isExtensionEnabled == m.enabled && serverUrl == old(serverUrl)
                && response == Some(Acknowledged) && upload.None?
      ensures m.kind == "GET_ENABLED" ==>
                isExtensionEnabled == old(isExtensionEnabled) && serverUrl == old(serverUrl)
                && response == Some(EnabledIs(isExtensionEnabled)) && upload.None?
      ensures m.kind == "SET_SERVER_URL" ==>
                serverUrl == m.url && isExtensionEnabled == old(isExtensionEnabled)
                && response == Some(Acknowledged) && upload.None?
      ensures m.kind == "GET_SERVER_URL" ==>
                serverUrl == old(serverUrl) && isExtensionEnabled == old(isExtensionEnabled)
                && response == Some(UrlIs(serverUrl)) && upload.None?
      ensures m.kind !in {"PROCESS_VOICE_NOTE", "SET_ENABLED", "GET_ENABLED", "SET_SERVER_URL", "GET_SERVER_URL"} ==>
                serverUrl == old(serverUrl) && isExtensionEnabled == old(isExtensionEnabled)
                && response.None? && upload.None?
    {
      response, upload := None, None;
      if m.kind == "PROCESS_VOICE_NOTE" {
        if !Truthy(isExtensionEnabled) {
          response := Some(Failure("Extension is disabled"));
          return;
        }
        var payload := SelectPayload(m);
        if payload.Err? {
          response := Some(Failure(payload.error));
          return;
        }
        var p := ProcessVoiceNote(payload.value, serverUrl, reply);
        response, upload := Some(Respond(p.outcome)), p.upload;
      } else if m.kind == "SET_ENABLED" {
        isExtensionEnabled := m.enabled;
        response := Some(Acknowledged);
      } else if m.kind == "GET_ENABLED" {
        response := Some(EnabledIs(isExtensionEnabled));
      } else if m.kind == "SET_SERVER_URL" {
        serverUrl := m.url;
        response := Some(Acknowledged);
      } else if m.kind == "GET_SERVER_URL" {
        response := Some(UrlIs(serverUrl));
      }
    }
  }

  /** A message of the given kind carrying nothing else. */
  function Bare(kind: string): Message
  {
    Message(kind, Undefined, Undefined, Undefined, Undefined, Undefined, "")
  }

  /** SET_SERVER_URL followed by GET_SERVER_URL answers with the stored URL, and the
      enabled flag is untouched by both. */
  method SetThenGetServerUrl(bg: BackgroundScript, url: string, reply: FetchOutcome) returns (response: Option<Response>)
    modifies bg
    ensures response == Some(UrlIs(url))
    ensures bg.serverUrl == url && bg.isExtensionEnabled == old(bg.isExtensionEnabled)
  {
    var m := Bare("SET_SERVER_URL").(url := url);
    var _, _ := bg.OnMessage(m, reply);
    var u;
    response, u := bg.OnMessage(Bare("GET_SERVER_URL"), reply);
  }

  /** SET_ENABLED followed by GET_ENABLED answers with the stored value, and the
      server URL is untouched by both. */
  method SetThenGetEnabled(bg: BackgroundScript, enabled: Value, reply: FetchOutcome) returns (response: Option<Response>)
    modifies bg
    ensures response == Some(EnabledIs(enabled))
    ensures bg.isExtensionEnabled == enabled && bg.serverUrl == old(bg.serverUrl)
  {
    var m := Bare("SET_ENABLED").(enabled := enabled);
    var _, _ := bg.OnMessage(m, reply);
    var u;
    response, u := bg.OnMessage(Bare("GET_ENABLED"), reply);
  }

  /** Once disabled, no voice note is processed, whatever the message carries. */
  method DisabledRejectsVoiceNotes(bg: BackgroundScript, m: Message, reply: FetchOutcome)
      returns (response: Option<Response>, upload: Option<Upload>)
    requires m.kind == "PROCESS_VOICE_NOTE"
    modifies bg
    ensures response == Some(Failure("Extension is disabled")) && upload.None?
    ensures !Truthy(bg.isExtensionEnabled)
  {
    var _, _ := bg.OnMessage(Bare("SET_ENABLED").(enabled := Bool(false)), reply);
    response, upload := bg.OnMessage(m, reply);
  }
}
