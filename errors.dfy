/**
 * The error normaliser of the REST client: `isError`, the duck-typed test for
 * a server-formatted error, and `errorWrapper`, which turns any failed request
 * into one normalised error object.
 */
module Errors {
  import opened Wrappers
  import opened Json
  import opened Strings

  /**
   * A normalised error (`IError`): a plain object whose fields `code`,
   * `httpCode`, `error`, `message` and `uuid` the rest of the application
   * reads. A server-managed error keeps every other field it came with.
   */
  type ErrorObject = map<string, JsValue>

  /** A received HTTP response: status, status text and body. */
  datatype Response = Response(status: int, statusText: string, data: JsValue)

  /** A failed request: either a response arrived, or none did and only a transport code is known. */
  datatype RawFailure =
    | HttpFailure(response: Response)
    | TransportFailure(code: Option<string>)

  const DefaultErrorMessage: string := "Error.unknown"
  const UnknownErrorCode: string := "UNKNOWN_ERROR"
  /** The transport code of a request aborted by its timeout. */
  const AbortedCode: string := "ECONNABORTED"

  /** `isError(obj)`: a truthy value with a truthy `message` and a truthy `code`. */
  predicate IsError(v: JsValue)
    ensures IsError(v) <==>
      v.JsObject? && "message" in v.fields && "code" in v.fields &&
      Truthy(v.fields["message"]) && Truthy(v.fields["code"])
  {
    Truthy(v) && Truthy(Field(v, "message")) && Truthy(Field(v, "code"))
  }

  /** `s || fallback` for a string. */
  function OrDefault(s: string, fallback: string): (r: string)
    requires fallback != ""
    ensures r != ""
  {
    if s != "" then s else fallback
  }

  /** An error built by the normaliser itself. */
  function NormalizedError(code: string, httpCode: int, message: JsValue): ErrorObject {
    map["code" := JsString(code), "httpCode" := JsNumber(httpCode),
        "message" := message, "error" := JsBool(true)]
  }

  /** `{code: statusText || 'UNKNOWN_ERROR', httpCode: status || 400, message, error: true}`. */
  function ResponseFallback(response: Response, message: JsValue): ErrorObject {
    NormalizedError(OrDefault(response.statusText, UnknownErrorCode),
                    if response.status != 0 then response.status else 400, message)
  }

  /** A Blob whose type, lower-cased, contains "json": its content is read and parsed. */
  predicate IsJsonBlob(v: JsValue)
    ensures IsJsonBlob(v) <==> v.JsBlob? && v.mimeType != "" && exists j :: OccursAt(ToLower(v.mimeType), "json", j)
  {
    if v.JsBlob? then
      ContainsIff(ToLower(v.mimeType), "json");
      v.mimeType != "" && Contains(ToLower(v.mimeType), "json")
    else false
  }

  /** The body after the decoding step: the parsed content of a JSON Blob that decoded. */
  function DecodedBody(data: JsValue): JsValue {
    if IsJsonBlob(data) && data.read.Parsed? then data.read.value else data
  }

  /** Decoding was attempted and failed with a falsy message: empty, or `undefined`. */
  predicate DecodeFailedSilently(failure: RawFailure) {
    failure.HttpFailure? && Truthy(failure.response.data) && IsJsonBlob(failure.response.data) &&
    failure.response.data.read.ReadFailed? && !Truthy(failure.response.data.read.message)
  }

  /**
   * `errorWrapper(error)`. Every result is flagged `error: true` and has a
   * numeric `httpCode`.
   */
  function ErrorWrapper(failure: RawFailure): (r: ErrorObject)
    ensures "error" in r && r["error"] == JsBool(true)
    ensures "httpCode" in r && r["httpCode"].JsNumber?
  {
    match failure
    case TransportFailure(code) =>
      NormalizedError(if code.Some? then OrDefault(code.value, UnknownErrorCode) else UnknownErrorCode,
                      if code == Some(AbortedCode) then 408 else 400,
                      JsString(DefaultErrorMessage))
    case HttpFailure(response) =>
      var data := response.data;
      if !Truthy(data) then ResponseFallback(response, JsString(DefaultErrorMessage))
      else
        var result :=
          if IsJsonBlob(data) && data.read.ReadFailed? then ResponseFallback(response, data.read.message)
          else ResponseFallback(response, JsString(DefaultErrorMessage));
        var body := DecodedBody(data);
        if IsError(body) then Spread(body)["error" := JsBool(true)]["httpCode" := JsNumber(response.status)]
        else result
  }

  /**
   * Without a response the code is the transport code or "UNKNOWN_ERROR", the
   * message is the generic one, and `httpCode` is 408 exactly for an aborted
   * request and 400 otherwise.
   */
  lemma TransportFailureNormalized(code: Option<string>)
    ensures var r := ErrorWrapper(TransportFailure(code));
      && r.Keys == {"code", "httpCode", "message", "error"}
      && r["code"] == JsString(if code.Some? && code.value != "" then code.value else UnknownErrorCode)
      && r["message"] == JsString(DefaultErrorMessage)
      && (r["httpCode"] == JsNumber(408) <==> code == Some(AbortedCode))
      && r["httpCode"] in {JsNumber(400), JsNumber(408)}
  {
  }

  /**
   * A response whose body is falsy, or is neither error-shaped nor a JSON Blob,
   * gives the default error: status text or "UNKNOWN_ERROR", status or 400,
   * and the generic message.
   */
  lemma PlainBodyFallback(response: Response)
    requires !Truthy(response.data) || (!IsJsonBlob(response.data) && !IsError(response.data))
    ensures var r := ErrorWrapper(HttpFailure(response));
      && r.Keys == {"code", "httpCode", "message", "error"}
      && r["code"] == JsString(if response.statusText != "" then response.statusText else UnknownErrorCode)
      && r["httpCode"] == JsNumber(if response.status != 0 then response.status else 400)
      && r["message"] == JsString(DefaultErrorMessage)
  {
  }

  /**
   * A JSON Blob whose reading or parsing fails gives the default code and
   * status with the failure's own message.
   */
  lemma DecodeFailureMessage(response: Response, message: JsValue)
    requires IsJsonBlob(response.data) && response.data.read == ReadFailed(message)
    ensures ErrorWrapper(HttpFailure(response)) == ResponseFallback(response, message)
    ensures ErrorWrapper(HttpFailure(response))["message"] == message
  {
  }

  /**
   * A JSON Blob that parses to a value that is not error-shaped gives the
   * default error: the parsed value is discarded.
   */
  lemma DecodedPlainBody(response: Response, value: JsValue)
    requires IsJsonBlob(response.data) && response.data.read == Parsed(value) && !IsError(value)
    ensures ErrorWrapper(HttpFailure(response)) == ResponseFallback(response, JsString(DefaultErrorMessage))
  {
  }

  /**
   * An error-shaped body, given directly or parsed from a JSON Blob, is passed
   * through with all its other fields (such as `uuid`); `error` is forced to
   * true and `httpCode` is the raw status, with no fallback for status 0.
   */
  lemma ServerManagedError(response: Response)
    requires IsError(DecodedBody(response.data))
    ensures var body := DecodedBody(response.data).fields;
      var r := ErrorWrapper(HttpFailure(response));
      && r.Keys == body.Keys + {"error", "httpCode"}
      && r["error"] == JsBool(true)
      && r["httpCode"] == JsNumber(response.status)
      && forall k :: k in body && k != "error" && k != "httpCode" ==> r[k] == body[k]
  {
    assert Truthy(response.data);
  }

  /**
   * A body that is not a JSON Blob is never decoded: an error-shaped Blob of
   * another type is not looked into, and the default error results.
   */
  lemma OnlyJsonBlobsDecoded(response: Response)
    requires response.data.JsBlob? && !IsJsonBlob(response.data)
    ensures ErrorWrapper(HttpFailure(response)) == ResponseFallback(response, JsString(DefaultErrorMessage))
  {
  }

  /**
   * Every normalised error passes the `isError` guard again, except when a JSON
   * Blob failed to decode with a falsy message.
   */
  lemma NormalizedPassesGuard(failure: RawFailure)
    ensures IsError(JsObject(ErrorWrapper(failure))) <==> !DecodeFailedSilently(failure)
  {
    var r := ErrorWrapper(failure);
    match failure
    case TransportFailure(code) =>
      TransportFailureNormalized(code);
    case HttpFailure(response) =>
      var data := response.data;
      if Truthy(data) && IsError(DecodedBody(data)) {
        ServerManagedError(response);
        var body := DecodedBody(data).fields;
        assert r["message"] == body["message"] && r["code"] == body["code"];
      }
  }

  /**
   * A worked example: a JSON Blob holding
   * `{code: "X", message: "Y"}` yields exactly that error with the status.
   */
  lemma JsonBlobExample(status: int)
    ensures var body := JsObject(map["code" := JsString("X"), "message" := JsString("Y")]);
      ErrorWrapper(HttpFailure(Response(status, "Bad Request", JsBlob("application/json", Parsed(body)))))
        == map["code" := JsString("X"), "message" := JsString("Y"),
               "error" := JsBool(true), "httpCode" := JsNumber(status)]
  {
    var body := JsObject(map["code" := JsString("X"), "message" := JsString("Y")]);
    var data := JsBlob("application/json", Parsed(body));
    ApplicationJsonIsJsonBlob(Parsed(body));
    assert DecodedBody(data) == body;
    ServerManagedError(Response(status, "Bad Request", data));
  }

  /** A Blob of type "application/json" is read and parsed, whatever its content. */
  lemma ApplicationJsonIsJsonBlob(read: BlobRead)
    ensures IsJsonBlob(JsBlob("application/json", read))
  {
    var lower := ToLower("application/json");
    assert lower[12..16] == "json" by {
      assert lower[12] == 'j' && lower[13] == 's' && lower[14] == 'o' && lower[15] == 'n';
    }
    assert OccursAt(lower, "json", 12);
  }
}
