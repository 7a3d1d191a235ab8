/**
 * JavaScript values as the client code sees them: the primitives it tests for
 * truthiness, plain objects it reads and spreads, Blobs whose content is read
 * and parsed, and functions stored in request configurations.
 */
module Json {

  /** A JavaScript value. Numbers are integers: NaN and fractions are not modelled. */
  datatype JsValue =
    | JsUndefined
    | JsNull
    | JsBool(b: bool)
    | JsNumber(n: int)
    | JsString(s: string)
    | JsObject(fields: map<string, JsValue>)
      /** A Blob with its declared MIME type and what reading and parsing its content yields. */
    | JsBlob(mimeType: string, read: BlobRead)
      /** A function that ignores its arguments and returns `result`. */
    | JsConstFunction(result: JsValue)

  /**
   * Outcome of reading a Blob as text and passing the text to JSON.parse. A
   * failure carries the `message` property of what was thrown, which is
   * `undefined` when that is not an Error (a FileReader error event, say).
   */
  datatype BlobRead = Parsed(value: JsValue) | ReadFailed(message: JsValue)

  /** JavaScript's `Boolean(v)`. */
  predicate Truthy(v: JsValue) {
    match v
    case JsUndefined => false
    case JsNull => false
    case JsBool(b) => b
    case JsNumber(n) => n != 0
    case JsString(s) => s != ""
    case _ => true
  }

  /** Reading property `key` of an object given by its own properties. */
  function Get(m: map<string, JsValue>, key: string): JsValue {
    if key in m then m[key] else JsUndefined
  }

  /** Reading `v[key]`: only plain objects carry the properties the client reads. */
  function Field(v: JsValue, key: string): JsValue {
    if v.JsObject? then Get(v.fields, key) else JsUndefined
  }

  /** The properties `{...v}` copies. */
  function Spread(v: JsValue): map<string, JsValue> {
    if v.JsObject? then v.fields else map[]
  }

  /** The decimal digits of a natural number. */
  function Decimal(n: nat): (r: string)
    ensures |r| >= 1
    ensures forall i :: 0 <= i < |r| ==> '0' <= r[i] <= '9'
  {
    if n < 10 then ["0123456789"[n]] else Decimal(n / 10) + ["0123456789"[n % 10]]
  }

  /** JavaScript's `String(v)`. */
  function ToJsString(v: JsValue): string {
    match v
    case JsUndefined => "undefined"
    case JsNull => "null"
    case JsBool(b) => if b then "true" else "false"
    case JsNumber(n) => if n < 0 then "-" + Decimal(-n) else Decimal(n)
    case JsString(s) => s
    case JsObject(_) => "[object Object]"
    case JsBlob(_, _) => "[object Blob]"
    case JsConstFunction(_) => "function () { [native code] }"
  }
}
