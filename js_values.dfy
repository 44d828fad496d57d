/** Values as the session code sees them, with JavaScript's notion of truthiness
    made explicit wherever the code tests a value with `if (x)` or `x || y`. */
module JsValues {

  /** A value that may be null or undefined. */
  datatype Option<+T> = None | Some(value: T)

  /** The data handed to a socket write: null/undefined, a string, or a Buffer. */
  datatype Payload = Missing | Text(text: string) | Bytes(bytes: seq<bv8>)

  /** JavaScript truthiness of a payload. An empty string and null/undefined are
      falsy; a Buffer is an object, so it is truthy even when it is empty. */
  predicate IsTruthy(p: Payload)
  {
    match p
    case Missing => false
    case Text(s) => s != ""
    case Bytes(_) => true
  }

  /** Truthiness of a user name: null, undefined and the empty string are falsy. */
  predicate IsTruthyName(name: Option<string>)
  {
    name.Some? && name.value != ""
  }

  /** A PEM key/certificate pair for the client-facing TLS endpoint. `DefaultKeys`
      stands for the library-wide default pair, whose contents are not modelled. */
  datatype KeyPair = DefaultKeys | Pem(key: string, cert: string)

  /** `KEYS = KEYS || DEFAULT_KEYS`: an object argument is always truthy, so the
      default is used exactly when no pair is given. */
  function EffectiveKeys(keys: Option<KeyPair>): (r: KeyPair)
    ensures keys.Some? ==> r == keys.value
    ensures keys.None? ==> r == DefaultKeys
  {
    match keys
    case Some(k) => k
    case None => DefaultKeys
  }
}
