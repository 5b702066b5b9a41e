/** Values shared by the client-side state machines: optional values (TypeScript's
    `T | undefined`), the settled outcome of a gateway call, the shapes a `catch`
    clause can receive, JavaScript string truthiness and the URL scheme test. */
module Common {

  /** `T | undefined`. */
  datatype Option<+T> = None | Some(value: T)

  /** The settled outcome of an awaited gateway call: the promise resolved with a
      value, or it rejected with a thrown value. */
  datatype Reply<+T> = Resolved(value: T) | Rejected(error: Thrown)

  /** What a `catch` clause receives, as far as the error-message extraction can
      tell the cases apart. */
  datatype Thrown =
    | NotAnObject                          // undefined, null, a string, a number, ...
    | PlainObject                          // an object without an `error` key, e.g. `new Error(...)`
    | WithErrorField(detail: Option<string>) // an object with an `error` key; `detail` is `error?.detail`

  /** JavaScript truthiness of a `string | undefined`: neither undefined nor "". */
  predicate Truthy(s: Option<string>) {
    s.Some? && s.value != ""
  }

  predicate StartsWith(s: string, prefix: string) {
    |prefix| <= |s| && s[..|prefix|] == prefix
  }

  const Http: string := "http://"
  const Https: string := "https://"

  /** The regular expression `/^https?:\/\//`: the url starts with a lower-case
      "http://" or "https://". */
  predicate HasHttpScheme(url: string) {
    StartsWith(url, Http) || StartsWith(url, Https)
  }

  lemma PrefixedHasPrefix(prefix: string, rest: string)
    ensures StartsWith(prefix + rest, prefix)
  {
    assert (prefix + rest)[..|prefix|] == prefix;
  }

  /** `addHttps` of both redirect containers: keep an http(s) url, otherwise put
      "https://" in front of it. */
  function AddHttps(url: string): (r: string)
    ensures HasHttpScheme(r)
    ensures HasHttpScheme(url) ==> r == url
    ensures !HasHttpScheme(url) ==> r == Https + url
  {
    if HasHttpScheme(url) then url
    else
      PrefixedHasPrefix(Https, url);
      Https + url
  }

  /** Normalising twice is normalising once. */
  lemma AddHttpsIdempotent(url: string)
    ensures AddHttps(AddHttps(url)) == AddHttps(url)
  {
  }

  /** `${v}` of a `string | undefined`. */
  function Interpolate(v: Option<string>): string {
    match v
    case Some(s) => s
    case None => "undefined"
  }
}
