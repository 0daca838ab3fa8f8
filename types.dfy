/** The value types shared by the client: HTTP methods, headers, responses and errors. */
module Types {
  import opened Wrappers

  newtype byte = x: int | 0 <= x < 256

  /** Foundation's `Data`. */
  type Bytes = seq<byte>

  /** `HTTPMethod`, a `String` raw-value enum whose cases are lower-case. */
  datatype HTTPMethod = Delete | Get | Post | Put

  function RawValue(m: HTTPMethod): (r: string)
    ensures |r| > 0 && forall i :: 0 <= i < |r| ==> 'a' <= r[i] <= 'z'
  {
    match m
    case Delete => "delete"
    case Get => "get"
    case Post => "post"
    case Put => "put"
  }

  /** The failable `HTTPMethod(rawValue:)` initialiser Swift derives for a raw-value enum. */
  function MethodFromRawValue(s: string): (r: Option<HTTPMethod>)
    ensures r.Some? ==> RawValue(r.value) == s
    ensures r.None? <==> s !in {"delete", "get", "post", "put"}
  {
    if s == "delete" then Some(Delete)
    else if s == "get" then Some(Get)
    else if s == "post" then Some(Post)
    else if s == "put" then Some(Put)
    else None
  }

  /** The raw value determines the case: decoding an encoded method gives it back. */
  lemma MethodRawValueRoundTrip(m: HTTPMethod)
    ensures MethodFromRawValue(RawValue(m)) == Some(m)
    ensures RawValue(m) in {"delete", "get", "post", "put"}
  {
  }

  /** Two methods have the same raw value only if they are the same method. */
  lemma RawValueInjective(m1: HTTPMethod, m2: HTTPMethod)
    ensures RawValue(m1) == RawValue(m2) ==> m1 == m2
  {
  }

  /** `HTTPResponse`: a status code and the response bytes, stored as given. */
  datatype HTTPResponse = HTTPResponse(statusCode: int, data: Bytes)

  /** `Header`: `Hashable` compares both the name and the value, as datatype equality does. */
  datatype Header = Header(name: string, value: string)

  /** `Header.ContentType`, a `String` raw-value enum. */
  datatype ContentType = Image | Json | Text

  /** A MIME type: a type and a subtype on either side of a '/'. */
  function ContentTypeRawValue(c: ContentType): (r: string)
    ensures exists i :: 0 < i < |r| - 1 && r[i] == '/'
  {
    match c
    case Image => assert "image/jpeg"[5] == '/'; "image/jpeg"
    case Json => assert "application/json"[11] == '/'; "application/json"
    case Text => assert "text/plain"[4] == '/'; "text/plain"
  }

  function ContentTypeFromRawValue(s: string): (r: Option<ContentType>)
    ensures r.Some? ==> ContentTypeRawValue(r.value) == s
    ensures r.None? <==> s !in {"image/jpeg", "application/json", "text/plain"}
  {
    if s == "image/jpeg" then Some(Image)
    else if s == "application/json" then Some(Json)
    else if s == "text/plain" then Some(Text)
    else None
  }

  lemma ContentTypeRawValueRoundTrip(c: ContentType)
    ensures ContentTypeFromRawValue(ContentTypeRawValue(c)) == Some(c)
  {
  }

  /** `Header.contentType(_:)`. */
  function ContentTypeHeader(c: ContentType): (h: Header)
    ensures h.name == "Content-Type"
    ensures ContentTypeFromRawValue(h.value) == Some(c)
  {
    ContentTypeRawValueRoundTrip(c);
    Header("Content-Type", ContentTypeRawValue(c))
  }

  /**
   * The errors that reach the caller. `UnableToBuildFinalURL` is the builder's own
   * error; every other error (thrown by the encoder, the invoker, a middleware or the
   * decoder) is opaque to the core and is carried as its `String(reflecting:)` text.
   */
  datatype Error = UnableToBuildFinalURL | Thrown(description: string)

  /** `String(reflecting: error)`. */
  function Reflecting(e: Error): string
  {
    match e
    case UnableToBuildFinalURL => "Spyder.URLRequestBuildingError.unableToBuildFinalURL"
    case Thrown(d) => d
  }
}
