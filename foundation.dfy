/**
 * The parts of Foundation's URL types that the client relies on: `URLComponents`,
 * `URLQueryItem`, `URL` and `URLRequest`, reduced to plain values.
 */
module Foundation {
  import opened Wrappers
  import opened Types

  /** `URLQueryItem` as the client creates it: the value is always present. */
  datatype QueryItem = QueryItem(name: string, value: string)

  /** The `URLComponents` fields the client sets or reads. */
  datatype URLComponents = URLComponents(
    scheme: Option<string>,
    host: Option<string>,
    path: string,
    queryItems: Option<seq<QueryItem>>)

  /** `URLComponents()`: every component absent, empty path. */
  const EmptyComponents: URLComponents := URLComponents(None, None, "", None)

  /** A formed `URL`: its textual form and its path (`relativePath`). */
  datatype URL = URL(absoluteString: string, relativePath: string)

  /**
   * `URLRequest`. Headers are kept as the set they were built from; the dictionary
   * `setValue(_:forHTTPHeaderField:)` derives from it is not part of this model.
   */
  datatype URLRequest = URLRequest(
    url: Option<URL>,
    httpMethod: Option<string>,
    httpBody: Option<Bytes>,
    headers: set<Header>)

  /**
   * The documented condition under which `URLComponents.url` is nil: with an authority
   * (here: a host) a non-empty path must start with "/"; without one the path must not
   * start with "//".
   */
  predicate FormsURL(c: URLComponents)
  {
    if c.host.Some? then c.path == "" || c.path[0] == '/'
    else !(|c.path| >= 2 && c.path[..2] == "//")
  }

  /** `name=value` pairs joined by `&`, without percent-encoding. */
  function QueryString(items: seq<QueryItem>): string
    decreases |items|
  {
    if items == [] then ""
    else if |items| == 1 then items[0].name + "=" + items[0].value
    else items[0].name + "=" + items[0].value + "&" + QueryString(items[1..])
  }

  /** `scheme://host` + path + `?query` when query items are present. */
  function Serialize(c: URLComponents): string
  {
    (if c.scheme.Some? then c.scheme.value + ":" else "")
    + (if c.host.Some? then "//" + c.host.value else "")
    + c.path
    + (if c.queryItems.Some? then "?" + QueryString(c.queryItems.value) else "")
  }

  /**
   * `URL.relativePath`, the URL's file-system path: the path with one trailing "/"
   * dropped, except when the path is "/" itself.
   */
  function RelativePath(path: string): (r: string)
    ensures r <= path && |path| - |r| <= 1
    ensures |r| < |path| <==> |path| > 1 && path[|path| - 1] == '/'
  {
    if |path| > 1 && path[|path| - 1] == '/' then path[..|path| - 1] else path
  }

  /** `URLComponents.url`. */
  function ComponentsURL(c: URLComponents): (r: Option<URL>)
    ensures r.Some? <==> FormsURL(c)
    ensures r.Some? ==> r.value.relativePath == RelativePath(c.path)
  {
    if FormsURL(c) then Some(URL(Serialize(c), RelativePath(c.path))) else None
  }

  /** ASCII upper-casing, enough for method names. */
  function UpperChar(c: char): char
  {
    if 'a' <= c <= 'z' then (c as int - 32) as char else c
  }

  function Uppercased(s: string): (r: string)
    ensures |r| == |s|
  {
    seq(|s|, i requires 0 <= i < |s| => UpperChar(s[i]))
  }
}
