/**
 * The repository's builder and client test scenarios, restated over the model with the
 * test's literals generalised to arbitrary names and values.
 */
module Scenarios {
  import opened Wrappers
  import opened Types
  import opened Foundation
  import opened Fields
  import opened Client
  import opened Builder

  /** The base components the GitHub test client configures. */
  const GitHubBase: URLComponents := URLComponents(Some("https"), Some("api.github.com"), "", None)

  lemma GitHubSerialize(path: string, query: Option<seq<QueryItem>>)
    ensures Serialize(GitHubBase.(path := path, queryItems := query))
            == "https://api.github.com" + path + (if query.Some? then "?" + QueryString(query.value) else "")
  {
  }

  /** No fields: the template becomes the path, there is no query and no body. */
  lemma NoFieldsURL(m: HTTPMethod, path: string, encoder: Encoder)
    requires path == "" || path[0] == '/'
    ensures var r := Build(Descriptor(m, path, []), {}, GitHubBase, encoder);
            r.Ok? && r.value.url == Some(URL("https://api.github.com" + path, RelativePath(path)))
            && r.value.httpMethod == Some(RawValue(m)) && r.value.httpBody.None? && r.value.headers == {}
  {
    GitHubSerialize(path, None);
    assert "https://api.github.com" + path + "" == "https://api.github.com" + path;
  }

  /** One query argument: `?name=value` after the path. */
  lemma SingleQueryItemURL(path: string, name: string, value: string, encoder: Encoder)
    requires path == "" || path[0] == '/'
    ensures var r := Build(Descriptor(Get, path, [QueryArgument(name, value)]), {}, GitHubBase, encoder);
            r.Ok? && r.value.url.Some?
            && r.value.url.value.absoluteString == "https://api.github.com" + path + "?" + name + "=" + value
  {
    var item := QueryItem(name, value);
    var desc := Descriptor(Get, path, [QueryArgument(name, value)]);
    var start := Draft(path, {}, [], None);
    ApplyFieldsAppend(start, [], desc.fields, encoder);
    assert [] + desc.fields == desc.fields && [] + [item] == [item];
    assert ApplyFields(start, desc.fields, encoder) == Ok(start.(queryItems := [item]));
    GitHubSerialize(path, Some([item]));
  }

  /** Two query arguments: both items, in declaration order, joined by `&`. */
  lemma TwoQueryItemsURL(path: string, name1: string, value1: string, name2: string, value2: string, encoder: Encoder)
    requires path == "" || path[0] == '/'
    ensures var r := Build(Descriptor(Get, path, [QueryArgument(name1, value1), QueryArgument(name2, value2)]),
                           {}, GitHubBase, encoder);
            r.Ok? && r.value.url.Some?
            && r.value.url.value.absoluteString
               == "https://api.github.com" + path + "?" + name1 + "=" + value1 + "&" + name2 + "=" + value2
  {
    var item1, item2 := QueryItem(name1, value1), QueryItem(name2, value2);
    var f1, f2 := QueryArgument(name1, value1), QueryArgument(name2, value2);
    var start := Draft(path, {}, [], None);
    ApplyFieldsAppend(start, [], [f1], encoder);
    assert [] + [f1] == [f1] && [] + [item1] == [item1];
    assert ApplyFields(start, [f1], encoder) == Ok(start.(queryItems := [item1]));
    ApplyFieldsAppend(start, [f1], [f2], encoder);
    assert [f1] + [f2] == [f1, f2] && [f2][..0] == [] && [item1] + [item2] == [item1, item2];
    var d1 := start.(queryItems := [item1]);
    assert ApplyFields(d1, [f2], encoder) == Ok(d1.(queryItems := [item1, item2]));
    assert ApplyFields(start, [f1, f2], encoder) == Ok(start.(queryItems := [item1, item2]));
    assert [item1, item2][1..] == [item2];
    GitHubSerialize(path, Some([item1, item2]));
  }

  /**
   * A path argument whose token appears once in the template, with no other `{` around
   * it, is substituted there and nowhere else.
   */
  lemma PathArgumentURL(prefix: string, name: string, suffix: string, value: string, encoder: Encoder)
    requires prefix != [] && prefix[0] == '/'
    requires forall i :: 0 <= i < |prefix| ==> prefix[i] != '{'
    requires forall i :: 0 <= i < |suffix| ==> suffix[i] != '{'
    ensures var r := Build(Descriptor(Get, prefix + Token(name) + suffix, [PathArgument(name, value)]), {}, GitHubBase, encoder);
            r.Ok? && r.value.url.Some?
            && r.value.url.value.absoluteString == "https://api.github.com" + prefix + value + suffix
  {
    var token := Token(name);
    var template := prefix + token + suffix;
    forall i | 0 <= i < |prefix| ensures !OccursAt(template, token, i) {
      assert template[i..i + |token|][0] == template[i] == prefix[i];
    }
    ReplacingLeftmost(prefix, token, suffix, value);
    assert !Occurs(suffix, token);
    ReplacingAbsent(suffix, token, value);
    var path := prefix + value + suffix;
    assert ReplacingOccurrences(template, token, value) == path;
    assert UpdatePath(template, name, value) == path;
    var desc := Descriptor(Get, template, [PathArgument(name, value)]);
    var start := Draft(template, {}, [], None);
    ApplyFieldsAppend(start, [], desc.fields, encoder);
    assert [] + desc.fields == desc.fields;
    assert ApplyFields(start, desc.fields, encoder) == Ok(start.(path := path));
    assert path[0] == '/';
    GitHubSerialize(path, None);
    assert "https://api.github.com" + path == "https://api.github.com" + prefix + value + suffix;
  }

  /** `GitHubAPI.build`'s configuration closure: https and the GitHub host. */
  function GitHubSetup(c: URLComponents): (r: URLComponents)
    ensures c == EmptyComponents ==> r == GitHubBase
  {
    c.(scheme := Some("https"), host := Some("api.github.com"))
  }

  /** A GET descriptor whose one field is a request header, built over the GitHub base. */
  lemma HeaderOnlyBuild(path: string, name: string, value: string, ambient: set<Header>, encoder: Encoder)
    requires path == "" || path[0] == '/'
    ensures var r := Build(Descriptor(Get, path, [RequestHeader(name, value)]), ambient, GitHubBase, encoder);
            r.Ok? && r.value.headers == ambient + {Header(name, value)}
            && r.value.httpMethod == Some(RawValue(Get)) && r.value.httpBody.None?
            && r.value.url.Some? && r.value.url.value.absoluteString == "https://api.github.com" + path
  {
    var f := RequestHeader(name, value);
    var start := Draft(path, ambient, [], None);
    ApplyFieldsAppend(start, [], [f], encoder);
    assert [] + [f] == [f];
    assert ApplyFields(start, [f], encoder) == Ok(start.(headers := ambient + {Header(name, value)}));
    GitHubSerialize(path, None);
    assert "https://api.github.com" + path + "" == "https://api.github.com" + path;
  }

  /**
   * The test client with one header added builds the header-only GET request: it
   * succeeds, and its headers are exactly the added one and the descriptor's own,
   * with no body and the GitHub URL of the template.
   */
  method AddedHeaderReachesRequest(jsonEncoder: Encoder, invoker: Invoker, added: Header, name: string, value: string)
    returns (r: Result<URLRequest, Error>)
    ensures r.Ok? && r.value.headers == {added, Header(name, value)}
    ensures r.value.httpMethod == Some("get") && r.value.httpBody.None?
    ensures r.value.url.Some? && r.value.url.value.absoluteString == "https://api.github.com" + "/api/v1/getRequestExample"
  {
    var api := new API(GitHubSetup, jsonEncoder, invoker);
    api.AddHeader(added);
    var desc := Descriptor(Get, "/api/v1/getRequestExample", [RequestHeader(name, value)]);
    r := UrlRequest(desc, api);
    assert api.baseURLComponents == GitHubBase;
    assert api.headersBuilder() + api.persistentHeaders == {added};
    assert r == Build(desc, {added}, GitHubBase, jsonEncoder);
    HeaderOnlyBuild(desc.path, name, value, {added}, jsonEncoder);
    assert {added} + {Header(name, value)} == {added, Header(name, value)};
  }
}
