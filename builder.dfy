/**
 * `URLRequestBuilder.urlRequest(for:)`: walks a descriptor's stored properties in
 * declaration order, collecting headers, path substitutions, query items and a body,
 * then assembles the request.
 */
module Builder {
  import opened Wrappers
  import opened Types
  import opened Foundation
  import opened Fields
  import opened Client

  // ---------------------------------------------------------------------------
  // Path substitution
  // ---------------------------------------------------------------------------

  /** The token a path argument named `name` stands for in a template: `{name}`. */
  function Token(name: string): (t: string)
    ensures |t| == |name| + 2 && t[0] == '{' && t[|t| - 1] == '}'
    ensures t[1..|t| - 1] == name
  {
    "{" + name + "}"
  }

  predicate OccursAt(s: string, target: string, i: int)
  {
    0 <= i && i + |target| <= |s| && s[i..i + |target|] == target
  }

  predicate Occurs(s: string, target: string)
  {
    exists i :: 0 <= i <= |s| && OccursAt(s, target, i)
  }

  /**
   * `String.replacingOccurrences(of:with:)`: scans left to right and replaces each
   * non-overlapping occurrence of `target`; text produced by a replacement is not
   * scanned again.
   */
  function ReplacingOccurrences(s: string, target: string, replacement: string): (r: string)
    ensures replacement == target ==> r == s
    ensures |replacement| == |target| ==> |r| == |s|
    decreases |s|
  {
    if target == [] || |s| < |target| then s
    else if s[..|target|] == target then replacement + ReplacingOccurrences(s[|target|..], target, replacement)
    else [s[0]] + ReplacingOccurrences(s[1..], target, replacement)
  }

  /** A string in which `target` does not occur is left unchanged. */
  lemma {:induction false} ReplacingAbsent(s: string, target: string, replacement: string)
    ensures !Occurs(s, target) ==> ReplacingOccurrences(s, target, replacement) == s
    decreases |s|
  {
    if !Occurs(s, target) && target != [] && |s| >= |target| {
      assert !OccursAt(s, target, 0);
      assert s[..|target|] != target;
      forall i | OccursAt(s[1..], target, i) ensures false {
        assert s[1..][i..i + |target|] == s[i + 1..i + 1 + |target|];
        assert OccursAt(s, target, i + 1);
      }
      ReplacingAbsent(s[1..], target, replacement);
    }
  }

  /**
   * The scan replaces the leftmost occurrence first: when `target` starts nowhere inside
   * `prefix`, the text before that occurrence is kept and the rest is scanned afresh.
   */
  lemma {:induction false} ReplacingLeftmost(prefix: string, target: string, suffix: string, replacement: string)
    requires target != []
    requires forall i :: 0 <= i < |prefix| ==> !OccursAt(prefix + target + suffix, target, i)
    ensures ReplacingOccurrences(prefix + target + suffix, target, replacement)
            == prefix + replacement + ReplacingOccurrences(suffix, target, replacement)
    decreases |prefix|
  {
    var s := prefix + target + suffix;
    if prefix == [] {
      assert s == target + suffix;
      assert s[..|target|] == target;
      assert s[|target|..] == suffix;
    } else {
      assert !OccursAt(s, target, 0);
      assert s[..|target|] != target;
      assert s[1..] == prefix[1..] + target + suffix;
      forall i | 0 <= i < |prefix[1..]| ensures !OccursAt(prefix[1..] + target + suffix, target, i) {
        assert !OccursAt(s, target, i + 1);
        assert s[1..][i..i + |target|] == s[i + 1..i + 1 + |target|];
      }
      assert ReplacingOccurrences(s, target, replacement) == [s[0]] + ReplacingOccurrences(s[1..], target, replacement);
      ReplacingLeftmost(prefix[1..], target, suffix, replacement);
      assert [prefix[0]] + prefix[1..] == prefix;
    }
  }

  // ---------------------------------------------------------------------------
  // One field at a time: the helpers of the loop
  // ---------------------------------------------------------------------------

  /** `updatePath(from:argument:)`. */
  function UpdatePath(path: string, name: string, value: string): (r: string)
    ensures !Occurs(path, Token(name)) ==> r == path
  {
    ReplacingAbsent(path, Token(name), value);
    ReplacingOccurrences(path, Token(name), value)
  }

  /** `updateQueryItems(_:argument:)` for an `OptionalQueryArgument`. */
  function UpdateOptionalQueryItems(queryItems: seq<QueryItem>, name: string, value: Option<string>): (r: seq<QueryItem>)
    ensures queryItems <= r && |r| == |queryItems| + (if value.Some? then 1 else 0)
    ensures value.Some? ==> r[|queryItems|] == QueryItem(name, value.value)
  {
    if value.Some? then queryItems + [QueryItem(name, value.value)] else queryItems
  }

  /** The loop's variables: `evaluatedPath`, `headers`, `queryItems`, `httpBody`. */
  datatype Draft = Draft(path: string, headers: set<Header>, queryItems: seq<QueryItem>, httpBody: Option<Bytes>)

  /** One iteration of the loop over `mirror.children`. */
  function ApplyField(d: Draft, f: Field, encoder: Encoder): (r: Result<Draft, Error>)
    ensures r.Err? <==> f.Body? && encoder(f.bodyValue).Err?
    ensures r.Err? ==> encoder(f.bodyValue) == Err(r.error)
    ensures r.Ok? ==> d.headers <= r.value.headers && d.queryItems <= r.value.queryItems
    ensures r.Ok? && !f.PathArgument? ==> r.value.path == d.path
    ensures r.Ok? && !f.Body? ==> r.value.httpBody == d.httpBody
  {
    match f
    case RequestHeader(name, value) => Ok(d.(headers := d.headers + {Header(name, value)}))
    case PathArgument(name, value) => Ok(d.(path := UpdatePath(d.path, name, value)))
    case QueryArgument(name, value) => Ok(d.(queryItems := d.queryItems + [QueryItem(name, value)]))
    case OptionalQueryArgument(name, value) => Ok(d.(queryItems := UpdateOptionalQueryItems(d.queryItems, name, value)))
    case Body(value) =>
      (match encoder(value)
       case Ok(bytes) => Ok(d.(httpBody := Some(bytes)))
       case Err(e) => Err(e))
    case Plain => Ok(d)
  }

  /** The loop over the first `|fields|` stored properties; the first thrown error ends it. */
  function ApplyFields(d: Draft, fields: seq<Field>, encoder: Encoder): (r: Result<Draft, Error>)
    ensures r.Ok? ==> d.headers <= r.value.headers && d.queryItems <= r.value.queryItems
    ensures r.Err? ==> exists i :: 0 <= i < |fields| && fields[i].Body? && encoder(fields[i].bodyValue) == Err(r.error)
    decreases |fields|
  {
    if fields == [] then Ok(d)
    else match ApplyFields(d, fields[..|fields| - 1], encoder)
      case Err(e) =>
        assert forall i :: 0 <= i < |fields| - 1 ==> fields[..|fields| - 1][i] == fields[i];
        Err(e)
      case Ok(d') => ApplyField(d', fields[|fields| - 1], encoder)
  }

  /** `components.path = evaluatedPath`, and the query items only when some were collected. */
  function FinalComponents(base: URLComponents, d: Draft): URLComponents
  {
    base.(path := d.path, queryItems := if d.queryItems == [] then base.queryItems else Some(d.queryItems))
  }

  /** Everything after the loop. */
  function Assemble(base: URLComponents, m: HTTPMethod, d: Draft): Result<URLRequest, Error>
  {
    match ComponentsURL(FinalComponents(base, d))
    case None => Err(UnableToBuildFinalURL)
    case Some(url) => Ok(URLRequest(Some(url), Some(RawValue(m)), d.httpBody, d.headers))
  }

  /** `urlRequest(for:)` as a function of the descriptor and the client's configuration. */
  function Build(desc: Descriptor, allHeaders: set<Header>, base: URLComponents, encoder: Encoder): (r: Result<URLRequest, Error>)
    ensures r.Ok? ==> allHeaders <= r.value.headers && r.value.url.Some?
    ensures r.Ok? ==> r.value.httpMethod == Some(RawValue(desc.httpMethod))
    ensures r.Err? ==> r.error == UnableToBuildFinalURL
                       || exists i :: 0 <= i < |desc.fields| && desc.fields[i].Body?
                                      && encoder(desc.fields[i].bodyValue) == Err(r.error)
  {
    match ApplyFields(Draft(desc.path, allHeaders, [], None), desc.fields, encoder)
    case Err(e) => Err(e)
    case Ok(d) => Assemble(base, desc.httpMethod, d)
  }

  // ---------------------------------------------------------------------------
  // What each kind of field contributes, defined on its own
  // ---------------------------------------------------------------------------

  /** The header every `RequestHeader` field inserts. */
  function FieldHeaders(fields: seq<Field>): set<Header>
  {
    set f | f in fields && f.RequestHeader? :: Header(f.name, f.wrappedValue)
  }

  /** The query items one field appends. */
  function FieldQueryItems(f: Field): seq<QueryItem>
  {
    match f
    case QueryArgument(name, value) => [QueryItem(name, value)]
    case OptionalQueryArgument(name, value) => if value.Some? then [QueryItem(name, value.value)] else []
    case _ => []
  }

  /** The query items of all fields, in declaration order. */
  function QueryItemsOf(fields: seq<Field>): seq<QueryItem>
    decreases |fields|
  {
    if fields == [] then [] else FieldQueryItems(fields[0]) + QueryItemsOf(fields[1..])
  }

  /** The number of fields that yield a query item. */
  function ItemCount(fields: seq<Field>): nat
    decreases |fields|
  {
    if fields == [] then 0
    else (if fields[0].QueryArgument? || (fields[0].OptionalQueryArgument? && fields[0].optionalValue.Some?) then 1 else 0)
         + ItemCount(fields[1..])
  }

  /** The template after each path argument, in order, has substituted its token. */
  function PathOf(template: string, fields: seq<Field>): string
    decreases |fields|
  {
    if fields == [] then template
    else PathOf(if fields[0].PathArgument? then ReplacingOccurrences(template, Token(fields[0].name), fields[0].wrappedValue)
                else template,
                fields[1..])
  }

  /** The value of the last `Body` field. */
  function LastBody(fields: seq<Field>): Option<Encodable>
    decreases |fields|
  {
    if fields == [] then None
    else if fields[|fields| - 1].Body? then Some(fields[|fields| - 1].bodyValue)
    else LastBody(fields[..|fields| - 1])
  }

  /** The error of the first `Body` field whose value the encoder refuses. */
  function FirstEncodingError(fields: seq<Field>, encoder: Encoder): Option<Error>
    decreases |fields|
  {
    if fields == [] then None
    else if fields[0].Body? && encoder(fields[0].bodyValue).Err? then Some(encoder(fields[0].bodyValue).error)
    else FirstEncodingError(fields[1..], encoder)
  }

  // ---------------------------------------------------------------------------
  // Lemmas on the loop
  // ---------------------------------------------------------------------------

  /** Running the loop over `a + b` is running it over `a`, then over `b` unless `a` threw. */
  lemma {:induction false} ApplyFieldsAppend(d: Draft, a: seq<Field>, b: seq<Field>, encoder: Encoder)
    ensures ApplyFields(d, a + b, encoder)
            == match ApplyFields(d, a, encoder)
               case Err(e) => Err(e)
               case Ok(d') => ApplyFields(d', b, encoder)
    decreases |b|
  {
    if b == [] {
      assert a + b == a;
    } else {
      var b' := b[..|b| - 1];
      assert (a + b)[..|a + b| - 1] == a + b';
      assert (a + b)[|a + b| - 1] == b[|b| - 1];
      ApplyFieldsAppend(d, a, b', encoder);
    }
  }

  /** A stored property that is none of the five wrappers is skipped. */
  lemma PlainFieldIgnored(desc: Descriptor, a: seq<Field>, b: seq<Field>, allHeaders: set<Header>, base: URLComponents, encoder: Encoder)
    requires desc.fields == a + [Plain] + b
    ensures Build(desc, allHeaders, base, encoder) == Build(desc.(fields := a + b), allHeaders, base, encoder)
  {
    var d := Draft(desc.path, allHeaders, [], None);
    ApplyFieldsAppend(d, a + [Plain], b, encoder);
    ApplyFieldsAppend(d, a, [Plain], encoder);
    ApplyFieldsAppend(d, a, b, encoder);
    assert [Plain][..0] == [];
  }

  lemma FieldHeadersSnoc(fields: seq<Field>, f: Field)
    ensures FieldHeaders(fields + [f]) == FieldHeaders(fields) + (if f.RequestHeader? then {Header(f.name, f.wrappedValue)} else {})
  {
  }

  lemma {:induction false} QueryItemsOfSnoc(fields: seq<Field>, f: Field)
    ensures QueryItemsOf(fields + [f]) == QueryItemsOf(fields) + FieldQueryItems(f)
    decreases |fields|
  {
    if fields == [] {
      assert [f][1..] == [];
    } else {
      assert (fields + [f])[1..] == fields[1..] + [f];
      QueryItemsOfSnoc(fields[1..], f);
    }
  }

  lemma {:induction false} PathOfSnoc(template: string, fields: seq<Field>, f: Field)
    ensures PathOf(template, fields + [f])
            == (var p := PathOf(template, fields);
                if f.PathArgument? then ReplacingOccurrences(p, Token(f.name), f.wrappedValue) else p)
    decreases |fields|
  {
    if fields == [] {
      assert [f][1..] == [];
    } else {
      assert (fields + [f])[1..] == fields[1..] + [f];
      var t := if fields[0].PathArgument? then ReplacingOccurrences(template, Token(fields[0].name), fields[0].wrappedValue)
               else template;
      PathOfSnoc(t, fields[1..], f);
    }
  }

  lemma {:induction false} FirstEncodingErrorSnoc(fields: seq<Field>, f: Field, encoder: Encoder)
    ensures FirstEncodingError(fields + [f], encoder)
            == if FirstEncodingError(fields, encoder).Some? then FirstEncodingError(fields, encoder)
               else if f.Body? && encoder(f.bodyValue).Err? then Some(encoder(f.bodyValue).error)
               else None
    decreases |fields|
  {
    if fields == [] {
      assert [f][1..] == [];
    } else {
      assert (fields + [f])[1..] == fields[1..] + [f];
      FirstEncodingErrorSnoc(fields[1..], f, encoder);
    }
  }

  /** The error half of `ApplyFieldsMeaning`. */
  lemma {:induction false} ApplyFieldsError(d: Draft, fields: seq<Field>, encoder: Encoder)
    ensures ApplyFields(d, fields, encoder).Err? <==> FirstEncodingError(fields, encoder).Some?
    ensures ApplyFields(d, fields, encoder).Err? ==> ApplyFields(d, fields, encoder).error == FirstEncodingError(fields, encoder).value
    decreases |fields|
  {
    if fields != [] {
      var init, f := fields[..|fields| - 1], fields[|fields| - 1];
      assert fields == init + [f];
      ApplyFieldsError(d, init, encoder);
      FirstEncodingErrorSnoc(init, f, encoder);
      match ApplyFields(d, init, encoder)
      case Err(e) =>
        assert ApplyFields(d, fields, encoder) == Err(e);
      case Ok(d') =>
        assert ApplyFields(d, fields, encoder) == ApplyField(d', f, encoder);
    }
  }

  /** What a successful loop over `fields`, started from `d`, has collected in `d'`. */
  predicate Collected(d: Draft, fields: seq<Field>, encoder: Encoder, d': Draft)
  {
    && d'.headers == d.headers + FieldHeaders(fields)
    && d'.queryItems == d.queryItems + QueryItemsOf(fields)
    && d'.path == PathOf(d.path, fields)
    && (LastBody(fields).None? ==> d'.httpBody == d.httpBody)
    && (LastBody(fields).Some? ==> d'.httpBody.Some? && encoder(LastBody(fields).value) == Ok(d'.httpBody.value))
  }

  /** One more field keeps `Collected`. */
  lemma CollectedStep(d: Draft, init: seq<Field>, f: Field, encoder: Encoder, d': Draft)
    requires Collected(d, init, encoder, d')
    requires ApplyField(d', f, encoder).Ok?
    ensures Collected(d, init + [f], encoder, ApplyField(d', f, encoder).value)
  {
    FieldHeadersSnoc(init, f);
    QueryItemsOfSnoc(init, f);
    PathOfSnoc(d.path, init, f);
    if f.Body? {
      assert LastBody(init + [f]) == Some(f.bodyValue);
    } else {
      assert LastBody(init + [f]) == LastBody(init);
    }
  }

  /** The success half of `ApplyFieldsMeaning`. */
  lemma {:induction false} ApplyFieldsResult(d: Draft, fields: seq<Field>, encoder: Encoder)
    ensures ApplyFields(d, fields, encoder).Ok? ==> Collected(d, fields, encoder, ApplyFields(d, fields, encoder).value)
    decreases |fields|
  {
    if fields == [] {
      assert FieldHeaders(fields) == {};
    } else {
      var init, f := fields[..|fields| - 1], fields[|fields| - 1];
      assert fields == init + [f];
      match ApplyFields(d, init, encoder)
      case Err(e) =>
        assert ApplyFields(d, fields, encoder) == Err(e);
      case Ok(d') =>
        assert ApplyFields(d, fields, encoder) == ApplyField(d', f, encoder);
        if ApplyField(d', f, encoder).Ok? {
          ApplyFieldsResult(d, init, encoder);
          CollectedStep(d, init, f, encoder, d');
        }
    }
  }

  /**
   * The loop, field kind by field kind: it throws exactly when some body fails to
   * encode, with the first such error; otherwise the headers gain every request header,
   * the query items gain every item in declaration order, the path receives every
   * substitution in order, and the body is the encoding of the last `Body` field.
   */
  lemma ApplyFieldsMeaning(d: Draft, fields: seq<Field>, encoder: Encoder)
    ensures ApplyFields(d, fields, encoder).Err? <==> FirstEncodingError(fields, encoder).Some?
    ensures ApplyFields(d, fields, encoder).Err? ==> ApplyFields(d, fields, encoder).error == FirstEncodingError(fields, encoder).value
    ensures ApplyFields(d, fields, encoder).Ok? ==>
              var d' := ApplyFields(d, fields, encoder).value;
              && d'.headers == d.headers + FieldHeaders(fields)
              && d'.queryItems == d.queryItems + QueryItemsOf(fields)
              && d'.path == PathOf(d.path, fields)
              && (LastBody(fields).None? ==> d'.httpBody == d.httpBody)
              && (LastBody(fields).Some? ==> d'.httpBody.Some? && encoder(LastBody(fields).value) == Ok(d'.httpBody.value))
  {
    ApplyFieldsError(d, fields, encoder);
    ApplyFieldsResult(d, fields, encoder);
  }

  // ---------------------------------------------------------------------------
  // Properties of the finished request
  // ---------------------------------------------------------------------------

  /**
   * The built request, in full: it fails exactly when a body fails to encode (first
   * such error) or when the components form no URL; otherwise its headers are the
   * ambient headers plus one per `RequestHeader` field, its method is the descriptor's,
   * its body the encoding of the last `Body` field, and its URL the base components with
   * the substituted path and, when any were collected, the query items.
   */
  lemma BuildMeaning(desc: Descriptor, allHeaders: set<Header>, base: URLComponents, encoder: Encoder)
    ensures var r := Build(desc, allHeaders, base, encoder);
            var items := QueryItemsOf(desc.fields);
            var c := base.(path := PathOf(desc.path, desc.fields),
                           queryItems := if items == [] then base.queryItems else Some(items));
            && (FirstEncodingError(desc.fields, encoder).Some? ==> r == Err(FirstEncodingError(desc.fields, encoder).value))
            && (FirstEncodingError(desc.fields, encoder).None? && !FormsURL(c) ==> r == Err(UnableToBuildFinalURL))
            && (FirstEncodingError(desc.fields, encoder).None? && FormsURL(c) ==>
                  && r.Ok?
                  && r.value.headers == allHeaders + FieldHeaders(desc.fields)
                  && r.value.httpMethod == Some(RawValue(desc.httpMethod))
                  && (LastBody(desc.fields).None? ==> r.value.httpBody.None?)
                  && (LastBody(desc.fields).Some? ==>
                        r.value.httpBody.Some? && encoder(LastBody(desc.fields).value) == Ok(r.value.httpBody.value))
                  && r.value.url == Some(URL(Serialize(c), RelativePath(c.path))))
  {
    var start := Draft(desc.path, allHeaders, [], None);
    ApplyFieldsMeaning(start, desc.fields, encoder);
    var a := ApplyFields(start, desc.fields, encoder);
    if a.Ok? {
      assert a.value.queryItems == QueryItemsOf(desc.fields);
    }
  }

  /** Each field kind's share of the query: one item per `QueryArgument`, one per present `OptionalQueryArgument`. */
  lemma {:induction false} QueryItemsCount(fields: seq<Field>)
    ensures |QueryItemsOf(fields)| == ItemCount(fields)
    decreases |fields|
  {
    if fields != [] {
      QueryItemsCount(fields[1..]);
    }
  }

  /** A descriptor without fields: the template as path, the base's own query, the ambient headers, no body. */
  lemma NoFieldsBuild(desc: Descriptor, allHeaders: set<Header>, base: URLComponents, encoder: Encoder)
    requires desc.fields == []
    requires FormsURL(base.(path := desc.path))
    ensures var r := Build(desc, allHeaders, base, encoder);
            && r.Ok?
            && r.value.headers == allHeaders
            && r.value.httpBody.None?
            && r.value.url == Some(URL(Serialize(base.(path := desc.path)), RelativePath(desc.path)))
  {
  }

  // ---------------------------------------------------------------------------
  // The builder itself
  // ---------------------------------------------------------------------------

  /** `urlRequest(for:)`. */
  method UrlRequest(desc: Descriptor, api: API) returns (r: Result<URLRequest, Error>)
    ensures r == Build(desc, api.headersBuilder() + api.persistentHeaders, api.baseURLComponents, api.jsonEncoder)
    ensures r.Ok? ==> api.persistentHeaders <= r.value.headers
  {
    ghost var ambient := api.headersBuilder() + api.persistentHeaders;
    ghost var start := Draft(desc.path, ambient, [], None);
    var evaluatedPath := desc.path;
    var headers := api.AllHeaders();
    var queryItems: seq<QueryItem> := [];
    var httpBody: Option<Bytes> := None;
    var i := 0;
    while i < |desc.fields|
      invariant 0 <= i <= |desc.fields|
      invariant ApplyFields(start, desc.fields[..i], api.jsonEncoder) == Ok(Draft(evaluatedPath, headers, queryItems, httpBody))
    {
      ghost var done := desc.fields[..i + 1];
      assert done[..|done| - 1] == desc.fields[..i];
      match desc.fields[i] {
      case RequestHeader(name, value) =>
        headers := headers + {Header(name, value)};
      case PathArgument(name, value) =>
        evaluatedPath := UpdatePath(evaluatedPath, name, value);
      case QueryArgument(name, value) =>
        queryItems := queryItems + [QueryItem(name, value)];
      case OptionalQueryArgument(name, value) =>
        queryItems := UpdateOptionalQueryItems(queryItems, name, value);
      case Body(value) =>
        var encoded := api.jsonEncoder(value);
        if encoded.Err? {
          ApplyFieldsAppend(start, done, desc.fields[i + 1..], api.jsonEncoder);
          assert done + desc.fields[i + 1..] == desc.fields;
          return Err(encoded.error);
        }
        httpBody := Some(encoded.value);
      case Plain =>
      }
      i := i + 1;
    }
    assert desc.fields[..i] == desc.fields;
    var components := api.baseURLComponents.(path := evaluatedPath);
    if queryItems != [] {
      components := components.(queryItems := Some(queryItems));
    }
    var url := ComponentsURL(components);
    if url.None? {
      return Err(UnableToBuildFinalURL);
    }
    r := Ok(URLRequest(url, Some(RawValue(desc.httpMethod)), httpBody, headers));
  }
}
