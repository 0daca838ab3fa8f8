# Spyder, modelled in Dafny

Spyder is a Swift HTTP client library. An endpoint is declared as a value type that
conforms to `URLRequestBuilder`: a static HTTP method, a static path template with
`{name}` tokens, and stored properties annotated with one of five property wrappers
(`@RequestHeader`, `@PathArgument`, `@QueryArgument`, `@OptionalQueryArgument`,
`@Body`). The `API` client turns such a value into a `URLRequest`, calls a pluggable
invoker, logs, runs response middlewares and decodes JSON. A separate `CacheManager`
keeps successful responses in memory under a time-based policy.

This project models that core and proves its properties:

- `types.dfy` (module `Types`): `HTTPMethod` with its lower-case raw values, `Header`
  (equality on name and value, as `Hashable` has it), `HTTPResponse` (status code and
  bytes, stored as given), `Header.ContentType` and `Header.contentType(_:)`, and the
  error values that can reach a caller.
- `foundation.dfy` (module `Foundation`): the Foundation values the core touches,
  `URLComponents`, `URLQueryItem`, `URL` and `URLRequest`, with URL formation written as
  `scheme://host` + path + `?name=value&...`, the documented condition under which
  `URLComponents.url` is nil, and `URL.relativePath` as the path without its trailing
  "/".
- `fields.dfy` (module `Fields`): the five wrappers as one `Field` datatype (plus
  `Plain` for a stored property without a wrapper) and a `Descriptor` that lists its
  stored properties explicitly, in declaration order, in place of `Mirror` reflection.
- `cache.dfy` (module `Cache`): `CachePolicy`, `Entry` and the `CacheManager` class,
  whose methods update the `entries` map in place; `Registered` and `Looked` state the
  same updates as functions, and the lemmas relate them.
- `client.dfy` (module `Client`): the `API` class. Its configuration fields are
  `const`; `persistentHeaders` is the one mutable field; `trace` records every call of
  the logger, in order.
- `builder.dfy` (module `Builder`): `urlRequest(for:)` as the method `UrlRequest`, whose
  loop over the fields is proved against the function `Build`; reference definitions of
  what each kind of field contributes (`FieldHeaders`, `QueryItemsOf`, `PathOf`,
  `LastBody`, `FirstEncodingError`) and lemmas tying `Build` to them. The source's
  private helpers appear as `UpdatePath`, `UpdateOptionalQueryItems` and the branches of
  `ApplyField`; `createBody` is a call of the client's encoder.
- `logging.dfy` (module `Logging`): the log messages and the complementary
  `path=[METHOD path] message=[...]` text, and the four logging methods, each appending
  exactly one event to the trace.
- `invoking.dfy` (module `Invoking`): `invokeAndForget` and `invokeWaitingResponse` as
  methods proved against the functions `Forget` and `Wait`, with lemmas on ordering,
  fail-fast propagation and the number of events logged.
- `scenarios.dfy` (module `Scenarios`): the builder's test cases, with the tests'
  literal names and values generalised.

Inputs the source reads from the environment are parameters: the current date for the
cache, the invoker, the encoder, the decoder, the header builder and the middlewares.

`API+Invoking.swift` neither consults `CacheManager` nor validates status codes:
`invalidStatusCodeInResponse` is declared in `API+Errors.swift` (line 3) but never
thrown, so the model's pipeline does neither. `allHeaders` is a plain set union with no
precedence between the builder's headers and the persistent ones. `API.swift`
declares neither `persistentHeaders` (read and written in `API+Public.swift`) nor a
cache policy (passed by the GitHub test fixture); the model's `API` class has a
mutable `persistentHeaders` set that starts empty, and no cache policy.

## Model

| member | source | states |
|---|---|---|
| Types.RawValue | Sources/Spyder/API+Types.swift:3-5 | a method's raw value is a non-empty lower-case ASCII name |
| Types.MethodFromRawValue | Sources/Spyder/API+Types.swift:3-5 | `HTTPMethod(rawValue:)` succeeds exactly on "delete", "get", "post", "put", and the found case has that raw value |
| Types.MethodRawValueRoundTrip | Sources/Spyder/API+Types.swift:3-5 | every method's raw value is one of the four lower-case names and reads back as the same method |
| Types.RawValueInjective | Sources/Spyder/API+Types.swift:3-5 | distinct methods have distinct raw values |
| Types.ContentTypeRawValue | Sources/Spyder/API+Types.swift:28-32 | each content type's raw value is a MIME type: a type and a subtype either side of a "/" |
| Types.ContentTypeFromRawValue | Sources/Spyder/API+Types.swift:28-32 | `ContentType(rawValue:)` succeeds exactly on "image/jpeg", "application/json", "text/plain" |
| Types.ContentTypeRawValueRoundTrip | Sources/Spyder/API+Types.swift:28-32 | image, json and text read back from their raw values |
| Types.ContentTypeHeader | Sources/Spyder/API+Types.swift:34-39 | `contentType(c)` is named "Content-Type" and its value is the raw value of `c` |
| Foundation.RelativePath | Sources/Spyder/API+Logging.swift:34 | `url.relativePath` is the path with at most one character dropped from its end, and one is dropped exactly when the path is longer than "/" and ends with "/" |
| Foundation.ComponentsURL | Sources/Spyder/Builders/URLRequestBuilder.swift:43-45 | components form a URL exactly when the path rule holds, and the URL's relative path is `RelativePath` of the components' path |
| Foundation.Uppercased | Sources/Spyder/API+Logging.swift:34 | upper-casing keeps the length |
| Fields.NewRequestHeader | Sources/Spyder/Builders/PropertyWrappers.swift:1-9 | a new `RequestHeader` keeps its name and holds "" |
| Fields.NewPathArgument | Sources/Spyder/Builders/PropertyWrappers.swift:11-19 | a new `PathArgument` keeps its name and holds "" |
| Fields.NewQueryArgument | Sources/Spyder/Builders/PropertyWrappers.swift:21-29 | a new `QueryArgument` keeps its name and holds "" |
| Fields.NewOptionalQueryArgument | Sources/Spyder/Builders/PropertyWrappers.swift:31-39 | a new `OptionalQueryArgument` keeps its name and holds no value |
| Fields.NewBody | Sources/Spyder/Builders/PropertyWrappers.swift:41-48 | a `Body` has no name and wraps exactly the given value |
| Cache.Registered | Sources/Spyder/API+Cache.swift:29-35 | under `.none` the entries are unchanged; under `.inMemory(d)` the request maps to the data expiring at storage date + d, overwriting, and no other key changes |
| Cache.Looked | Sources/Spyder/API+Cache.swift:39-51 | a lookup finds bytes exactly when the policy caches and the entry exists and expires after the comparison date; it removes exactly an expired entry and otherwise leaves the entries alone |
| Cache.RegisterThenFind | Sources/Spyder/API+Cache.swift:29-51 | data registered at t is found at t' if and only if the policy is `.inMemory(d)` and t' < t + d; never under `.none` |
| Cache.LookupLeavesNoExpiredEntry | Sources/Spyder/API+Cache.swift:46-48 | after a lookup, no expired entry remains for the looked-up request |
| Cache.LookupKeepsOtherKeys | Sources/Spyder/API+Cache.swift:43-50 | a lookup leaves every other key and its entry unchanged |
| Cache.LookupIdempotent | Sources/Spyder/API+Cache.swift:39-51 | a second lookup at the same date finds the same and changes nothing |
| Cache.CacheManager.constructor | Sources/Spyder/API+Cache.swift:15-18 | a new manager has the given policy and no entries |
| Cache.CacheManager.RegisterEntryIfNeeded | Sources/Spyder/API+Cache.swift:29-35 | the new entries are `Registered` of the old ones: unchanged under `.none`, the request overwritten under `.inMemory` |
| Cache.CacheManager.FindNonExpiredEntry | Sources/Spyder/API+Cache.swift:39-51 | result and new entries are `Looked` of the old entries: nothing under `.none` or for a missing key, nothing and that key removed when expired, the stored bytes and no change otherwise |
| Client.API.constructor | Sources/Spyder/API.swift:17-35 | the base components are the configuration closure applied to empty components; every other field is its argument; no persistent header and no log event yet |
| Client.API.AddHeader | Sources/Spyder/API+Public.swift:2-4 | the header joins `persistentHeaders` by set insertion; nothing else changes |
| Client.API.AllHeaders | Sources/Spyder/API+Public.swift:5-9 | the result is the builder's headers united with the persistent ones, so same-name headers with different values all survive; the persistent set is not changed |
| Client.DefaultAllHeaders | Sources/Spyder/API.swift:21 | for a client whose header builder is the default empty one, `allHeaders` returns exactly its persistent set |
| Client.DefaultClientHeaders | Sources/Spyder/API.swift:17-35 | a client made with the default header builder, after one `addHeader(h)`, sends exactly `{h}` |
| Client.AddHeaderTwice | Sources/Spyder/API+Public.swift:2-4 | adding the same header twice leaves the set as adding it once |
| Builder.Token | Sources/Spyder/Builders/URLRequestBuilder.swift:60 | a path argument's token is its name in braces: two characters longer, `{` first, `}` last, and the name between them |
| Builder.ReplacingOccurrences | Sources/Spyder/Builders/URLRequestBuilder.swift:60 | replacing a target with itself changes nothing, and a replacement of the target's length keeps the length |
| Builder.ReplacingAbsent | Sources/Spyder/Builders/URLRequestBuilder.swift:59-61 | a template without the token is left unchanged |
| Builder.ReplacingLeftmost | Sources/Spyder/Builders/URLRequestBuilder.swift:59-61 | the leftmost occurrence is replaced, the text before it kept, and the rest scanned again for further occurrences |
| Builder.UpdatePath | Sources/Spyder/Builders/URLRequestBuilder.swift:59-61 | a template in which the argument's `{name}` token does not occur is returned unchanged |
| Builder.UpdateOptionalQueryItems | Sources/Spyder/Builders/URLRequestBuilder.swift:65-69 | the items are kept and exactly one item, the name with the value, is appended when a value is present; none otherwise |
| Builder.ApplyField | Sources/Spyder/Builders/URLRequestBuilder.swift:23-36 | one property fails exactly when it is a body whose encoding fails, with the encoder's error; otherwise headers only grow, query items are only appended, only a path argument changes the path and only a body changes the body |
| Builder.ApplyFields | Sources/Spyder/Builders/URLRequestBuilder.swift:22-37 | a successful walk keeps every header and every query item it started with; a failed one fails with the encoding error of one of its body fields |
| Builder.ApplyFieldsAppend | Sources/Spyder/Builders/URLRequestBuilder.swift:22-37 | fields are processed in declaration order: the loop over `a + b` is the loop over `a` followed by the loop over `b`, and a thrown error stops it |
| Builder.PlainFieldIgnored | Sources/Spyder/Builders/URLRequestBuilder.swift:34-35 | a stored property with none of the five wrappers does not change the built request |
| Builder.ApplyFieldsMeaning | Sources/Spyder/Builders/URLRequestBuilder.swift:22-37 | the loop throws exactly the first body-encoding error; otherwise it adds one header per `RequestHeader`, the query items of all fields in order, every path substitution in order, and the last body's encoding |
| Builder.BuildMeaning | Sources/Spyder/Builders/URLRequestBuilder.swift:16-53 | the built request in full: the first encoding error, else `unableToBuildFinalURL` when no URL forms, else headers = ambient ∪ field headers, the descriptor's method raw value, the last body's encoding or none, and the URL of base + substituted path + query items when any were collected |
| Builder.Build | Sources/Spyder/Builders/URLRequestBuilder.swift:16-53 | a built request has a URL, the descriptor's method raw value and every ambient header; a failure is `unableToBuildFinalURL` or the encoding error of one of the body fields |
| Builder.QueryItemsCount | Sources/Spyder/Builders/URLRequestBuilder.swift:62-69 | one item per `QueryArgument` and one per `OptionalQueryArgument` holding a value, none otherwise |
| Builder.NoFieldsBuild | Sources/Spyder/Builders/URLRequestBuilder.swift:38-45 | with no fields: the ambient headers, no body, and the base URL with the template as path and no added query |
| Builder.UrlRequest | Sources/Spyder/Builders/URLRequestBuilder.swift:16-53 | the loop over the fields and the assembly return exactly `Build` of the descriptor and the client's current headers, and every persistent header is in the request |
| Logging.Decimal | Sources/Spyder/API+Logging.swift:8 | an `Int`'s interpolated text is non-empty, starts with "-" exactly for negative numbers and is digits otherwise |
| Logging.DecimalRoundTrip | Sources/Spyder/API+Logging.swift:8 | the status code's decimal text reads back as the status code |
| Logging.ResponseMessage | Sources/Spyder/API+Logging.swift:5-8 | the response message starts with ✅ if and only if 200 ≤ status ≤ 299, and with ❌ otherwise |
| Logging.ResponseMessageCode | Sources/Spyder/API+Logging.swift:8 | the response message ends with the status code in brackets, readable back |
| Logging.ResponseMessageInjective | Sources/Spyder/API+Logging.swift:8 | two responses logged with the same message have the same status code |
| Logging.Complementary | Sources/Spyder/API+Logging.swift:28-39 | the complementary text is empty exactly when the request has no URL, and otherwise starts with `path=[` |
| Logging.ComplementaryShape | Sources/Spyder/API+Logging.swift:28-39 | the complementary text is empty without a URL; with one, a message appends ` message=[...]` and nothing else; an unset method reads GET |
| Logging.UppercasedMethods | Sources/Spyder/API+Logging.swift:33-34 | the four methods are logged as GET, POST, PUT, DELETE |
| Logging.EventKindsDistinct | Sources/Spyder/API+Logging.swift:8-22 | response, invocation-failure and decoding-failure events have different messages |
| Logging.LogNetworkingEvent | Sources/Spyder/API+Logging.swift:28-41 | the logger is called once, with the message and the complementary text |
| Logging.LogResponse | Sources/Spyder/API+Logging.swift:4-10 | one response event is logged, with no complementary message |
| Logging.LogInvocationFailure | Sources/Spyder/API+Logging.swift:11-17 | one "❌ invocationFailure" event with the error's text is logged |
| Logging.LogDecodingError | Sources/Spyder/API+Logging.swift:18-24 | one "❌ decodingFailure" event with the error's text is logged |
| Invoking.ApplyMiddlewares | Sources/Spyder/API+Invoking.swift:24-26 | no middleware leaves the response as it is; a failed chain fails with the error one of its middlewares returned |
| Invoking.ApplyMiddlewaresAppend | Sources/Spyder/API+Invoking.swift:24-26 | middlewares run in array order, each on the previous output, and a failure skips the rest |
| Invoking.FirstMiddlewareFailureWins | Sources/Spyder/API+Invoking.swift:24-26 | the first failing middleware's error is the chain's result, whatever follows it |
| Invoking.Forget | Sources/Spyder/API+Invoking.swift:6-16 | `invokeAndForget` logs one event once the request is built and none otherwise, and succeeds exactly when the build and the invoker do, rethrowing the invoker's error |
| Invoking.Wait | Sources/Spyder/API+Invoking.swift:17-39 | `invokeWaitingResponse` logs nothing after a build failure, one or two events otherwise, exactly one on success, and two only when the invoker answered and a later stage failed |
| Invoking.BuildFailureIsSilent | Sources/Spyder/API+Invoking.swift:8-19 | a build failure is returned as it is and logs nothing |
| Invoking.WaitAfterResponse | Sources/Spyder/API+Invoking.swift:20-38 | after the invoker answers, exactly one response event is logged, first; a middleware failure adds one invocation-failure event and is rethrown; decoding uses the post-middleware data, and its failure adds one decoding-failure event and is rethrown |
| Invoking.WaitInvokerFailure | Sources/Spyder/API+Invoking.swift:9-31 | an invoker error is logged once as an invocation failure and rethrown, by both entry points |
| Invoking.StatusCodeIgnored | Sources/Spyder/API+Invoking.swift:20-34 | responses that differ only in status code give the same result: non-2xx responses are middleware-processed and decoded too |
| Invoking.ForgetAfterResponse | Sources/Spyder/API+Invoking.swift:6-16 | `invokeAndForget` logs the response once and succeeds, with no middleware and no decoding |
| Invoking.DefaultMiddlewaresPassThrough | Sources/Spyder/API.swift:24 | with the default empty middleware list the decoder gets the invoker's bytes unchanged |
| Invoking.InvokeAndForget | Sources/Spyder/API+Invoking.swift:6-16 | the result and the appended log events are those of `Forget` on the built request |
| Invoking.InvokeWaitingResponse | Sources/Spyder/API+Invoking.swift:17-39 | the middleware loop and the decode step return and log exactly what `Wait` does on the built request |
| Scenarios.GitHubSerialize | Tests/SpyderTests/GitHubAPI.swift:27-30 | the test client's base serialises as `https://api.github.com` + path + query |
| Scenarios.NoFieldsURL | Tests/SpyderTests/URLRequestBuilderTests.swift:59-84 | a descriptor with no fields builds base + path, its method, no body and no headers |
| Scenarios.SingleQueryItemURL | Tests/SpyderTests/URLRequestBuilderTests.swift:157-169 | one query argument gives `?name=value` |
| Scenarios.TwoQueryItemsURL | Tests/SpyderTests/URLRequestBuilderTests.swift:170-182 | two query arguments give `?n1=v1&n2=v2`, in declaration order |
| Scenarios.PathArgumentURL | Tests/SpyderTests/URLRequestBuilderTests.swift:199-211 | a path argument replaces its token; the rest of the template is unchanged |
| Scenarios.GitHubSetup | Tests/SpyderTests/GitHubAPI.swift:27-30 | the test client's configuration closure turns empty components into the GitHub base: https and `api.github.com` |
| Scenarios.HeaderOnlyBuild | Sources/Spyder/Builders/URLRequestBuilder.swift:16-53 | a GET descriptor whose one field is a request header builds successfully over the GitHub base: headers are the ambient ones plus that header, the method is "get", there is no body, and the URL is the base + path |
| Scenarios.AddedHeaderReachesRequest | Tests/SpyderTests/URLRequestBuilderTests.swift:115-133 | the test's GitHub client, after `addHeader(h)`, builds the header-only GET request successfully, with headers exactly h and the descriptor's header, method "get", no body and URL `https://api.github.com/api/v1/getRequestExample` |

## Left out

- Network I/O: `Invoker.defaultHTTPInvoker` and the `URLSession` extension are not modelled; the invoker is a parameter of the client.
- async/await: the invoker and the middlewares are synchronous functions returning a result or an error; there is no concurrency and no locking.
- JSON coding: `JSONEncoder` is the client's `jsonEncoder` function, which may fail and is a required argument of the constructor, since the default `JSONEncoder()` of `API.swift` line 19 is not modelled; `jsonDecoder.decode(Output.self, from:)` is a `decode` parameter of `InvokeWaitingResponse`, so the class holds no decoder field.
- The logger closure: the model records each logger call in `trace`; what the logger does with it, and the default no-op logger, are not modelled.
- Middlewares receive only the response, not the `API` value passed to them in the source.
- The header builder is a pure function: its result is taken to be the same on every call.
- `URLComponents` detail: percent-encoding, ports, user, password and fragments are not modelled; only the documented path/authority condition decides whether a URL forms.
- The header dictionary that `setValue(_:forHTTPHeaderField:)` builds from the header set (URLRequestBuilder.swift lines 49-51) is not modelled, because set iteration order decides which same-name header wins; the request keeps the header set.
- Status validation and cache use in the pipeline: `invalidStatusCodeInResponse` is never thrown by the code, and no invocation path consults `CacheManager`; neither is modelled as pipeline behaviour.
- Dates: `Date` and `TimeInterval` are integers, and "now" is passed explicitly instead of being a default argument.
- `URLRequest.httpMethod` holds the raw value exactly as `urlRequest(for:)` assigns it (lower-case); any normalisation Foundation's setter applies is not modelled.
- `String(reflecting:)` of a foreign error is carried as that error's text; `uppercased()` is ASCII-only.
- Foundation.ComponentsURL: the URL's `relativePath` drops one trailing "/" but is not percent-decoded, because percent-encoding is not modelled.
- Builder.ReplacingOccurrences: path substitution compares Unicode scalars literally, whereas `replacingOccurrences(of:with:)` with default options compares canonically equivalent strings as equal; a token spelled with combining marks, or followed by one, can match differently.
- Builder.ReplacingLeftmost: states the replacement scan one occurrence at a time, not that no `{name}` token remains afterwards, because a replacement can create a new occurrence that the scan does not revisit.
- Invoking.StatusCodeIgnored: is stated for the pipeline without middlewares, because a user-supplied middleware may itself inspect the status code; with middlewares, `WaitAfterResponse` shows the pipeline looks only at what they return.
