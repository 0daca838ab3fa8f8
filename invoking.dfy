/**
 * `invokeAndForget` and `invokeWaitingResponse`: build the request, call the invoker,
 * log the response, run the middlewares in order, decode. Every stage fails fast and
 * every failure after the build is logged once and rethrown unchanged. The status code
 * is only logged; it never changes the path taken.
 */
module Invoking {
  import opened Wrappers
  import opened Types
  import opened Foundation
  import opened Fields
  import opened Client
  import opened Builder
  import opened Logging

  /** The middlewares in array order, each on the previous output; the first error stops the chain. */
  function ApplyMiddlewares(middlewares: seq<ResponseMiddleware>, response: HTTPResponse): (r: Result<HTTPResponse, Error>)
    ensures middlewares == [] ==> r == Ok(response)
    ensures r.Err? ==> exists i, input :: 0 <= i < |middlewares| && middlewares[i](input) == Err(r.error)
    decreases |middlewares|
  {
    if middlewares == [] then Ok(response)
    else match middlewares[0](response)
      case Err(e) => Err(e)
      case Ok(next) =>
        assert forall i :: 0 <= i < |middlewares| - 1 ==> middlewares[1..][i] == middlewares[i + 1];
        ApplyMiddlewares(middlewares[1..], next)
  }

  /** Chaining `a + b` is chaining `a`, then `b` on its output, unless `a` failed. */
  lemma {:induction false} ApplyMiddlewaresAppend(a: seq<ResponseMiddleware>, b: seq<ResponseMiddleware>, response: HTTPResponse)
    ensures ApplyMiddlewares(a + b, response)
            == match ApplyMiddlewares(a, response)
               case Err(e) => Err(e)
               case Ok(next) => ApplyMiddlewares(b, next)
    decreases |a|
  {
    if a == [] {
      assert a + b == b;
    } else {
      assert (a + b)[0] == a[0];
      assert (a + b)[1..] == a[1..] + b;
      match a[0](response)
      case Err(e) =>
      case Ok(next) => ApplyMiddlewaresAppend(a[1..], b, next);
    }
  }

  /** A failing middleware stops the chain: nothing after it can change the outcome. */
  lemma FirstMiddlewareFailureWins(a: seq<ResponseMiddleware>, m: ResponseMiddleware, b: seq<ResponseMiddleware>,
                                   response: HTTPResponse, e: Error)
    requires ApplyMiddlewares(a, response).Ok? && m(ApplyMiddlewares(a, response).value) == Err(e)
    ensures ApplyMiddlewares(a + [m] + b, response) == Err(e)
  {
    ApplyMiddlewaresAppend(a + [m], b, response);
    ApplyMiddlewaresAppend(a, [m], response);
  }

  /** What one call returns, and the logger calls it makes, in order. */
  datatype Run<T> = Run(result: Result<T, Error>, events: seq<LogEvent>)

  /** `invokeAndForget` on the request the build produced. */
  function Forget(build: Result<URLRequest, Error>, invoker: Invoker): (r: Run<()>)
    ensures |r.events| == (if build.Ok? then 1 else 0)
    ensures r.result.Ok? <==> build.Ok? && invoker(build.value).Ok?
    ensures r.result.Err? && build.Ok? ==> r.result.error == invoker(build.value).error
  {
    match build
    case Err(e) => Run(Err(e), [])
    case Ok(request) =>
      match invoker(request)
      case Err(e) => Run(Err(e), [InvocationFailureEvent(request, e)])
      case Ok(response) => Run(Ok(()), [ResponseEvent(request, response)])
  }

  /** `invokeWaitingResponse` on the request the build produced. */
  function Wait<T>(build: Result<URLRequest, Error>, invoker: Invoker, middlewares: seq<ResponseMiddleware>,
                   decode: Bytes -> Result<T, Error>): (r: Run<T>)
    ensures build.Err? ==> r.events == []
    ensures build.Ok? ==> 1 <= |r.events| <= 2
    ensures r.result.Ok? ==> build.Ok? && |r.events| == 1
    ensures |r.events| == 2 ==> r.result.Err? && invoker(build.value).Ok?
  {
    match build
    case Err(e) => Run(Err(e), [])
    case Ok(request) =>
      match invoker(request)
      case Err(e) => Run(Err(e), [InvocationFailureEvent(request, e)])
      case Ok(response) =>
        match ApplyMiddlewares(middlewares, response)
        case Err(e) => Run(Err(e), [ResponseEvent(request, response), InvocationFailureEvent(request, e)])
        case Ok(final) =>
          match decode(final.data)
          case Err(e) => Run(Err(e), [ResponseEvent(request, response), DecodingFailureEvent(request, e)])
          case Ok(value) => Run(Ok(value), [ResponseEvent(request, response)])
  }

  /** The number of events in `events` whose message is `message`. */
  function CountMessage(events: seq<LogEvent>, message: string): nat
    decreases |events|
  {
    if events == [] then 0
    else (if events[0].message == message then 1 else 0) + CountMessage(events[1..], message)
  }

  /** A failed build reaches neither the invoker nor the logger. */
  lemma BuildFailureIsSilent<T>(e: Error, invoker: Invoker, middlewares: seq<ResponseMiddleware>, decode: Bytes -> Result<T, Error>)
    ensures Wait(Err(e), invoker, middlewares, decode) == Run(Err(e), [])
    ensures Forget(Err(e), invoker) == Run(Err(e), [])
  {
  }

  /**
   * Once the invoker answers, its response is the first event, logged once, before any
   * middleware; the call then succeeds exactly when the middlewares and the decoder do,
   * and a failure adds one event of its own kind and is returned unchanged.
   */
  lemma WaitAfterResponse<T>(request: URLRequest, invoker: Invoker, middlewares: seq<ResponseMiddleware>,
                             decode: Bytes -> Result<T, Error>)
    requires invoker(request).Ok?
    ensures var response := invoker(request).value;
            var run := Wait(Ok(request), invoker, middlewares, decode);
            && |run.events| >= 1 && run.events[0] == ResponseEvent(request, response)
            && CountMessage(run.events, ResponseMessage(response)) == 1
            && (ApplyMiddlewares(middlewares, response).Err? ==>
                  run.result == Err(ApplyMiddlewares(middlewares, response).error)
                  && run.events == [ResponseEvent(request, response), InvocationFailureEvent(request, run.result.error)])
            && (ApplyMiddlewares(middlewares, response).Ok? ==>
                  var data := ApplyMiddlewares(middlewares, response).value.data;
                  && (decode(data).Ok? ==> run.result == decode(data) && |run.events| == 1)
                  && (decode(data).Err? ==>
                        run.result == decode(data)
                        && run.events == [ResponseEvent(request, response), DecodingFailureEvent(request, decode(data).error)]))
  {
    var response := invoker(request).value;
    var run := Wait(Ok(request), invoker, middlewares, decode);
    EventKindsDistinct(request, response, Thrown(""));
    var e := if run.result.Err? then run.result.error else Thrown("");
    EventKindsDistinct(request, response, e);
    assert CountMessage(run.events[1..], ResponseMessage(response)) == 0 by {
      if |run.events| == 2 {
        assert run.events[1..][1..] == [];
      }
    }
  }

  /** An invoker error is logged once as an invocation failure and rethrown; nothing else runs. */
  lemma WaitInvokerFailure<T>(request: URLRequest, invoker: Invoker, middlewares: seq<ResponseMiddleware>,
                              decode: Bytes -> Result<T, Error>)
    requires invoker(request).Err?
    ensures Wait(Ok(request), invoker, middlewares, decode)
            == Run(Err(invoker(request).error), [InvocationFailureEvent(request, invoker(request).error)])
    ensures Forget(Ok(request), invoker)
            == Run(Err(invoker(request).error), [InvocationFailureEvent(request, invoker(request).error)])
  {
  }

  /**
   * The status code does not steer the pipeline: without middlewares, two responses that
   * differ only in status code (a 200 and a 500, say) give the same result.
   */
  lemma StatusCodeIgnored<T>(request: URLRequest, invoker1: Invoker, invoker2: Invoker, decode: Bytes -> Result<T, Error>)
    requires invoker1(request).Ok? && invoker2(request).Ok?
    requires invoker1(request).value.data == invoker2(request).value.data
    ensures Wait(Ok(request), invoker1, [], decode).result == Wait(Ok(request), invoker2, [], decode).result
  {
  }

  /** `invokeAndForget` runs neither middlewares nor decoder: one response event and success. */
  lemma ForgetAfterResponse(request: URLRequest, invoker: Invoker)
    requires invoker(request).Ok?
    ensures Forget(Ok(request), invoker) == Run(Ok(()), [ResponseEvent(request, invoker(request).value)])
  {
  }

  /** With no middlewares (the default), the decoder sees the invoker's bytes as they came. */
  lemma DefaultMiddlewaresPassThrough<T>(request: URLRequest, invoker: Invoker, decode: Bytes -> Result<T, Error>)
    requires invoker(request).Ok?
    ensures Wait(Ok(request), invoker, [], decode).result == decode(invoker(request).value.data)
  {
  }

  /** `invokeAndForget`. */
  method InvokeAndForget(api: API, desc: Descriptor) returns (r: Result<(), Error>)
    modifies api`trace
    ensures var run := Forget(Build(desc, api.headersBuilder() + api.persistentHeaders, api.baseURLComponents, api.jsonEncoder),
                              api.invoker);
            r == run.result && api.trace == old(api.trace) + run.events
  {
    var built := UrlRequest(desc, api);
    if built.Err? {
      return Err(built.error);
    }
    var urlRequest := built.value;
    var response := api.invoker(urlRequest);
    if response.Err? {
      LogInvocationFailure(api, urlRequest, response.error);
      return Err(response.error);
    }
    LogResponse(api, urlRequest, response.value);
    r := Ok(());
  }

  /** `invokeWaitingResponse`, with `decode` standing for `jsonDecoder.decode(Output.self, from:)`. */
  method InvokeWaitingResponse<T>(api: API, desc: Descriptor, decode: Bytes -> Result<T, Error>) returns (r: Result<T, Error>)
    modifies api`trace
    ensures var run := Wait(Build(desc, api.headersBuilder() + api.persistentHeaders, api.baseURLComponents, api.jsonEncoder),
                            api.invoker, api.responseMiddlewares, decode);
            r == run.result && api.trace == old(api.trace) + run.events
  {
    var built := UrlRequest(desc, api);
    if built.Err? {
      return Err(built.error);
    }
    var urlRequest := built.value;
    var invoked := api.invoker(urlRequest);
    if invoked.Err? {
      LogInvocationFailure(api, urlRequest, invoked.error);
      return Err(invoked.error);
    }
    var response := invoked.value;
    LogResponse(api, urlRequest, response);
    var i := 0;
    while i < |api.responseMiddlewares|
      invariant 0 <= i <= |api.responseMiddlewares|
      invariant ApplyMiddlewares(api.responseMiddlewares, invoked.value)
                == ApplyMiddlewares(api.responseMiddlewares[i..], response)
      invariant api.trace == old(api.trace) + [ResponseEvent(urlRequest, invoked.value)]
    {
      var next := api.responseMiddlewares[i](response);
      assert api.responseMiddlewares[i..][0] == api.responseMiddlewares[i];
      if next.Err? {
        assert ApplyMiddlewares(api.responseMiddlewares, invoked.value) == Err(next.error);
        LogInvocationFailure(api, urlRequest, next.error);
        return Err(next.error);
      }
      assert api.responseMiddlewares[i..][1..] == api.responseMiddlewares[i + 1..];
      response := next.value;
      i := i + 1;
    }
    assert ApplyMiddlewares(api.responseMiddlewares, invoked.value) == Ok(response);
    var decoded := decode(response.data);
    if decoded.Err? {
      LogDecodingError(api, urlRequest, decoded.error);
      return Err(decoded.error);
    }
    r := Ok(decoded.value);
  }
}
