/**
 * The client's log messages: a response is logged as success or failure with its
 * status code, the two failures with fixed messages and the error's text, and every
 * event carries a complementary string naming the method and the path.
 */
module Logging {
  import opened Wrappers
  import opened Types
  import opened Foundation
  import opened Client

  // ---------------------------------------------------------------------------
  // Decimal text of an `Int`, as string interpolation writes it
  // ---------------------------------------------------------------------------

  function DigitChar(d: int): char
    requires 0 <= d < 10
  {
    ('0' as int + d) as char
  }

  function Digits(n: nat): (s: string)
    ensures |s| > 0
    ensures forall i :: 0 <= i < |s| ==> '0' <= s[i] <= '9'
    decreases n
  {
    if n < 10 then [DigitChar(n)] else Digits(n / 10) + [DigitChar(n % 10)]
  }

  /** `"\(n)"` for an `Int`: a minus sign for negative numbers, then the digits. */
  function Decimal(n: int): (r: string)
    ensures |r| > 0 && (r[0] == '-' <==> n < 0)
    ensures forall i :: (if n < 0 then 1 else 0) <= i < |r| ==> '0' <= r[i] <= '9'
  {
    if n < 0 then "-" + Digits(-n) else Digits(n)
  }

  /** The value of a string of decimal digits. */
  function DigitsValue(s: string): int
    decreases |s|
  {
    if s == [] then 0 else DigitsValue(s[..|s| - 1]) * 10 + (s[|s| - 1] as int - '0' as int)
  }

  /** Reading a decimal back. */
  function ParseDecimal(s: string): int
  {
    if |s| > 0 && s[0] == '-' then -DigitsValue(s[1..]) else DigitsValue(s)
  }

  lemma {:induction false} DigitsRoundTrip(n: nat)
    ensures DigitsValue(Digits(n)) == n
    ensures Digits(n)[0] != '-'
    decreases n
  {
    if n >= 10 {
      DigitsRoundTrip(n / 10);
      var s := Digits(n);
      assert s[..|s| - 1] == Digits(n / 10);
    }
  }

  /** The decimal text determines the number. */
  lemma DecimalRoundTrip(n: int)
    ensures ParseDecimal(Decimal(n)) == n
  {
    if n < 0 {
      DigitsRoundTrip(-n);
      assert ("-" + Digits(-n))[1..] == Digits(-n);
    } else {
      DigitsRoundTrip(n);
    }
  }

  // ---------------------------------------------------------------------------
  // Messages
  // ---------------------------------------------------------------------------

  /** `(200...299).contains(statusCode)`. */
  predicate IsSuccess(statusCode: int)
  {
    200 <= statusCode <= 299
  }

  const SuccessMark := "✅ success"
  const FailureMark := "❌ failure"
  const InvocationFailureMessage := "❌ invocationFailure"
  const DecodingFailureMessage := "❌ decodingFailure"

  /**
   * `logResponse`'s message: success or failure, and the status code in brackets. Its
   * first character tells success from failure.
   */
  function ResponseMessage(response: HTTPResponse): (m: string)
    ensures |m| > 0
    ensures m[0] == '✅' <==> IsSuccess(response.statusCode)
    ensures m[0] == '❌' <==> !IsSuccess(response.statusCode)
  {
    (if IsSuccess(response.statusCode) then SuccessMark else FailureMark) + "[" + Decimal(response.statusCode) + "]"
  }

  /** The status code can be read back from the message. */
  lemma ResponseMessageCode(response: HTTPResponse)
    ensures var m := ResponseMessage(response);
            |m| >= 11 && m[9] == '[' && m[|m| - 1] == ']' && ParseDecimal(m[10..|m| - 1]) == response.statusCode
  {
    var m := ResponseMessage(response);
    var mark := if IsSuccess(response.statusCode) then SuccessMark else FailureMark;
    assert |mark| == 9;
    assert m == mark + "[" + Decimal(response.statusCode) + "]";
    assert m[10..|m| - 1] == Decimal(response.statusCode);
    DecimalRoundTrip(response.statusCode);
  }

  /** Two responses logged with the same message have the same status code. */
  lemma ResponseMessageInjective(r1: HTTPResponse, r2: HTTPResponse)
    requires ResponseMessage(r1) == ResponseMessage(r2)
    ensures r1.statusCode == r2.statusCode
  {
    ResponseMessageCode(r1);
    ResponseMessageCode(r2);
  }

  /**
   * `logNetworkingEvent`'s complementary text: empty without a URL; otherwise the
   * upper-cased method (GET when unset) and the URL's path, then the complementary
   * message when one is given.
   */
  function Complementary(request: URLRequest, complementaryMessage: Option<string>): (r: string)
    ensures r == "" <==> request.url.None?
    ensures request.url.Some? ==> |r| > 6 && r[..6] == "path=["
  {
    if request.url.None? then ""
    else
      var httpMethod := if request.httpMethod.Some? then request.httpMethod.value else "GET";
      var complementary := "path=[" + Uppercased(httpMethod) + " " + request.url.value.relativePath + "]";
      if complementaryMessage.Some? then complementary + " message=[" + complementaryMessage.value + "]"
      else complementary
  }

  /** The shape of the complementary text, both with and without a message. */
  lemma ComplementaryShape(request: URLRequest, message: string)
    ensures request.url.None? ==> Complementary(request, None) == "" && Complementary(request, Some(message)) == ""
    ensures request.url.Some? ==>
              Complementary(request, Some(message)) == Complementary(request, None) + " message=[" + message + "]"
    ensures request.url.Some? && request.httpMethod.None? ==>
              Complementary(request, None) == "path=[GET " + request.url.value.relativePath + "]"
  {
    if request.url.Some? && request.httpMethod.None? {
      assert Uppercased("GET") == "GET";
    }
  }

  /** Method names are logged upper-case. */
  lemma UppercasedMethods()
    ensures Uppercased(RawValue(Get)) == "GET" && Uppercased(RawValue(Post)) == "POST"
    ensures Uppercased(RawValue(Put)) == "PUT" && Uppercased(RawValue(Delete)) == "DELETE"
  {
  }

  function ResponseEvent(request: URLRequest, response: HTTPResponse): LogEvent
  {
    LogEvent(ResponseMessage(response), Complementary(request, None))
  }

  function InvocationFailureEvent(request: URLRequest, error: Error): LogEvent
  {
    LogEvent(InvocationFailureMessage, Complementary(request, Some(Reflecting(error))))
  }

  function DecodingFailureEvent(request: URLRequest, error: Error): LogEvent
  {
    LogEvent(DecodingFailureMessage, Complementary(request, Some(Reflecting(error))))
  }

  /** The three kinds of event are told apart by their message. */
  lemma EventKindsDistinct(request: URLRequest, response: HTTPResponse, error: Error)
    ensures ResponseEvent(request, response).message != InvocationFailureMessage
    ensures ResponseEvent(request, response).message != DecodingFailureMessage
    ensures InvocationFailureEvent(request, error).message != DecodingFailureMessage
  {
    var m := ResponseMessage(response);
    ResponseMessageCode(response);
    assert m[9] == '[';
    assert InvocationFailureMessage[9] != '[';
    assert DecodingFailureMessage[9] != '[';
  }

  // ---------------------------------------------------------------------------
  // The logging calls: each calls the logger once
  // ---------------------------------------------------------------------------

  /** `logNetworkingEvent(for:message:complementaryMessage:)`. */
  method LogNetworkingEvent(api: API, request: URLRequest, message: string, complementaryMessage: Option<string>)
    modifies api`trace
    ensures api.trace == old(api.trace) + [LogEvent(message, Complementary(request, complementaryMessage))]
  {
    var complementary := "";
    if request.url.Some? {
      var httpMethod := if request.httpMethod.Some? then request.httpMethod.value else "GET";
      complementary := "path=[" + Uppercased(httpMethod) + " " + request.url.value.relativePath + "]";
      if complementaryMessage.Some? {
        complementary := complementary + " message=[" + complementaryMessage.value + "]";
      }
    }
    api.trace := api.trace + [LogEvent(message, complementary)];
  }

  method LogResponse(api: API, request: URLRequest, response: HTTPResponse)
    modifies api`trace
    ensures api.trace == old(api.trace) + [ResponseEvent(request, response)]
  {
    var isSuccess := IsSuccess(response.statusCode);
    LogNetworkingEvent(api, request, (if isSuccess then SuccessMark else FailureMark) + "[" + Decimal(response.statusCode) + "]", None);
  }

  method LogInvocationFailure(api: API, request: URLRequest, error: Error)
    modifies api`trace
    ensures api.trace == old(api.trace) + [InvocationFailureEvent(request, error)]
  {
    LogNetworkingEvent(api, request, InvocationFailureMessage, Some(Reflecting(error)));
  }

  method LogDecodingError(api: API, request: URLRequest, error: Error)
    modifies api`trace
    ensures api.trace == old(api.trace) + [DecodingFailureEvent(request, error)]
  {
    LogNetworkingEvent(api, request, DecodingFailureMessage, Some(Reflecting(error)));
  }
}
