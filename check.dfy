/** The HTTP call-and-assert step of the end-to-end test driver.

    The step sends one request to a service on the loopback address and
    judges the answer: the status must be 200, the body must equal the
    expected one when one is given, and every expected response header must
    match in one of three modes (any non-empty value, absent, or an exact
    value). The network exchange itself is an input of the model: `Run`
    receives it as a function from the request it builds to what came back.
 */
module Driver {

  /** Go's `uint16`, the type of the loopback port. */
  newtype uint16 = x: int | 0 <= x < 0x1_0000

  /** Go's `time.Duration`: a signed 64-bit count of nanoseconds. */
  newtype Duration = x: int | -0x8000_0000_0000_0000 <= x < 0x8000_0000_0000_0000

  const Second: Duration := 1_000_000_000

  /** The timeout a step gets when none was set. */
  const DefaultTimeout: Duration := 10 * Second

  /** Expected-header token: the header must be absent or empty. */
  const None: string := "-"

  /** Expected-header token: the header must be present with a non-empty value. */
  const Any: string := "*"

  const MethodGet: string := "GET"

  /** The only status the step accepts ("200 OK", section 15.3.1 of RFC 9110). */
  const StatusOK: int := 200

  /** The request the step hands to the HTTP client: method, target port on
      127.0.0.1, every configured request header, and the client timeout. */
  datatype Request = Request(httpMethod: string, port: uint16, headers: map<string, string>, timeout: Duration)

  /** Reading the whole response body either yields its text or fails. */
  datatype BodyRead = Read(text: string) | ReadFailed

  /** What the step observes of a response. `header(name)` is the first value
      of that header, or "" when the response does not carry it. */
  datatype Response = Response(status: int, body: BodyRead, header: string -> string)

  /** The network exchange: the library refuses to build the request, the
      transport fails (refused connection, timeout), or a response arrives. */
  datatype Exchange = RequestRejected | TransportFailed | Answered(response: Response)

  /** What `Run` reports: success, or one kind of error with its payload. */
  datatype Outcome =
    | Ok
    | RequestErr
    | TransportErr
    | StatusErr(port: uint16, code: int)
    | ReadErr
    | BodyErr(got: string, want: string)
    | HeaderErr(got: string, want: string)

  /** The timeout the step runs with: zero is replaced by the default. */
  function EffectiveTimeout(t: Duration): (r: Duration)
    ensures r != 0
    ensures t != 0 ==> r == t
  {
    if t == 0 then DefaultTimeout else t
  }

  /** The body check: an empty expected body is not checked at all. */
  predicate BodyMatches(want: string, got: string)
  {
    want == "" || want == got
  }

  /** One expected response header against the observed first value. */
  predicate HeaderMatches(want: string, got: string)
  {
    if want == Any then got != ""
    else if want == None then got == ""
    else got == want
  }

  /** Every listed expectation holds; unlisted headers play no part. */
  ghost predicate AllHeadersMatch(expected: map<string, string>, header: string -> string)
  {
    forall k :: k in expected ==> HeaderMatches(expected[k], header(k))
  }

  /** The outcomes the header loop may produce. The map is walked in no fixed
      order, so any failing header may be the one reported. */
  ghost predicate HeadersVerdict(expected: map<string, string>, header: string -> string, o: Outcome)
  {
    if AllHeadersMatch(expected, header) then o == Ok
    else exists k :: k in expected && !HeaderMatches(expected[k], header(k)) && o == HeaderErr(header(k), expected[k])
  }

  /** The outcomes a step with this port, expected body and expected headers
      may report for the given exchange: errors of the transport first, then
      the status, then reading the body, then the body, then the headers. */
  ghost predicate MayReport(port: uint16, wantBody: string, expected: map<string, string>, exchange: Exchange, o: Outcome)
  {
    match exchange
    case RequestRejected => o == RequestErr
    case TransportFailed => o == TransportErr
    case Answered(r) =>
      if r.status != StatusOK then o == StatusErr(port, r.status)
      else match r.body
        case ReadFailed => o == ReadErr
        case Read(got) =>
          if !BodyMatches(wantBody, got) then o == BodyErr(got, wantBody)
          else HeadersVerdict(expected, r.header, o)
  }

  /** The loop over the expected response headers, returning at the first
      header that does not match. */
  method CheckHeaders(expected: map<string, string>, header: string -> string) returns (o: Outcome)
    ensures HeadersVerdict(expected, header, o)
  {
    var pending := expected.Keys;
    while pending != {}
      invariant pending <= expected.Keys
      invariant forall k :: k in expected && k !in pending ==> HeaderMatches(expected[k], header(k))
      decreases pending
    {
      var key :| key in pending;
      var want := expected[key];
      var got := header(key);
      if !HeaderMatches(want, got) {
        return HeaderErr(got, want);
      }
      pending := pending - {key};
    }
    o := Ok;
  }

  /** The verdict part of `Run`, once the exchange is known. */
  method Check(port: uint16, wantBody: string, expected: map<string, string>, exchange: Exchange) returns (o: Outcome)
    ensures MayReport(port, wantBody, expected, exchange, o)
  {
    match exchange
    case RequestRejected =>
      o := RequestErr;
    case TransportFailed =>
      o := TransportErr;
    case Answered(response) =>
      if response.status != StatusOK {
        return StatusErr(port, response.status);
      }
      match response.body
      case ReadFailed =>
        o := ReadErr;
      case Read(got) =>
        if !BodyMatches(wantBody, got) {
          o := BodyErr(got, wantBody);
        } else {
          o := CheckHeaders(expected, response.header);
        }
  }

  /** An HTTP call step. A step value is mutable: `Run` fills in the timeout. */
  class HTTPCall {
    var httpMethod: string
    /** Port on 127.0.0.1. */
    var port: uint16
    /** Expected body; "" means the body is not checked. */
    var body: string
    /** Headers sent with the request. */
    var requestHeaders: map<string, string>
    /** Expected response headers: a value, `Any` or `None`. */
    var responseHeaders: map<string, string>
    /** Client timeout; zero means "use DefaultTimeout". */
    var timeout: Duration

    /** A step built field by field. */
    constructor (httpMethod: string, port: uint16, body: string,
                 requestHeaders: map<string, string>, responseHeaders: map<string, string>,
                 timeout: Duration)
      ensures this.httpMethod == httpMethod && this.port == port && this.body == body
      ensures this.requestHeaders == requestHeaders && this.responseHeaders == responseHeaders
      ensures this.timeout == timeout
    {
      this.httpMethod := httpMethod;
      this.port := port;
      this.body := body;
      this.requestHeaders := requestHeaders;
      this.responseHeaders := responseHeaders;
      this.timeout := timeout;
    }

    /** A GET step expecting `body`, with no headers either way and no timeout set. */
    constructor Get(port: uint16, body: string)
      ensures httpMethod == MethodGet && this.port == port && this.body == body
      ensures requestHeaders == map[] && responseHeaders == map[]
      ensures timeout == 0
    {
      httpMethod := MethodGet;
      this.port := port;
      this.body := body;
      requestHeaders := map[];
      responseHeaders := map[];
      timeout := 0;
    }

    /** Runs the step: fills in the timeout, sends the request through `send`
        and judges what comes back. Only the timeout field changes. */
    method Run(send: Request -> Exchange) returns (outcome: Outcome)
      modifies this`timeout
      ensures timeout == EffectiveTimeout(old(timeout))
      ensures MayReport(port, body, responseHeaders, send(Request(httpMethod, port, requestHeaders, timeout)), outcome)
    {
      if timeout == 0 {
        timeout := DefaultTimeout;
      }
      var exchange := send(Request(httpMethod, port, requestHeaders, timeout));
      outcome := Check(port, body, responseHeaders, exchange);
    }

    /** Releases nothing: the step holds no resource after `Run`. */
    method Cleanup()
      ensures unchanged(this)
    {
    }
  }

  /** Running a step twice sends the same request both times: the timeout
      filled in by the first run is kept by the second. The network may
      answer the two requests differently (`firstSend`, `secondSend`). */
  method RunTwice(step: HTTPCall, firstSend: Request -> Exchange, secondSend: Request -> Exchange)
    returns (first: Outcome, second: Outcome)
    modifies step`timeout
    ensures step.timeout == EffectiveTimeout(old(step.timeout))
    ensures var sent := Request(step.httpMethod, step.port, step.requestHeaders, EffectiveTimeout(old(step.timeout)));
            && MayReport(step.port, step.body, step.responseHeaders, firstSend(sent), first)
            && MayReport(step.port, step.body, step.responseHeaders, secondSend(sent), second)
  {
    first := step.Run(firstSend);
    second := step.Run(secondSend);
    TimeoutFillIdempotent(old(step.timeout));
  }

  // ---------------------------------------------------------------------
  // Properties of the verdict
  // ---------------------------------------------------------------------

  /** Filling in the timeout a second time changes nothing. */
  lemma TimeoutFillIdempotent(t: Duration)
    ensures EffectiveTimeout(EffectiveTimeout(t)) == EffectiveTimeout(t)
    ensures t == 0 ==> EffectiveTimeout(t) == DefaultTimeout
  {
  }

  /** `Any` and `None` are exact opposites: present-and-non-empty versus
      absent-or-empty. */
  lemma WildcardsComplementary(got: string)
    ensures HeaderMatches(Any, got) <==> got != ""
    ensures HeaderMatches(None, got) <==> got == ""
    ensures HeaderMatches(Any, got) <==> !HeaderMatches(None, got)
  {
  }

  /** Any other expected value matches exactly itself, case included. */
  lemma LiteralHeaderMatchesItself(want: string, got: string)
    requires want != Any && want != None
    ensures HeaderMatches(want, got) <==> got == want
  {
  }

  /** The step succeeds exactly when a response arrived with status 200,
      its body was read and matches, and every listed header matches. */
  lemma SucceedsIff(port: uint16, wantBody: string, expected: map<string, string>, exchange: Exchange)
    ensures MayReport(port, wantBody, expected, exchange, Ok) <==>
      && exchange.Answered?
      && exchange.response.status == StatusOK
      && exchange.response.body.Read?
      && BodyMatches(wantBody, exchange.response.body.text)
      && AllHeadersMatch(expected, exchange.response.header)
  {
  }

  /** A status other than 200 is reported, with port and code, whatever the
      body and headers are. */
  lemma StatusCheckedFirst(port: uint16, wantBody: string, expected: map<string, string>, r: Response, o: Outcome)
    requires r.status != StatusOK
    ensures MayReport(port, wantBody, expected, Answered(r), o) <==> o == StatusErr(port, r.status)
  {
  }

  /** An empty expected body never causes a failure; a non-empty one fails
      exactly when it differs from the observed body, reporting both. */
  lemma BodyCheck(port: uint16, wantBody: string, expected: map<string, string>, got: string, header: string -> string, o: Outcome)
    requires MayReport(port, wantBody, expected, Answered(Response(StatusOK, Read(got), header)), o)
    ensures wantBody == "" ==> !o.BodyErr?
    ensures o.BodyErr? <==> wantBody != "" && wantBody != got
    ensures o.BodyErr? ==> o == BodyErr(got, wantBody)
  {
  }

  /** A header failure always names a listed header that really fails. */
  lemma HeaderErrIsGenuine(port: uint16, wantBody: string, expected: map<string, string>, exchange: Exchange, o: Outcome)
    requires MayReport(port, wantBody, expected, exchange, o)
    requires o.HeaderErr?
    ensures exchange.Answered? && exchange.response.status == StatusOK
    ensures exchange.response.body.Read? && BodyMatches(wantBody, exchange.response.body.text)
    ensures exists k :: k in expected && !HeaderMatches(expected[k], exchange.response.header(k))
                        && o == HeaderErr(exchange.response.header(k), expected[k])
  {
  }

  /** Headers that are not listed never affect the outcome. */
  lemma UnlistedHeadersIgnored(port: uint16, wantBody: string, expected: map<string, string>,
                               status: int, body: BodyRead, h1: string -> string, h2: string -> string, o: Outcome)
    requires forall k :: k in expected ==> h1(k) == h2(k)
    ensures MayReport(port, wantBody, expected, Answered(Response(status, body, h1)), o) <==>
            MayReport(port, wantBody, expected, Answered(Response(status, body, h2)), o)
  {
  }

  /** Every exchange has a verdict. */
  lemma VerdictExists(port: uint16, wantBody: string, expected: map<string, string>, exchange: Exchange)
    ensures exists o :: MayReport(port, wantBody, expected, exchange, o)
  {
    match exchange
    case RequestRejected =>
      assert MayReport(port, wantBody, expected, exchange, RequestErr);
    case TransportFailed =>
      assert MayReport(port, wantBody, expected, exchange, TransportErr);
    case Answered(r) =>
      if r.status != StatusOK {
        assert MayReport(port, wantBody, expected, exchange, StatusErr(port, r.status));
      } else if r.body.ReadFailed? {
        assert MayReport(port, wantBody, expected, exchange, ReadErr);
      } else if !BodyMatches(wantBody, r.body.text) {
        assert MayReport(port, wantBody, expected, exchange, BodyErr(r.body.text, wantBody));
      } else if AllHeadersMatch(expected, r.header) {
        assert MayReport(port, wantBody, expected, exchange, Ok);
      } else {
        var k :| k in expected && !HeaderMatches(expected[k], r.header(k));
        assert MayReport(port, wantBody, expected, exchange, HeaderErr(r.header(k), expected[k]));
      }
  }

  /** The verdict is determined except for which failing header is named. */
  lemma VerdictDeterminedUpToHeader(port: uint16, wantBody: string, expected: map<string, string>, exchange: Exchange, o1: Outcome, o2: Outcome)
    requires MayReport(port, wantBody, expected, exchange, o1)
    requires MayReport(port, wantBody, expected, exchange, o2)
    ensures o1 == o2 || (o1.HeaderErr? && o2.HeaderErr?)
  {
  }

  /** When exactly one listed header fails, it is the one reported. */
  lemma SingleHeaderMismatchReported(port: uint16, wantBody: string, expected: map<string, string>, r: Response, key: string, o: Outcome)
    requires r.status == StatusOK && r.body.Read? && BodyMatches(wantBody, r.body.text)
    requires key in expected && !HeaderMatches(expected[key], r.header(key))
    requires forall k :: k in expected && k != key ==> HeaderMatches(expected[k], r.header(k))
    requires MayReport(port, wantBody, expected, Answered(r), o)
    ensures o == HeaderErr(r.header(key), expected[key])
  {
  }

  /** The header cases worked through for a response carrying `X-Foo: bar`
      and for one without `X-Foo`. */
  lemma XFooExamples(port: uint16)
    ensures var withFoo := Answered(Response(StatusOK, Read(""), (name: string) => if name == "X-Foo" then "bar" else ""));
      && MayReport(port, "", map["X-Foo" := Any], withFoo, Ok)
      && !MayReport(port, "", map["X-Foo" := None], withFoo, Ok)
      && MayReport(port, "", map["X-Foo" := "bar"], withFoo, Ok)
      && MayReport(port, "", map["X-Foo" := "baz"], withFoo, HeaderErr("bar", "baz"))
    ensures var withoutFoo := Answered(Response(StatusOK, Read(""), (name: string) => ""));
      && MayReport(port, "", map["X-Foo" := None], withoutFoo, Ok)
      && MayReport(port, "", map["X-Foo" := Any], withoutFoo, HeaderErr("", Any))
  {
    var noneFoo := map["X-Foo" := None];
    var anyFoo := map["X-Foo" := Any];
    assert "X-Foo" in noneFoo && !HeaderMatches(noneFoo["X-Foo"], "bar");
    assert "X-Foo" in anyFoo && !HeaderMatches(anyFoo["X-Foo"], "");
  }
}
