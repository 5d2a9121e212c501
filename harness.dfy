/**
  The integration-test harness (integration_test/integration-test.go).

  A test suite owns a capture server standing behind the proxy under test. Each
  named case is a request template; `Eval` builds a POST request from it, sends it
  through the proxy, polls the server's two handoff channels once, and decides
  whether the proxy behaved as the template expects: a request that carries an
  injection must be answered with 403 Forbidden (section 15.5.4 of RFC 9110) and
  must not reach the server (or, for an injection in the body, must not reach it
  with a non-empty body); any other request must reach the server intact and be answered
  with 200 OK (section 15.3.1 of RFC 9110) and the server's message.

  The network is not modelled. What `Eval` observes is given to it: the proxy's
  response (`None` when sending failed) and what was pending on the handoff
  channels. Form encoding (`url.Values.Encode`) and header-name
  canonicalisation (`http.CanonicalHeaderKey`) are parameters.
*/
module Harness {
  import opened Wrappers

  /** `url.Values`: each key maps to its list of values. */
  type Values = map<string, seq<string>>

  const StatusOK: int := 200
  const StatusForbidden: int := 403
  const ContentTypeHeader: string := "content-type"
  const FormUrlEncoded: string := "application/x-www-form-urlencoded"

  /** One test case: the request to make and the expected detection result. */
  datatype TestRequest = TestRequest(
    path: string,
    pathParams: Values,
    headers: map<string, string>,
    cookies: map<string, string>,
    body: Values,
    sqli: bool,      // the request carries an injection and must be blocked
    sqliBody: bool)  // the injection is in the body, which the proxy must empty

  /** The default template every case starts from. */
  function NewTestRequest(): (r: TestRequest)
    ensures r.path == "/" && !r.sqli && !r.sqliBody
    ensures r.pathParams == map["path-key-0" := ["path-val-0"]] && r.body == map["body-key-0" := ["body-val-0"]]
    ensures r.headers == map["header-key-0" := "header-val-0"] && r.cookies == map["cookie-key-0" := "cookie-val-0"]
  {
    TestRequest("/", map["path-key-0" := ["path-val-0"]], map["header-key-0" := "header-val-0"],
                map["cookie-key-0" := "cookie-val-0"], map["body-key-0" := ["body-val-0"]], false, false)
  }

  /** The suite's settings and its named cases (server and channels are not modelled). */
  datatype TestSuite = TestSuite(proxyURL: string, serverPort: string, serverMessage: string,
                                 requests: map<string, TestRequest>)

  function NewTestSuite(proxyURL: string): (s: TestSuite)
    ensures s.proxyURL == proxyURL && s.serverPort == ":8080" && s.serverMessage == "request received"
    ensures s.requests == map[]
  {
    TestSuite(proxyURL, ":8080", "request received", map[])
  }

  /** The request `Eval` hands to the HTTP client. Header names are canonical. */
  datatype WireRequest = WireRequest(verb: string, url: string, headers: map<string, string>,
                                     cookies: seq<(string, string)>, body: string)

  /** What the capture server recorded of a request the proxy forwarded. */
  datatype Captured = Captured(path: string, headers: map<string, string>, cookies: map<string, string>)

  /** The proxy's direct answer to the test request. */
  datatype Response = Response(status: int, body: string)

  /** No other template header canonicalises to the same name as `k`. */
  predicate Unshadowed(headers: map<string, string>, canon: string -> string, k: string)
  {
    forall k' | k' in headers && canon(k') == canon(k) :: k' == k
  }

  /**
    The header map built from the template headers: the form content type unless
    a template header replaces it, and every template header under its canonical
    name, with its own value unless another template header shares that name.
  */
  predicate HeadersBuilt(h: map<string, string>, headers: map<string, string>, canon: string -> string)
  {
    && h.Keys == {canon(ContentTypeHeader)} + (set k | k in headers :: canon(k))
    && (forall k | k in headers && Unshadowed(headers, canon, k) :: h[canon(k)] == headers[k])
    && ((forall k | k in headers :: canon(k) != canon(ContentTypeHeader)) ==> h[canon(ContentTypeHeader)] == FormUrlEncoded)
  }

  /** One cookie per template cookie, each with the template's value. */
  predicate CookiesBuilt(c: seq<(string, string)>, cookies: map<string, string>)
  {
    && |c| == |cookies|
    && (forall k | k in cookies :: (k, cookies[k]) in c)
    && (forall p | p in c :: p.0 in cookies && cookies[p.0] == p.1)
  }

  /**
    `w` is the request built from `test`: a POST to the proxy with the encoded
    path parameters as query, the encoded body, the template's headers and the
    template's cookies.
  */
  predicate BuiltFrom(w: WireRequest, suite: TestSuite, test: TestRequest,
                      encode: Values -> string, canon: string -> string)
  {
    && w.verb == "POST"
    && w.url == suite.proxyURL + test.path + "?" + encode(test.pathParams)
    && w.body == encode(test.body)
    && HeadersBuilt(w.headers, test.headers, canon)
    && CookiesBuilt(w.cookies, test.cookies)
  }

  /** `req.Header.Set` for every template header, after the content type; map iteration order is arbitrary. */
  method SetHeaders(headers: map<string, string>, canon: string -> string) returns (h: map<string, string>)
    ensures HeadersBuilt(h, headers, canon)
  {
    h := map[canon(ContentTypeHeader) := FormUrlEncoded];
    var pending := headers.Keys;
    while pending != {}
      invariant pending <= headers.Keys
      invariant h.Keys == {canon(ContentTypeHeader)} + (set k | k in headers.Keys - pending :: canon(k))
      invariant forall k | k in headers.Keys - pending && Unshadowed(headers, canon, k) :: h[canon(k)] == headers[k]
      invariant (forall k | k in headers :: canon(k) != canon(ContentTypeHeader)) ==>
        h[canon(ContentTypeHeader)] == FormUrlEncoded
      decreases pending
    {
      var key :| key in pending;
      h := h[canon(key) := headers[key]];
      pending := pending - {key};
    }
    assert headers.Keys - {} == headers.Keys;
  }

  /** `req.AddCookie` for every template cookie; map iteration order is arbitrary. */
  method AddCookies(cookies: map<string, string>) returns (c: seq<(string, string)>)
    ensures CookiesBuilt(c, cookies)
  {
    c := [];
    var pending := cookies.Keys;
    while pending != {}
      invariant pending <= cookies.Keys
      invariant |c| + |pending| == |cookies.Keys|
      invariant forall k | k in cookies.Keys - pending :: (k, cookies[k]) in c
      invariant forall p | p in c :: p.0 in cookies && p.0 !in pending && cookies[p.0] == p.1
      decreases pending
    {
      var key :| key in pending;
      c := c + [(key, cookies[key])];
      pending := pending - {key};
    }
  }

  /** The request construction at the start of `Eval`. */
  method NewWireRequest(suite: TestSuite, test: TestRequest, encode: Values -> string, canon: string -> string)
    returns (w: WireRequest)
    ensures BuiltFrom(w, suite, test, encode, canon)
  {
    var requestBody := encode(test.body);
    var requestPathParams := encode(test.pathParams);
    var headers := SetHeaders(test.headers, canon);
    var cookies := AddCookies(test.cookies);
    w := WireRequest("POST", suite.proxyURL + test.path + "?" + requestPathParams, headers, cookies, requestBody);
  }

  /** `Header.Get(key)`: the value stored under the canonical name, or "". */
  function HeaderGet(headers: map<string, string>, canon: string -> string, key: string): string
  {
    if canon(key) in headers then headers[canon(key)] else ""
  }

  /** Every template header reads back with its value (names compared case-insensitively via `canon`). */
  predicate HeadersIntact(sent: map<string, string>, received: map<string, string>, canon: string -> string)
  {
    forall k | k in sent :: HeaderGet(received, canon, k) == sent[k]
  }

  /** Every template cookie is present with its value. */
  predicate CookiesIntact(sent: map<string, string>, received: map<string, string>)
  {
    forall k | k in sent :: k in received && received[k] == sent[k]
  }

  /** The proxy blocked the request as an injection case expects. */
  predicate BlockedAsExpected(test: TestRequest, received: Option<Captured>, receivedBody: string, response: Response)
  {
    && (if test.sqliBody then receivedBody == "" else received.None?)
    && response.status == StatusForbidden
  }

  /** The proxy forwarded the request unchanged and relayed the server's answer. */
  predicate ForwardedIntact(suite: TestSuite, test: TestRequest, received: Option<Captured>, receivedBody: string,
                            response: Response, encode: Values -> string, canon: string -> string)
  {
    && received.Some?
    && received.value.path == test.path
    && HeadersIntact(test.headers, received.value.headers, canon)
    && CookiesIntact(test.cookies, received.value.cookies)
    && receivedBody == encode(test.body)
    && response.status == StatusOK
    && response.body == suite.serverMessage
  }

  /**
    The verdict on one case: the request was sent, and the proxy blocked it if the
    template carries an injection and forwarded it intact otherwise.
  */
  predicate Verdict(suite: TestSuite, test: TestRequest, response: Option<Response>, received: Option<Captured>,
                    receivedBody: string, encode: Values -> string, canon: string -> string)
  {
    && response.Some?
    && if test.sqli then BlockedAsExpected(test, received, receivedBody, response.value)
       else ForwardedIntact(suite, test, received, receivedBody, response.value, encode, canon)
  }

  /** The non-blocking poll of the body channel: the pending body, or "" when nothing is pending. */
  function PolledBody(pendingBody: Option<string>): string
  {
    if pendingBody.Some? then pendingBody.value else ""
  }

  /**
    `Eval`: `response` is the result of sending (`None` on a send error);
    `pendingRequest` and `pendingBody` are what the capture server had handed
    off on its two channels when they were polled after the settle interval.
  */
  method Eval(suite: TestSuite, test: TestRequest, response: Option<Response>,
              pendingRequest: Option<Captured>, pendingBody: Option<string>,
              encode: Values -> string, canon: string -> string)
    returns (pass: bool)
    ensures pass == Verdict(suite, test, response, pendingRequest, PolledBody(pendingBody), encode, canon)
  {
    var request := NewWireRequest(suite, test, encode, canon);
    var requestBody := request.body;
    if response.None? {
      return false;
    }
    var resp := response.value;

    var received: Option<Captured> := None;
    if pendingRequest.Some? {
      received := pendingRequest;
    }
    var receivedBody := "";
    if pendingBody.Some? {
      receivedBody := pendingBody.value;
    }

    if test.sqli {
      if test.sqliBody {
        if receivedBody != "" {
          return false;
        }
      } else if received.Some? {
        return false;
      }
      if resp.status != StatusForbidden {
        return false;
      }
    } else {
      if received.None? {
        return false;
      }
      var got := received.value;
      if test.path != got.path {
        return false;
      }
      var pending := test.headers.Keys;
      while pending != {}
        invariant pending <= test.headers.Keys
        invariant forall k | k in test.headers.Keys - pending :: HeaderGet(got.headers, canon, k) == test.headers[k]
        decreases pending
      {
        var key :| key in pending;
        if HeaderGet(got.headers, canon, key) != test.headers[key] {
          return false;
        }
        pending := pending - {key};
      }
      pending := test.cookies.Keys;
      while pending != {}
        invariant pending <= test.cookies.Keys
        invariant forall k | k in test.cookies.Keys - pending :: k in got.cookies && got.cookies[k] == test.cookies[k]
        decreases pending
      {
        var key :| key in pending;
        if key !in got.cookies || got.cookies[key] != test.cookies[key] {
          return false;
        }
        pending := pending - {key};
      }
      if receivedBody != requestBody {
        return false;
      }
      if resp.status != StatusOK || resp.body != suite.serverMessage {
        return false;
      }
    }
    return true;
  }

  /** A send error fails the case, whatever the template expects. */
  lemma SendErrorFails(suite: TestSuite, test: TestRequest, received: Option<Captured>, receivedBody: string,
                       encode: Values -> string, canon: string -> string)
    ensures !Verdict(suite, test, None, received, receivedBody, encode, canon)
  {
  }

  /** With nothing handed off, the poll sees no request and the empty body. */
  lemma EmptyPoll(suite: TestSuite, test: TestRequest, response: Option<Response>,
                  encode: Values -> string, canon: string -> string)
    ensures Verdict(suite, test, response, None, PolledBody(None), encode, canon)
      <==> response.Some? && test.sqli && response.value.status == StatusForbidden
  {
  }

  /**
    For an injection in the body, a pass needs only an empty captured body and a
    403: a request the proxy forwarded with its body stripped passes too.
    For an injection elsewhere, a pass needs that nothing arrived and a 403.
  */
  lemma BlockedVerdicts(suite: TestSuite, test: TestRequest, response: Response, received: Option<Captured>,
                        receivedBody: string, encode: Values -> string, canon: string -> string)
    requires test.sqli
    ensures test.sqliBody ==>
      (Verdict(suite, test, Some(response), received, receivedBody, encode, canon) <==> receivedBody == "" && response.status == StatusForbidden)
    ensures !test.sqliBody ==>
      (Verdict(suite, test, Some(response), received, receivedBody, encode, canon) <==> received.None? && response.status == StatusForbidden)
  {
  }

  /**
    Captured headers and cookies that the template did not set never change the
    verdict.
  */
  lemma {:induction false} UnsetFieldsIgnored(suite: TestSuite, test: TestRequest, response: Option<Response>,
                            path: string, headers: map<string, string>, extraHeaders: map<string, string>,
                            cookies: map<string, string>, extraCookies: map<string, string>,
                            receivedBody: string, encode: Values -> string, canon: string -> string)
    requires forall k | k in test.headers :: canon(k) !in extraHeaders
    requires forall k | k in test.cookies :: k !in extraCookies
    ensures Verdict(suite, test, response, Some(Captured(path, headers + extraHeaders, cookies + extraCookies)), receivedBody, encode, canon)
        == Verdict(suite, test, response, Some(Captured(path, headers, cookies)), receivedBody, encode, canon)
  {
    assert forall k | k in test.headers :: HeaderGet(headers + extraHeaders, canon, k) == HeaderGet(headers, canon, k);
  }

  /** What the capture server's `Cookie(name)` finds: the first cookie sent under each name. */
  function CookieJar(pairs: seq<(string, string)>): map<string, string>
  {
    if pairs == [] then map[] else CookieJar(pairs[1..])[pairs[0].0 := pairs[0].1]
  }

  /** Cookies that all agree with a map read back from the jar with those values. */
  lemma {:induction false} CookieJarAgrees(pairs: seq<(string, string)>, m: map<string, string>)
    requires forall p | p in pairs :: p.0 in m && m[p.0] == p.1
    ensures forall k | k in m && (k, m[k]) in pairs :: k in CookieJar(pairs) && CookieJar(pairs)[k] == m[k]
    ensures forall k | k in CookieJar(pairs) :: k in m && CookieJar(pairs)[k] == m[k]
  {
    if pairs != [] {
      assert forall p | p in pairs[1..] :: p in pairs;
      CookieJarAgrees(pairs[1..], m);
      forall k | k in m && (k, m[k]) in pairs ensures k in CookieJar(pairs) && CookieJar(pairs)[k] == m[k] {
        if k != pairs[0].0 {
          assert (k, m[k]) in pairs[1..];
        }
      }
    }
  }

  /**
    A proxy that forwards a case without injection unchanged, and relays the
    server's answer, passes it: the built request's headers read back under
    their canonical names, its cookies through the jar, its body as sent.
  */
  lemma IntactForwardingPasses(suite: TestSuite, test: TestRequest, w: WireRequest,
                               encode: Values -> string, canon: string -> string)
    requires BuiltFrom(w, suite, test, encode, canon)
    requires !test.sqli
    requires forall k | k in test.headers :: Unshadowed(test.headers, canon, k)
    ensures Verdict(suite, test, Some(Response(StatusOK, suite.serverMessage)),
                    Some(Captured(test.path, w.headers, CookieJar(w.cookies))), w.body, encode, canon)
  {
    CookieJarAgrees(w.cookies, test.cookies);
    assert forall k | k in test.headers :: canon(k) in w.headers;
  }

  /** How a run ended: cases reported passed in order, the failing case if any, teardown and exit status. */
  datatype RunReport = RunReport(passed: seq<string>, failed: Option<string>, serverClosed: bool, exitStatus: int)

  /**
    `RunRequests` with `RunTestRequest` and `fail`: cases run one at a time in
    `order`, the map's iteration order; `verdictOf` gives each case's `Eval`
    verdict. The first failure ends the process at once, with exit status 0 and
    the server left open; later cases are never run.
  */
  method RunRequests(suite: TestSuite, order: seq<string>, verdictOf: string -> bool) returns (report: RunReport)
    requires forall n :: n in order <==> n in suite.requests
    ensures |report.passed| <= |order| && report.passed == order[..|report.passed|]
    ensures forall n | n in report.passed :: verdictOf(n)
    ensures report.failed.None? ==> report.passed == order && forall n | n in suite.requests :: verdictOf(n)
    ensures report.failed.Some? ==>
      && |report.passed| < |order|
      && report.failed.value == order[|report.passed|]
      && report.failed.value in suite.requests
      && !verdictOf(report.failed.value)
    ensures report.serverClosed <==> report.failed.None?
    ensures report.exitStatus == 0
  {
    var passed: seq<string> := [];
    for i := 0 to |order|
      invariant passed == order[..i]
      invariant forall n | n in passed :: verdictOf(n)
    {
      var name := order[i];
      if !verdictOf(name) {
        return RunReport(passed, Some(name), false, 0);
      }
      passed := passed + [name];
    }
    assert order[..|order|] == order;
    return RunReport(passed, None, true, 0);
  }
}
