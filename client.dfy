/**
 * The HTTP client (client.go): how a test becomes a request (URL join, method default, body
 * or body file, interpolation), the client's timeout, which a test's own timeout overwrites
 * for good, and the result record built from the response. The transport, the file system and
 * the clock are given as functions.
 */
module Client {
  import opened Wrappers
  import opened GoStrings
  import opened MapOrder
  import opened Types
  import opened Interpolation

  /** The client's timeout at construction: 30 seconds, in nanoseconds. */
  const DefaultTimeout: int := 30_000_000_000

  /** A request as handed to the transport; `body` is None for a request without one. */
  datatype Request = Request(httpMethod: string, url: string, body: Option<string>, headers: map<string, string>, timeout: int)

  /** A response; `body` is the error when reading the body fails. */
  datatype Response = Response(statusCode: int, headers: map<string, seq<string>>, body: Result<string, string>)

  /**
   * What the client reaches outside the process: os.ReadFile, http.NewRequest's error (None
   * when the request can be built), the transport (http.Client.Do) and the time the call took.
   */
  datatype Io = Io(
    readFile: string -> Result<string, string>,
    newRequest: (string, string) -> Option<string>,
    send: Request -> Result<Response, string>,
    elapsed: nat)

  /** buildURL: an absolute URL is kept; otherwise base and path are joined with one `/`. */
  function BuildURL(baseURL: string, path: string): (url: string)
    ensures HasPrefix(path, "http://") || HasPrefix(path, "https://") ==> url == path
  {
    if HasPrefix(path, "http://") || HasPrefix(path, "https://") then path
    else
      var base := TrimSuffix(baseURL, "/");
      var rest := TrimPrefix(path, "/");
      if base == "" then rest else base + "/" + rest
  }

  /** The method sent: upper-cased, GET when none is given. */
  function RequestMethod(httpMethod: string): (m: string)
    ensures httpMethod == "" ==> m == "GET"
    ensures httpMethod != "" ==> m == ToUpper(httpMethod) && |m| == |httpMethod|
  {
    var upper := ToUpper(httpMethod);
    if upper == "" then "GET" else upper
  }

  /**
   * The body sent: both `body` and `body_file` is an error; an inline body is interpolated; a
   * body file's path is interpolated before reading and its contents after.
   */
  function RequestBody(test: Test, variables: map<string, string>, readFile: string -> Result<string, string>)
    : (r: Result<Option<string>, Failure>)
    ensures test.body != "" && test.bodyFile != "" <==> r == Err(BothBodies)
    ensures test.body != "" && test.bodyFile == "" ==> r == Ok(Some(Interpolate(test.body, variables)))
    ensures test.body == "" && test.bodyFile == "" ==> r == Ok(None)
    ensures test.body == "" && test.bodyFile != "" ==>
      var path := Interpolate(test.bodyFile, variables);
      match readFile(path)
      case Err(cause) => r == Err(BodyFileUnreadable(path, cause))
      case Ok(contents) => r == Ok(Some(Interpolate(contents, variables)))
  {
    if test.body != "" && test.bodyFile != "" then Err(BothBodies)
    else if test.body != "" then Ok(Some(Interpolate(test.body, variables)))
    else if test.bodyFile != "" then
      var path := Interpolate(test.bodyFile, variables);
      match readFile(path)
      case Err(cause) => Err(BodyFileUnreadable(path, cause))
      case Ok(contents) => Ok(Some(Interpolate(contents, variables)))
    else Ok(None)
  }

  /** The request headers: each value interpolated. */
  function RequestHeaders(headers: map<string, string>, variables: map<string, string>): (r: map<string, string>)
    ensures r.Keys == headers.Keys
    ensures forall k :: k in headers ==> r[k] == Interpolate(headers[k], variables)
  {
    map k | k in headers :: Interpolate(headers[k], variables)
  }

  /** The headers set in the order `range` visits them. */
  method SetHeaders(headers: map<string, string>, variables: map<string, string>, order: seq<string>)
    returns (set_: map<string, string>)
    requires Enumerates(order, headers)
    ensures set_ == RequestHeaders(headers, variables)
  {
    ghost var target := RequestHeaders(headers, variables);
    set_ := map[];
    var i := 0;
    while i < |order|
      invariant 0 <= i <= |order|
      invariant BuiltAlong(set_, target, order, i)
    {
      var key := order[i];
      BuildAlongStep(set_, target, order, i);
      set_ := set_[key := Interpolate(headers[key], variables)];
      i := i + 1;
    }
    BuildAlongDone(set_, target, order);
  }

  /** The timeout in force for the request: a positive per-test timeout replaces the client's. */
  function EffectiveTimeout(clientTimeout: int, test: Test): (t: int)
    ensures test.timeout > 0 ==> t == test.timeout
    ensures test.timeout <= 0 ==> t == clientTimeout
  {
    if test.timeout > 0 then test.timeout else clientTimeout
  }

  /** The request the client hands to the transport, or why none is built. */
  function PlannedRequest(baseURL: string, clientTimeout: int, test: Test, variables: map<string, string>, io: Io)
    : Result<Request, Failure>
  {
    var url := Interpolate(BuildURL(baseURL, test.url), variables);
    var httpMethod := RequestMethod(test.httpMethod);
    match RequestBody(test, variables, io.readFile)
    case Err(f) => Err(f)
    case Ok(body) =>
      match io.newRequest(httpMethod, url)
      case Some(cause) => Err(CreateRequestFailed(cause))
      case None => Ok(Request(httpMethod, url, body, RequestHeaders(test.headers, variables), EffectiveTimeout(clientTimeout, test)))
  }

  /** A failure record before any response: only the name and the message are set. */
  function Unanswered(name: string, error: Failure): TestResult
  {
    TestResult(name, false, 0, 0, "", map[], error, None)
  }

  /**
   * What ExecuteRequest returns: the result record, the error it returns (NoFailure for nil),
   * and the client's timeout afterwards.
   */
  function RequestOutcome(baseURL: string, clientTimeout: int, test: Test, variables: map<string, string>, io: Io)
    : (TestResult, Failure, int)
  {
    match PlannedRequest(baseURL, clientTimeout, test, variables, io)
    case Err(CreateRequestFailed(cause)) => (Unanswered(test.name, CreateRequestFailed(cause)), Cause(cause), clientTimeout)
    case Err(f) => (Unanswered(test.name, f), f, clientTimeout)
    case Ok(request) => Exchange(test.name, request, io)
  }

  /** What ExecuteRequest returns, by what became of the planned request. */
  lemma RequestOutcomeOfPlan(baseURL: string, clientTimeout: int, test: Test, variables: map<string, string>, io: Io)
    ensures var outcome := RequestOutcome(baseURL, clientTimeout, test, variables, io);
      match PlannedRequest(baseURL, clientTimeout, test, variables, io)
      case Ok(request) => outcome == Exchange(test.name, request, io)
      case Err(f) => outcome == (Unanswered(test.name, f), if f.CreateRequestFailed? then Cause(f.cause) else f, clientTimeout)
  {
  }

  /** Sending a planned request: the record of the answer, the error, and the timeout it was sent with. */
  function Exchange(name: string, request: Request, io: Io): (TestResult, Failure, int)
  {
    match io.send(request)
    case Err(cause) => (Unanswered(name, RequestFailed(cause)).(duration := io.elapsed), Cause(cause), request.timeout)
    case Ok(response) =>
      match response.body
      case Err(cause) =>
        (TestResult(name, false, response.statusCode, io.elapsed, "", response.headers, ReadBodyFailed(cause), None),
         Cause(cause), request.timeout)
      case Ok(text) =>
        (TestResult(name, true, response.statusCode, io.elapsed, text, response.headers, NoFailure, Some(map[])),
         NoFailure, request.timeout)
  }

  /**
   * The steps of ExecuteRequest before the send: the URL, the method, the body, http.NewRequest,
   * the headers and the timeout the request goes out with.
   */
  method PrepareRequest(baseURL: string, clientTimeout: int, test: Test, variables: map<string, string>, io: Io)
    returns (r: Result<Request, Failure>)
    ensures r == PlannedRequest(baseURL, clientTimeout, test, variables, io)
  {
    var url := BuildURL(baseURL, test.url);
    url := Interpolate(url, variables);
    var httpMethod := ToUpper(test.httpMethod);
    if httpMethod == "" {
      httpMethod := "GET";
    }
    assert httpMethod == RequestMethod(test.httpMethod);
    var body := ReadBody(test, variables, io);
    if body.Err? {
      return Err(body.error);
    }
    var creation := io.newRequest(httpMethod, url);
    if creation.Some? {
      return Err(CreateRequestFailed(creation.value));
    }
    SortedKeysEnumerate(test.headers);
    var headers := SetHeaders(test.headers, variables, SortedKeys(test.headers.Keys));
    var requestTimeout := clientTimeout;
    if test.timeout > 0 {
      requestTimeout := test.timeout;
    }
    return Ok(Request(httpMethod, url, body.value, headers, requestTimeout));
  }

  /** The send and read steps of ExecuteRequest. */
  method SendRequest(name: string, request: Request, io: Io) returns (result: TestResult, err: Failure)
    ensures (result, err, request.timeout) == Exchange(name, request, io)
  {
    var response := io.send(request);
    if response.Err? {
      return Unanswered(name, RequestFailed(response.error)).(duration := io.elapsed), Cause(response.error);
    }
    var r := response.value;
    if r.body.Err? {
      return TestResult(name, false, r.statusCode, io.elapsed, "", r.headers, ReadBodyFailed(r.body.error), None),
             Cause(r.body.error);
    }
    return TestResult(name, true, r.statusCode, io.elapsed, r.body.value, r.headers, NoFailure, Some(map[])), NoFailure;
  }

  /** The client of one executor: a base URL and a timeout that requests may overwrite. */
  class HttpClient {
    const baseURL: string
    var timeout: int

    /** NewHTTPClient */
    constructor(baseURL: string)
      ensures this.baseURL == baseURL && timeout == DefaultTimeout
    {
      this.baseURL := baseURL;
      timeout := DefaultTimeout;
    }

    /** ExecuteRequest, step by step; only the timeout of the client changes. */
    method ExecuteRequest(test: Test, variables: map<string, string>, io: Io) returns (result: TestResult, err: Failure)
      modifies this
      ensures (result, err, timeout) == RequestOutcome(baseURL, old(timeout), test, variables, io)
    {
      var planned := PrepareRequest(baseURL, timeout, test, variables, io);
      RequestOutcomeOfPlan(baseURL, timeout, test, variables, io);
      if planned.Err? {
        var failure := planned.error;
        if failure.CreateRequestFailed? {
          return Unanswered(test.name, failure), Cause(failure.cause);
        }
        return Unanswered(test.name, failure), failure;
      }
      if test.timeout > 0 {
        timeout := test.timeout;
      }
      result, err := SendRequest(test.name, planned.value, io);
    }
  }

  /** The body step of ExecuteRequest: the inline body, or the body file read and interpolated. */
  method ReadBody(test: Test, variables: map<string, string>, io: Io) returns (r: Result<Option<string>, Failure>)
    ensures r == RequestBody(test, variables, io.readFile)
  {
    if test.body != "" && test.bodyFile != "" {
      return Err(BothBodies);
    }
    if test.body != "" {
      return Ok(Some(Interpolate(test.body, variables)));
    } else if test.bodyFile != "" {
      var path := Interpolate(test.bodyFile, variables);
      var contents := io.readFile(path);
      if contents.Err? {
        return Err(BodyFileUnreadable(path, contents.error));
      }
      return Ok(Some(Interpolate(contents.value, variables)));
    }
    return Ok(None);
  }

  // ---------------------------------------------------------------------------------------
  // Properties

  /** With a base without a trailing `/` and a path without a leading one, one `/` of either is dropped. */
  lemma BuildURLSingleSlash(base: string, path: string)
    requires base != "" && base[|base| - 1] != '/'
    requires path == "" || path[0] != '/'
    requires !HasPrefix(path, "http://") && !HasPrefix(path, "https://")
    ensures BuildURL(base, path) == base + "/" + path
    ensures BuildURL(base + "/", path) == base + "/" + path
    ensures BuildURL(base, "/" + path) == base + "/" + path
    ensures BuildURL(base + "/", "/" + path) == base + "/" + path
  {
    assert !HasSuffix(base, "/") by {
      assert base[|base| - 1..][0] == base[|base| - 1];
    }
    assert HasSuffix(base + "/", "/") by {
      assert (base + "/")[|base|..] == "/";
    }
    assert !HasPrefix(path, "/") by {
      if |path| >= 1 {
        assert path[..1][0] == path[0];
      }
    }
    assert HasPrefix("/" + path, "/") by {
      assert ("/" + path)[..1] == "/";
    }
    assert (base + "/")[..|base|] == base;
    assert ("/" + path)[1..] == path;
    assert !HasPrefix("/" + path, "http://") && !HasPrefix("/" + path, "https://") by {
      assert ("/" + path)[0] == '/';
    }
  }

  /** Only one trailing `/` of the base goes: `http://api//` and `x` give `http://api//x`. */
  lemma BuildURLTrimsOneSlash()
    ensures BuildURL("http://api//", "x") == "http://api//x"
  {
    assert "x"[..1] == "x";
    assert "http://api//"[11..] == "/";
    assert "http://api//"[..11] == "http://api/";
  }

  /** With an empty base the path is returned without its leading `/`. */
  lemma BuildURLEmptyBase(path: string)
    requires !HasPrefix(path, "http://") && !HasPrefix(path, "https://")
    ensures BuildURL("", path) == TrimPrefix(path, "/")
    ensures BuildURL("/", path) == TrimPrefix(path, "/")
  {
    assert "/"[..0] == "";
  }

  /**
   * The URL is joined before it is interpolated: a path `${api}/users` is never recognised as
   * absolute, even when `api` holds `http://other`; the base is put in front.
   */
  lemma JoinBeforeInterpolation(base: string, k: string, v: string, rest: string)
    requires base != "" && base[|base| - 1] != '/' && '$' !in base
    requires PlainName(k) && '$' !in v && '$' !in rest
    ensures Interpolate(BuildURL(base, Placeholder(k) + rest), map[k := v]) == base + "/" + v + rest
  {
    var path := Placeholder(k) + rest;
    assert path[0] == '$';
    BuildURLSingleSlash(base, path);
    assert base + "/" + path == (base + "/") + Placeholder(k) + rest;
    var vars := map[k := v];
    SortedKeysEnumerate(vars);
    PlaceholderBetween(base + "/", k, rest, vars, SortedKeys(vars.Keys));
  }

  /** A body file path `${dir}/name` is read from the directory the variable holds. */
  lemma BodyFilePathInterpolated(test: Test, k: string, name: string, variables: map<string, string>, io: Io)
    requires test.body == "" && test.bodyFile == Placeholder(k) + name
    requires PlainName(k) && '$' !in name && PlainVariables(variables) && k in variables
    ensures var path := variables[k] + name;
      var r := RequestBody(test, variables, io.readFile);
      match io.readFile(path)
      case Err(cause) => r == Err(BodyFileUnreadable(path, cause))
      case Ok(contents) => r == Ok(Some(Interpolate(contents, variables)))
  {
    PlaceholderFirst(k, name, variables);
    assert test.bodyFile != "";
  }

  /** Both `body` and `body_file`: a failed record with the test's name, nothing built or sent, the timeout kept. */
  lemma BothBodiesRejected(baseURL: string, clientTimeout: int, test: Test, variables: map<string, string>, io: Io)
    requires test.body != "" && test.bodyFile != ""
    ensures RequestOutcome(baseURL, clientTimeout, test, variables, io) ==
      (TestResult(test.name, false, 0, 0, "", map[], BothBodies, None), BothBodies, clientTimeout)
  {
  }

  /**
   * The timeout after a call is the one the request was sent with when one was sent (a
   * positive per-test timeout, else the client's), and the old one otherwise.
   */
  lemma TimeoutAfterCall(baseURL: string, clientTimeout: int, test: Test, variables: map<string, string>, io: Io)
    ensures var after := RequestOutcome(baseURL, clientTimeout, test, variables, io).2;
      match PlannedRequest(baseURL, clientTimeout, test, variables, io)
      case Ok(request) => after == request.timeout == EffectiveTimeout(clientTimeout, test)
      case Err(_) => after == clientTimeout
  {
  }

  /**
   * A per-test timeout is never restored: after a request sent with timeout 5s, the next
   * request of a test without its own timeout is sent with 5s too.
   */
  lemma TimeoutPersists(baseURL: string, clientTimeout: int, first: Test, second: Test,
                        vars1: map<string, string>, vars2: map<string, string>, io1: Io, io2: Io)
    requires first.timeout > 0 && second.timeout <= 0
    requires PlannedRequest(baseURL, clientTimeout, first, vars1, io1).Ok?
    ensures var after := RequestOutcome(baseURL, clientTimeout, first, vars1, io1).2;
      PlannedRequest(baseURL, after, second, vars2, io2).Ok? ==>
        PlannedRequest(baseURL, after, second, vars2, io2).value.timeout == first.timeout
  {
    TimeoutAfterCall(baseURL, clientTimeout, first, vars1, io1);
  }

  /**
   * The returned error is nil exactly for a successful record, which carries the test's name,
   * the body read and an empty variables map; any failure leaves no variables map.
   */
  lemma OutcomeRecord(baseURL: string, clientTimeout: int, test: Test, variables: map<string, string>, io: Io)
    ensures var (result, err, _) := RequestOutcome(baseURL, clientTimeout, test, variables, io);
      && result.name == test.name
      && (err == NoFailure <==> result.success)
      && (result.success ==> result.variables == Some(map[]) && result.error == NoFailure)
      && (!result.success ==> result.variables.None? && result.error != NoFailure)
  {
  }
}
