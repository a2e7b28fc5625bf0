/**
 * The legacy runner (internal/runner): a test case is one request whose URL is a Go template
 * over the environment, followed by a list of validations, each a status-code prefix and an
 * optional JSON-path equality. The environment, the template engine, the transport and gjson
 * are given as functions. A run that panics or exits the process is reported as a `Halt`.
 */
module Runner {
  import opened Wrappers
  import opened GoStrings
  import opened GoStrconv
  import opened Values

  /** The `extract_test` block of a validation (config.go:9-12); the runner never reads it. */
  datatype ExtractTest = ExtractTest(jsonPath: string, test: string)

  /** The `compare` block (config.go:14-18); `expected` is whatever YAML decoded. */
  datatype Compare = Compare(jsonPath: string, comparator: string, expected: Value)

  /** One validation (config.go:20-24). */
  datatype Validation = Validation(statusCode: string, extractTest: ExtractTest, compare: Compare)

  /** A test case (config.go:25-32). */
  datatype TestCase = TestCase(
    name: string,
    url: string,
    httpMethod: string,
    headers: map<string, string>,
    body: string,
    validation: seq<Validation>)

  /** The errors RunTest records. */
  datatype RunError =
    | TemplateFailed(cause: string)
    | CreateFailed(cause: string)
    | TransportFailed(cause: string)
    | StatusMismatch      // "status code does not match"
    | PathMissing         // "json path does not exist"
    | PathMismatch        // "json path does not match"

  /**
   * Ways RunTest does not return: template.Must panics on a URL that does not parse, log.Fatal
   * exits on a body that cannot be read, and `!=` panics on two slices or two maps.
   */
  datatype Halt = TemplatePanic(cause: string) | ReadBodyFatal(cause: string) | ComparePanic

  /** The runner's TestResult: the test case as given (URL not interpolated), the verdict, the status and the error. */
  datatype RunResult = RunResult(testCase: TestCase, passed: bool, statusCode: int, error: Option<RunError>)

  /** The request handed to the transport. */
  datatype RunnerRequest = RunnerRequest(httpMethod: string, url: string, body: string, headers: map<string, string>)

  /** A response: the status and the body, or the error reading it. */
  datatype Reply = Reply(statusCode: int, body: Result<string, string>)

  /**
   * What RunTest reaches outside: os.Environ, the template's parse error (None when it parses),
   * its execution over the environment, http.NewRequest's error, the transport, and gjson.Get,
   * None when the path does not exist and a JSON number as a VFloat.
   */
  datatype RunnerIo = RunnerIo(
    env: seq<string>,
    parseTemplate: string -> Option<string>,
    executeTemplate: (string, map<string, string>) -> Result<string, string>,
    newRequest: (string, string) -> Option<string>,
    send: RunnerRequest -> Result<Reply, string>,
    gjsonGet: (string, string) -> Option<Value>)

  /** The verdict of one or more validations. */
  datatype Validated = Valid | Invalid(error: RunError) | Halted(halt: Halt)

  // ---------------------------------------------------------------------------------------
  // The environment

  /** The data the URL template sees: each `KEY=VALUE` entry split at its first `=`, later entries winning. */
  function EnvVars(env: seq<string>): map<string, string>
    decreases |env|
  {
    if env == [] then map[]
    else
      var data := EnvVars(env[..|env| - 1]);
      match SplitOnce(env[|env| - 1], '=')
      case None => data
      case Some((key, value)) => data[key := value]
  }

  /** getEnvVars */
  method GetEnvVars(env: seq<string>) returns (data: map<string, string>)
    ensures data == EnvVars(env)
  {
    data := map[];
    var i := 0;
    while i < |env|
      invariant 0 <= i <= |env|
      invariant data == EnvVars(env[..i])
    {
      assert env[..i + 1][..i] == env[..i];
      var keyValue := SplitOnce(env[i], '=');
      if keyValue.Some? {
        data := data[keyValue.value.0 := keyValue.value.1];
      }
      i := i + 1;
    }
    assert env[..i] == env;
  }

  // ---------------------------------------------------------------------------------------
  // One validation

  /** The status prefix a validation demands: "2" when it names none. */
  function StatusPrefix(v: Validation): (prefix: string)
    ensures prefix != ""
    ensures v.statusCode != "" ==> prefix == v.statusCode
    ensures v.statusCode == "" ==> prefix == "2"
  {
    if v.statusCode == "" then "2" else v.statusCode
  }

  /** Go's `!=` between two interface values: false across dynamic types, a panic on two slices or two maps. */
  function InterfaceEqual(a: Value, b: Value): (r: Option<bool>)
    ensures r.None? <==> SameKind(a, b) && !Comparable(a)
    ensures r.Some? ==> (r.value <==> a == b)
  {
    if !SameKind(a, b) then Some(false)
    else if !Comparable(a) then None
    else Some(a == b)
  }

  /** Two values of the same dynamic type. */
  predicate SameKind(a: Value, b: Value)
  {
    match (a, b)
    case (VNull, VNull) => true
    case (VBool(_), VBool(_)) => true
    case (VInt(_), VInt(_)) => true
    case (VFloat(_), VFloat(_)) => true
    case (VStr(_), VStr(_)) => true
    case (VStrings(_), VStrings(_)) => true
    case (VList(_), VList(_)) => true
    case (VObj(_), VObj(_)) => true
    case _ => false
  }

  /** Values whose type `==` accepts: everything but slices and maps. */
  predicate Comparable(a: Value)
  {
    !(a.VStrings? || a.VList? || a.VObj?)
  }

  /** The expected value as compared: an int becomes a float64 when the located value is a JSON number. */
  function Coerced(located: Value, expected: Value): (e: Value)
    ensures located.VFloat? && expected.VInt? ==> e == VFloat(expected.i as real)
    ensures !(located.VFloat? && expected.VInt?) ==> e == expected
  {
    if located.VFloat? && expected.VInt? then VFloat(expected.i as real) else expected
  }

  /** One iteration of performValidation over the body text it read. */
  function CheckOne(v: Validation, status: int, text: string, gjsonGet: (string, string) -> Option<Value>): Validated
  {
    if !HasPrefix(Itoa(status), StatusPrefix(v)) then Invalid(StatusMismatch)
    else if v.compare.jsonPath == "" then Valid
    else
      match gjsonGet(text, v.compare.jsonPath)
      case None => Invalid(PathMissing)
      case Some(located) =>
        match InterfaceEqual(located, Coerced(located, v.compare.expected))
        case None => Halted(ComparePanic)
        case Some(equal) => if equal then Valid else Invalid(PathMismatch)
  }

  /**
   * performValidation over the validations, `body` being what the next read of the response
   * body yields: the first read drains it, so every later validation reads "".
   */
  function Validate(vs: seq<Validation>, status: int, body: Result<string, string>,
                    gjsonGet: (string, string) -> Option<Value>): Validated
    decreases |vs|
  {
    if vs == [] then Valid
    else
      match body
      case Err(cause) => Halted(ReadBodyFatal(cause))
      case Ok(text) =>
        match CheckOne(vs[0], status, text, gjsonGet)
        case Valid => Validate(vs[1..], status, Ok(""), gjsonGet)
        case stop => stop
  }

  /** A response body: a reader whose ReadAll drains it. */
  class ResponseBody {
    var unread: Result<string, string>

    constructor(body: Result<string, string>)
      ensures unread == body
    {
      unread := body;
    }

    /** io.ReadAll: what is left, after which nothing is. */
    method ReadAll() returns (r: Result<string, string>)
      modifies this
      ensures r == old(unread)
      ensures unread == if r.Ok? then Ok("") else old(unread)
    {
      r := unread;
      if r.Ok? {
        unread := Ok("");
      }
    }
  }

  /** performValidation: the validations in order, stopping at the first that fails. */
  method PerformValidation(testCase: TestCase, status: int, body: ResponseBody, gjsonGet: (string, string) -> Option<Value>)
    returns (r: Validated)
    modifies body
    ensures r == Validate(testCase.validation, status, old(body.unread), gjsonGet)
    ensures body.unread == if testCase.validation != [] && old(body.unread).Ok? then Ok("") else old(body.unread)
  {
    var vs := testCase.validation;
    ghost var goal := Validate(vs, status, old(body.unread), gjsonGet);
    var i := 0;
    assert vs[0..] == vs;
    while i < |vs|
      invariant 0 <= i <= |vs|
      invariant goal == Validate(vs[i..], status, body.unread, gjsonGet)
      invariant body.unread == if i > 0 && old(body.unread).Ok? then Ok("") else old(body.unread)
    {
      var validation := vs[i];
      ValidateFirst(vs[i..], status, body.unread, gjsonGet);
      assert vs[i..][0] == validation && vs[i..][1..] == vs[i + 1..];
      var bodyBytes := body.ReadAll();
      if bodyBytes.Err? {
        return Halted(ReadBodyFatal(bodyBytes.error));
      }
      var verdict := CheckValidation(validation, status, bodyBytes.value, gjsonGet);
      if !verdict.Valid? {
        return verdict;
      }
      i := i + 1;
    }
    return Valid;
  }

  // ---------------------------------------------------------------------------------------
  // One test case

  /** The first validation: a failed read halts, a failed check stops, a passed one goes on with an empty body. */
  lemma ValidateFirst(vs: seq<Validation>, status: int, body: Result<string, string>, gjsonGet: (string, string) -> Option<Value>)
    requires vs != []
    ensures body.Err? ==> Validate(vs, status, body, gjsonGet) == Halted(ReadBodyFatal(body.error))
    ensures body.Ok? && !CheckOne(vs[0], status, body.value, gjsonGet).Valid? ==>
      Validate(vs, status, body, gjsonGet) == CheckOne(vs[0], status, body.value, gjsonGet)
    ensures body.Ok? && CheckOne(vs[0], status, body.value, gjsonGet).Valid? ==>
      Validate(vs, status, body, gjsonGet) == Validate(vs[1..], status, Ok(""), gjsonGet)
  {
  }

  /** The status and comparison checks of one validation in performValidation. */
  method CheckValidation(validation: Validation, status: int, bodyString: string, gjsonGet: (string, string) -> Option<Value>)
    returns (r: Validated)
    ensures r == CheckOne(validation, status, bodyString, gjsonGet)
  {
    var statusCodeToCheck := validation.statusCode;
    if statusCodeToCheck == "" {
      statusCodeToCheck := "2";
    }
    if !HasPrefix(Itoa(status), statusCodeToCheck) {
      return Invalid(StatusMismatch);
    }
    var jsonPath := validation.compare.jsonPath;
    if jsonPath != "" {
      var value := gjsonGet(bodyString, jsonPath);
      if value.None? {
        return Invalid(PathMissing);
      }
      var val := value.value;
      var expected := validation.compare.expected;
      if val.VFloat? && expected.VInt? {
        expected := VFloat(expected.i as real);
      }
      var equal := InterfaceEqual(val, expected);
      if equal.None? {
        return Halted(ComparePanic);
      }
      if !equal.value {
        return Invalid(PathMismatch);
      }
    }
    return Valid;
  }

  /** RunTest: the result it returns, or how it halts. */
  function RunOutcome(testCase: TestCase, io: RunnerIo): Result<RunResult, Halt>
  {
    var failed := RunResult(testCase, false, 0, None);
    match io.parseTemplate(testCase.url)
    case Some(cause) => Err(TemplatePanic(cause))
    case None =>
      match io.executeTemplate(testCase.url, EnvVars(io.env))
      case Err(cause) => Ok(failed.(error := Some(TemplateFailed(cause))))
      case Ok(url) =>
        match io.newRequest(testCase.httpMethod, url)
        case Some(cause) => Ok(failed.(error := Some(CreateFailed(cause))))
        case None =>
          match io.send(RunnerRequest(testCase.httpMethod, url, testCase.body, testCase.headers))
          case Err(cause) => Ok(failed.(error := Some(TransportFailed(cause))))
          case Ok(reply) =>
            var answered := failed.(statusCode := reply.statusCode);
            match Validate(testCase.validation, reply.statusCode, reply.body, io.gjsonGet)
            case Halted(halt) => Err(halt)
            case Invalid(e) => Ok(answered.(error := Some(e)))
            case Valid => Ok(answered.(passed := true))
  }

  /** RunTest, step by step. */
  method RunTest(testCase: TestCase, io: RunnerIo) returns (r: Result<RunResult, Halt>)
    ensures r == RunOutcome(testCase, io)
  {
    var data := GetEnvVars(io.env);
    var result := RunResult(testCase, false, 0, None);
    var parseError := io.parseTemplate(testCase.url);
    if parseError.Some? {
      return Err(TemplatePanic(parseError.value));
    }
    var finalUrl := io.executeTemplate(testCase.url, data);
    if finalUrl.Err? {
      result := result.(error := Some(TemplateFailed(finalUrl.error)));
      return Ok(result);
    }
    var interpolated := testCase.(url := finalUrl.value);
    var creation := io.newRequest(interpolated.httpMethod, interpolated.url);
    if creation.Some? {
      result := result.(error := Some(CreateFailed(creation.value)));
      return Ok(result);
    }
    var resp := io.send(RunnerRequest(interpolated.httpMethod, interpolated.url, interpolated.body, interpolated.headers));
    if resp.Err? {
      result := result.(error := Some(TransportFailed(resp.error)));
      return Ok(result);
    }
    result := result.(statusCode := resp.value.statusCode);
    var body := new ResponseBody(resp.value.body);
    var err := PerformValidation(interpolated, resp.value.statusCode, body, io.gjsonGet);
    if err.Halted? {
      return Err(err.halt);
    }
    if err.Invalid? {
      result := result.(error := Some(err.error));
      return Ok(result);
    }
    result := result.(passed := true);
    return Ok(result);
  }

  // ---------------------------------------------------------------------------------------
  // Properties

  /** A validation that checks only the status code. */
  function StatusOnly(prefix: string): Validation
  {
    Validation(prefix, ExtractTest("", ""), Compare("", "", VNull))
  }

  /** The status rule: a 404 passes "4" and "404", fails "42" and the default "2"; a 201 passes the default. */
  lemma StatusPrefixExamples(text: string, gjsonGet: (string, string) -> Option<Value>)
    ensures CheckOne(StatusOnly("4"), 404, text, gjsonGet) == Valid
    ensures CheckOne(StatusOnly("404"), 404, text, gjsonGet) == Valid
    ensures CheckOne(StatusOnly("42"), 404, text, gjsonGet) == Invalid(StatusMismatch)
    ensures CheckOne(StatusOnly(""), 404, text, gjsonGet) == Invalid(StatusMismatch)
    ensures CheckOne(StatusOnly(""), 201, text, gjsonGet) == Valid
  {
    assert Itoa(404) == "404" && Itoa(201) == "201";
    assert "404"[..1] == "4" && "404"[..2] == "40" && "404"[..3] == "404";
    assert "201"[..1] == "2";
  }

  /** The first verdict that is not Valid, or Valid when there is none. */
  function FirstVerdict(verdicts: seq<Validated>): (r: Validated)
    decreases |verdicts|
  {
    if verdicts == [] then Valid
    else if verdicts[0] != Valid then verdicts[0]
    else FirstVerdict(verdicts[1..])
  }

  /**
   * performValidation judges each validation on its own, the first on the body and every
   * later one on "", and reports the first verdict that is not a pass.
   */
  lemma {:induction false} ValidateFirstFailure(vs: seq<Validation>, status: int, text: string,
                                                gjsonGet: (string, string) -> Option<Value>)
    ensures Validate(vs, status, Ok(text), gjsonGet) ==
      FirstVerdict(seq(|vs|, i requires 0 <= i < |vs| => CheckOne(vs[i], status, if i == 0 then text else "", gjsonGet)))
    decreases |vs|
  {
    var verdicts := seq(|vs|, i requires 0 <= i < |vs| => CheckOne(vs[i], status, if i == 0 then text else "", gjsonGet));
    if vs != [] {
      var rest := vs[1..];
      ValidateFirstFailure(rest, status, "", gjsonGet);
      var later := seq(|rest|, i requires 0 <= i < |rest| => CheckOne(rest[i], status, if i == 0 then "" else "", gjsonGet));
      assert verdicts[1..] == later;
    }
  }

  /** A validation of the value at `path` against `expected`, status left to the default. */
  function PathEquals(path: string, expected: Value): Validation
  {
    Validation("", ExtractTest("", ""), Compare(path, "eq", expected))
  }

  /**
   * The body is drained by the first validation: two identical checks of `id` on a body that
   * holds it, the first passes and the second finds no `id` in "".
   */
  lemma SecondValidationSeesEmptyBody(text: string, gjsonGet: (string, string) -> Option<Value>)
    requires gjsonGet(text, "id") == Some(VFloat(1.0)) && gjsonGet("", "id") == None
    ensures CheckOne(PathEquals("id", VInt(1)), 200, text, gjsonGet) == Valid
    ensures Validate([PathEquals("id", VInt(1))], 200, Ok(text), gjsonGet) == Valid
    ensures Validate([PathEquals("id", VInt(1)), PathEquals("id", VInt(1))], 200, Ok(text), gjsonGet) == Invalid(PathMissing)
  {
    assert Itoa(200) == "200" && "200"[..1] == "2";
    assert [PathEquals("id", VInt(1)), PathEquals("id", VInt(1))][1..] == [PathEquals("id", VInt(1))];
  }

  /**
   * With the status accepted and a path given: a missing path fails, a JSON number matches an
   * expected int exactly when their values are equal, any other pair of types compares by `==`,
   * and two slices or two maps panic.
   */
  lemma ComparisonRules(v: Validation, status: int, text: string, gjsonGet: (string, string) -> Option<Value>)
    requires HasPrefix(Itoa(status), StatusPrefix(v)) && v.compare.jsonPath != ""
    ensures var found := gjsonGet(text, v.compare.jsonPath);
      var expected := v.compare.expected;
      var r := CheckOne(v, status, text, gjsonGet);
      && (found.None? ==> r == Invalid(PathMissing))
      && (found.Some? && found.value.VFloat? && expected.VInt? ==>
            (r == Valid <==> found.value.f == expected.i as real) && (r != Valid ==> r == Invalid(PathMismatch)))
      && (found.Some? && !(found.value.VFloat? && expected.VInt?) && Comparable(expected) ==>
            (r == Valid <==> found.value == expected) && (r != Valid ==> r == Invalid(PathMismatch)))
      && (found.Some? && SameKind(found.value, expected) && !Comparable(expected) ==> r == Halted(ComparePanic))
  {
  }

  /** A JSON number never equals an expected string, even one that spells it. */
  lemma NumberIsNotString(status: int, text: string, gjsonGet: (string, string) -> Option<Value>)
    requires HasPrefix(Itoa(status), "2") && gjsonGet(text, "id") == Some(VFloat(1.0))
    ensures CheckOne(PathEquals("id", VStr("1")), status, text, gjsonGet) == Invalid(PathMismatch)
  {
  }

  /**
   * RunTest keeps the test case as given and passes exactly when the URL template runs, the
   * request is built and answered, and every validation passes; otherwise the error says why.
   */
  lemma RunVerdict(testCase: TestCase, io: RunnerIo)
    requires RunOutcome(testCase, io).Ok?
    ensures var result := RunOutcome(testCase, io).value;
      && result.testCase == testCase
      && (result.passed <==> result.error.None?)
      && (result.passed <==>
            && io.executeTemplate(testCase.url, EnvVars(io.env)).Ok?
            && var url := io.executeTemplate(testCase.url, EnvVars(io.env)).value;
            && io.newRequest(testCase.httpMethod, url).None?
            && var sent := io.send(RunnerRequest(testCase.httpMethod, url, testCase.body, testCase.headers));
            && sent.Ok?
            && Validate(testCase.validation, sent.value.statusCode, sent.value.body, io.gjsonGet) == Valid)
  {
  }

  /** Without validations any answered request passes, whatever its status, and its body is never read. */
  lemma NoValidationsPass(testCase: TestCase, io: RunnerIo)
    requires testCase.validation == [] && io.parseTemplate(testCase.url).None?
    requires var url := io.executeTemplate(testCase.url, EnvVars(io.env));
      && url.Ok?
      && io.newRequest(testCase.httpMethod, url.value).None?
      && io.send(RunnerRequest(testCase.httpMethod, url.value, testCase.body, testCase.headers)).Ok?
    ensures RunOutcome(testCase, io).Ok? && RunOutcome(testCase, io).value.passed
  {
  }

  /** The key an environment entry defines, if it has a `=`. */
  function EntryKey(entry: string): Option<string>
  {
    match SplitOnce(entry, '=')
    case None => None
    case Some((key, _)) => Some(key)
  }

  /** A key is in the data exactly when some entry defines it. */
  lemma {:induction false} EnvKeys(env: seq<string>, key: string)
    ensures key in EnvVars(env) <==> exists i :: 0 <= i < |env| && EntryKey(env[i]) == Some(key)
    decreases |env|
  {
    if env != [] {
      var last := |env| - 1;
      var front := env[..last];
      EnvKeys(front, key);
      if EntryKey(env[last]) == Some(key) {
        assert key in EnvVars(env);
      } else {
        assert key in EnvVars(env) <==> key in EnvVars(front);
        DefinedInFront(env, front, key);
      }
    }
  }

  /** When the last entry does not define the key, an entry defining it is one of the others. */
  lemma DefinedInFront(env: seq<string>, front: seq<string>, key: string)
    requires env != [] && front == env[..|env| - 1] && EntryKey(env[|env| - 1]) != Some(key)
    ensures (exists i :: 0 <= i < |env| && EntryKey(env[i]) == Some(key))
      <==> (exists i :: 0 <= i < |front| && EntryKey(front[i]) == Some(key))
  {
    if i :| 0 <= i < |env| && EntryKey(env[i]) == Some(key) {
      assert front[i] == env[i];
    }
    if i :| 0 <= i < |front| && EntryKey(front[i]) == Some(key) {
      assert front[i] == env[i];
    }
  }

  /** Entry `i` defines `key` as `value`, and no later entry defines `key`. */
  ghost predicate DefinedLastAt(env: seq<string>, key: string, i: int, value: string)
  {
    && 0 <= i < |env|
    && SplitOnce(env[i], '=') == Some((key, value))
    && forall j :: i < j < |env| ==> EntryKey(env[j]) != Some(key)
  }

  /** The value of a key is the one of the last entry that defines it. */
  lemma {:induction false} EnvLastWins(env: seq<string>, key: string)
    requires key in EnvVars(env)
    ensures exists i :: DefinedLastAt(env, key, i, EnvVars(env)[key])
    decreases |env|
  {
    var last := |env| - 1;
    var front := env[..last];
    if EntryKey(env[last]) == Some(key) {
      assert DefinedLastAt(env, key, last, EnvVars(env)[key]);
    } else {
      assert EnvVars(env)[key] == EnvVars(front)[key];
      EnvLastWins(front, key);
      var i :| DefinedLastAt(front, key, i, EnvVars(front)[key]);
      DefinedLastExtend(env, key, i, EnvVars(front)[key]);
    }
  }

  /** An entry that does not define the key keeps the last definition the last. */
  lemma DefinedLastExtend(env: seq<string>, key: string, i: int, value: string)
    requires env != [] && DefinedLastAt(env[..|env| - 1], key, i, value)
    requires EntryKey(env[|env| - 1]) != Some(key)
    ensures DefinedLastAt(env, key, i, value)
  {
    var front := env[..|env| - 1];
    assert front[i] == env[i];
    forall j | i < j < |env|
      ensures EntryKey(env[j]) != Some(key)
    {
      if j < |env| - 1 {
        assert front[j] == env[j];
      }
    }
  }

  /** An entry is split at its first `=` only, and an entry without one is skipped. */
  lemma EnvSplitsAtFirstEquals(env: seq<string>, key: string, value: string, bare: string)
    requires '=' !in key && '=' !in bare
    ensures EnvVars(env + [key + "=" + value]) == EnvVars(env)[key := value]
    ensures EnvVars(env + [bare]) == EnvVars(env)
  {
    var entry := key + "=" + value;
    assert (env + [entry])[..|env|] == env && (env + [bare])[..|env|] == env;
    assert '=' in entry by {
      assert entry[|key|] == '=';
    }
    var split := SplitOnce(entry, '=').value;
    SplitUnique(key, value, split.0, split.1);
  }

  /** The text of an entry up to its key's length is the key, followed by `=`. */
  lemma SeparatorAt(k: string, v: string)
    ensures (k + "=" + v)[|k|] == '='
    ensures forall i :: 0 <= i < |k| ==> (k + "=" + v)[i] == k[i]
  {
  }

  /** Splitting at the first `=` is unique: the part before it holds no `=`. */
  lemma SplitUnique(k1: string, v1: string, k2: string, v2: string)
    requires '=' !in k1 && '=' !in k2
    requires k1 + "=" + v1 == k2 + "=" + v2
    ensures k1 == k2 && v1 == v2
  {
    var s := k1 + "=" + v1;
    SeparatorAt(k1, v1);
    SeparatorAt(k2, v2);
    assert |k1| == |k2| by {
      if |k1| != |k2| {
        assert false;
      }
    }
    assert k1 == s[..|k1|] == k2;
    assert v1 == s[|k1| + 1..] == v2;
  }
}
