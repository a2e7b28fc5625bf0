/**
 * The assertion engine (assertions.go): seven kinds of checks on a test result, each with its
 * operators and defaults, the JSON path walk, the int/float normalisation before comparing, and
 * the interpolation of an assertion's path and expected value. A check yields None when it
 * passes and the error it reports otherwise.
 */
module Assertions {
  import opened Wrappers
  import opened GoStrings
  import opened GoStrconv
  import opened Values
  import opened Types
  import opened JsonPath
  import opened Interpolation
  import opened MapOrder

  /** The operator in force: the assertion's own, or the kind's default when it is empty. */
  function OperatorOr(operator: string, default: string): (op: string)
    ensures operator != "" ==> op == operator
    ensures operator == "" ==> op == default
  {
    if operator == "" then default else operator
  }

  /** How status_code and response_time read their expected value. */
  datatype ExpectedNumber = Number(n: int) | Malformed(text: string) | NotANumber

  /** An int as it is, a string through strconv.Atoi, anything else refused. */
  function ReadExpectedNumber(expected: Value): (r: ExpectedNumber)
    ensures r.Number? ==> expected.VInt? || (expected.VStr? && Atoi(expected.s) == Some(r.n))
    ensures r.Malformed? <==> expected.VStr? && Atoi(expected.s).None?
    ensures r.Malformed? ==> r.text == expected.s
    ensures r.NotANumber? <==> !expected.VInt? && !expected.VStr?
  {
    match expected
    case VInt(n) => Number(n)
    case VStr(s) => (match Atoi(s) case Some(n) => Number(n) case None => Malformed(s))
    case _ => NotANumber
  }

  // ---------------------------------------------------------------------------------------
  // The checks

  /** The operators status_code accepts; the empty one means equals. */
  const StatusOperators: set<string> := {"", "equals", "==", "not_equals", "!=", "greater_than", ">", "less_than", "<"}

  /** assertStatusCode: the expected status against the response's status code. */
  function AssertStatusCode(result: TestResult, a: Assertion): (r: Option<AssertionError>)
    ensures a.expected.VStr? && Atoi(a.expected.s).None? ==> r == Some(InvalidStatusCodeFormat(a.expected.s))
    ensures !a.expected.VInt? && !a.expected.VStr? ==> r == Some(StatusCodeNotInteger)
    ensures ReadExpectedNumber(a.expected).Number? ==>
      var expected := ReadExpectedNumber(a.expected).n;
      var status := result.statusCode;
      && (a.operator in {"", "equals", "=="} ==> (r.None? <==> status == expected))
      && (a.operator in {"not_equals", "!="} ==> (r.None? <==> status != expected))
      && (a.operator in {"greater_than", ">"} ==> (r.None? <==> status > expected))
      && (a.operator in {"less_than", "<"} ==> (r.None? <==> status < expected))
      && (a.operator !in StatusOperators ==> r == Some(UnsupportedStatusOperator(a.operator)))
  {
    match ReadExpectedNumber(a.expected)
    case Malformed(text) => Some(InvalidStatusCodeFormat(text))
    case NotANumber => Some(StatusCodeNotInteger)
    case Number(expected) =>
      var op := OperatorOr(a.operator, "equals");
      var status := result.statusCode;
      if op == "equals" || op == "==" then
        (if status != expected then Some(StatusCodeFailed(Equal, expected, status)) else None)
      else if op == "not_equals" || op == "!=" then
        (if status == expected then Some(StatusCodeFailed(NotEqual, expected, status)) else None)
      else if op == "greater_than" || op == ">" then
        (if status <= expected then Some(StatusCodeFailed(Greater, expected, status)) else None)
      else if op == "less_than" || op == "<" then
        (if status >= expected then Some(StatusCodeFailed(Less, expected, status)) else None)
      else Some(UnsupportedStatusOperator(op))
  }

  /** A float against an int, in either order. */
  predicate Mixed(actual: Value, expected: Value)
  {
    (actual.VFloat? && expected.VInt?) || (actual.VInt? && expected.VFloat?)
  }

  /** The number an int or a float stands for. */
  function Numeric(v: Value): real
    requires v.VInt? || v.VFloat?
  {
    if v.VInt? then v.i as real else v.f
  }

  /** normalizeTypes: a float against an int, either way round, compares as two floats. */
  function NormalizeTypes(actual: Value, expected: Value): (r: (Value, Value))
    ensures Mixed(actual, expected) ==> r.0.VFloat? && r.1.VFloat? && r.0.f == Numeric(actual) && r.1.f == Numeric(expected)
    ensures !Mixed(actual, expected) ==> r == (actual, expected)
  {
    if actual.VFloat? && expected.VInt? then (actual, VFloat(expected.i as real))
    else if actual.VInt? && expected.VFloat? then (VFloat(actual.i as real), expected)
    else (actual, expected)
  }

  /** The operators compareValues accepts. */
  const CompareOperators: set<string> := {"equals", "==", "not_equals", "!=", "contains", "not_contains"}

  /**
   * compareValues: equality (reflect.DeepEqual) after normalisation, or substring on the `%v`
   * texts of the values as they came.
   */
  function CompareValues(actual: Value, expected: Value, op: string, context: string, floatText: real -> string): (r: Option<AssertionError>)
    ensures op in {"equals", "=="} ==> (r.None? <==> NormalizeTypes(actual, expected).0 == NormalizeTypes(actual, expected).1)
    ensures op in {"not_equals", "!="} ==> (r.None? <==> NormalizeTypes(actual, expected).0 != NormalizeTypes(actual, expected).1)
    ensures op == "contains" ==> (r.None? <==> Contains(Show(actual, floatText), Show(expected, floatText)))
    ensures op == "not_contains" ==> (r.None? <==> !Contains(Show(actual, floatText), Show(expected, floatText)))
    ensures op !in CompareOperators ==> r == Some(UnsupportedOperator(op))
  {
    var (normalActual, normalExpected) := NormalizeTypes(actual, expected);
    if op == "equals" || op == "==" then
      (if normalActual != normalExpected then Some(CompareFailed(context, Equal, expected, actual)) else None)
    else if op == "not_equals" || op == "!=" then
      (if normalActual == normalExpected then Some(CompareFailed(context, NotEqual, expected, actual)) else None)
    else if op == "contains" then
      (if !Contains(Show(actual, floatText), Show(expected, floatText)) then Some(CompareFailed(context, Substring, expected, actual)) else None)
    else if op == "not_contains" then
      (if Contains(Show(actual, floatText), Show(expected, floatText)) then Some(CompareFailed(context, NotSubstring, expected, actual)) else None)
    else Some(UnsupportedOperator(op))
  }

  /** getJSONPathValue: the walk, one segment per iteration, updating the current value. */
  method GetJSONPathValue(data: Value, path: string) returns (r: Result<Value, PathError>)
    ensures r == Resolve(data, path)
  {
    var parts := Split(TrimPrefix(path, "$."), '.');
    ghost var goal := Resolve(data, path);
    var current := data;
    var i := 0;
    while i < |parts|
      invariant 0 <= i <= |parts|
      invariant Walk(current, parts[i..]) == goal
    {
      var part := parts[i];
      WalkFirst(current, parts[i..]);
      assert parts[i..][0] == part && parts[i..][1..] == parts[i + 1..];
      if part != "" {
        var next := TakeStep(current, part);
        if next.Err? {
          return Err(next.error);
        }
        current := next.value;
      }
      i := i + 1;
    }
    return Ok(current);
  }

  /** The body of getJSONPathValue's loop for a non-empty segment: an indexed step or a key lookup. */
  method TakeStep(current: Value, part: string) returns (r: Result<Value, PathError>)
    ensures r == Step(current, part)
  {
    var value := current;
    if '[' in part && ']' in part {
      var open := IndexOf(part, '[');
      var close := IndexOf(part, ']');
      if close < open {
        return Err(InvalidArrayIndex(part));
      }
      var indexText := part[open + 1..close];
      var index := Atoi(indexText);
      if index.None? {
        return Err(InvalidArrayIndex(indexText));
      }
      var key := part[..open];
      if key != "" {
        if !value.VObj? {
          return Err(ExpectedObject(key));
        }
        value := Lookup(value.fields, key);
      }
      if !value.VList? {
        return Err(ExpectedArray(index.value));
      }
      if index.value < 0 || index.value >= |value.items| {
        return Err(IndexOutOfBounds(index.value));
      }
      return Ok(value.items[index.value]);
    }
    if !value.VObj? {
      return Err(ExpectedObject(part));
    }
    return Ok(Lookup(value.fields, part));
  }

  /** assertJSONPath: decode the body, walk the path, compare (default equals). */
  function AssertJsonPath(result: TestResult, a: Assertion, lib: Libraries): (r: Option<AssertionError>)
    ensures lib.decodeJson(result.response).Err? ==> r == Some(JsonParseFailed(lib.decodeJson(result.response).error))
    ensures lib.decodeJson(result.response).Ok? && Resolve(lib.decodeJson(result.response).value, a.path).Err? ==>
      r == Some(JsonPathFailed(a.path, Resolve(lib.decodeJson(result.response).value, a.path).error))
    ensures lib.decodeJson(result.response).Ok? && Resolve(lib.decodeJson(result.response).value, a.path).Ok? ==>
      r == CompareValues(Resolve(lib.decodeJson(result.response).value, a.path).value, a.expected,
                         OperatorOr(a.operator, "equals"), "JSON path", lib.floatText)
  {
    match lib.decodeJson(result.response)
    case Err(cause) => Some(JsonParseFailed(cause))
    case Ok(data) =>
      match Resolve(data, a.path)
      case Err(e) => Some(JsonPathFailed(a.path, e))
      case Ok(v) => CompareValues(v, a.expected, OperatorOr(a.operator, "equals"), "JSON path", lib.floatText)
  }

  /** What a selector or a header yields: nothing is nil, one text a string, several a list. */
  function Texts(texts: seq<string>): (v: Value)
    ensures |texts| == 0 ==> v == VNull
    ensures |texts| == 1 ==> v == VStr(texts[0])
    ensures |texts| > 1 ==> v == VStrings(texts)
  {
    if |texts| == 0 then VNull else if |texts| == 1 then VStr(texts[0]) else VStrings(texts)
  }

  /** assertHTMLSelector (kinds xpath and css_selector): the selected texts compared (default equals). */
  function AssertHtmlSelector(result: TestResult, a: Assertion, lib: Libraries): (r: Option<AssertionError>)
    ensures lib.htmlSelect(result.response, a.path).Err? ==> r == Some(HtmlParseFailed(lib.htmlSelect(result.response, a.path).error))
    ensures lib.htmlSelect(result.response, a.path).Ok? ==>
      r == CompareValues(Texts(lib.htmlSelect(result.response, a.path).value), a.expected,
                         OperatorOr(a.operator, "equals"), "HTML selector", lib.floatText)
    ensures lib.htmlSelect(result.response, a.path).Ok? && a.operator in {"", "equals", "=="} ==>
      (r.None? <==> Texts(lib.htmlSelect(result.response, a.path).value) == a.expected)
  {
    match lib.htmlSelect(result.response, a.path)
    case Err(cause) => Some(HtmlParseFailed(cause))
    case Ok(texts) => CompareValues(Texts(texts), a.expected, OperatorOr(a.operator, "equals"), "HTML selector", lib.floatText)
  }

  /** The values of a response header; a header that is absent has none. */
  function HeaderValues(headers: map<string, seq<string>>, name: string): (values: seq<string>)
    ensures name !in headers ==> values == []
  {
    if name in headers then headers[name] else []
  }

  /** assertHeader: the header named by the path, compared (default equals). */
  function AssertHeader(result: TestResult, a: Assertion, floatText: real -> string): (r: Option<AssertionError>)
    ensures |HeaderValues(result.headers, a.path)| == 0 ==> r == Some(HeaderNotFound(a.path))
    ensures |HeaderValues(result.headers, a.path)| == 1 ==>
      r == CompareValues(VStr(result.headers[a.path][0]), a.expected, OperatorOr(a.operator, "equals"), "header", floatText)
    ensures |HeaderValues(result.headers, a.path)| > 1 ==>
      r == CompareValues(VStrings(result.headers[a.path]), a.expected, OperatorOr(a.operator, "equals"), "header", floatText)
  {
    var values := HeaderValues(result.headers, a.path);
    if |values| == 0 then Some(HeaderNotFound(a.path))
    else CompareValues(Texts(values), a.expected, OperatorOr(a.operator, "equals"), "header", floatText)
  }

  /** assertBodyContains: substring test on the raw body (default contains). */
  function AssertBodyContains(result: TestResult, a: Assertion): (r: Option<AssertionError>)
    ensures !a.expected.VStr? ==> r == Some(BodyExpectedNotString)
    ensures a.expected.VStr? ==>
      && (a.operator in {"", "contains"} ==> (r.None? <==> Contains(result.response, a.expected.s)))
      && (a.operator == "not_contains" ==> (r.None? <==> !Contains(result.response, a.expected.s)))
      && (a.operator !in {"", "contains", "not_contains"} ==> r == Some(UnsupportedBodyOperator(a.operator)))
  {
    if !a.expected.VStr? then Some(BodyExpectedNotString)
    else
      var text := a.expected.s;
      var op := OperatorOr(a.operator, "contains");
      if op == "contains" then
        (if !Contains(result.response, text) then Some(BodyMissingText(text)) else None)
      else if op == "not_contains" then
        (if Contains(result.response, text) then Some(BodyHasText(text)) else None)
      else Some(UnsupportedBodyOperator(op))
  }

  /** assertRegex: compile the pattern, then match the body (default matches). */
  function AssertRegex(result: TestResult, a: Assertion, lib: Libraries): (r: Option<AssertionError>)
    ensures !a.expected.VStr? ==> r == Some(RegexExpectedNotString)
    ensures a.expected.VStr? && lib.regexError(a.expected.s).Some? ==> r == Some(InvalidRegex(lib.regexError(a.expected.s).value))
    ensures a.expected.VStr? && lib.regexError(a.expected.s).None? ==>
      var found := lib.regexMatches(a.expected.s, result.response);
      && (a.operator in {"", "matches"} ==> (r.None? <==> found))
      && (a.operator == "not_matches" ==> (r.None? <==> !found))
      && (a.operator !in {"", "matches", "not_matches"} ==> r == Some(UnsupportedRegexOperator(a.operator)))
  {
    if !a.expected.VStr? then Some(RegexExpectedNotString)
    else
      var pattern := a.expected.s;
      match lib.regexError(pattern)
      case Some(cause) => Some(InvalidRegex(cause))
      case None =>
        var op := OperatorOr(a.operator, "matches");
        if op == "matches" then
          (if !lib.regexMatches(pattern, result.response) then Some(RegexNoMatch(pattern)) else None)
        else if op == "not_matches" then
          (if lib.regexMatches(pattern, result.response) then Some(RegexUnexpectedMatch(pattern)) else None)
        else Some(UnsupportedRegexOperator(op))
  }

  /** time.Duration.Milliseconds of a non-negative duration in nanoseconds: truncated. */
  function Milliseconds(nanoseconds: nat): (ms: nat)
    ensures ms * 1_000_000 <= nanoseconds < (ms + 1) * 1_000_000
  {
    nanoseconds / 1_000_000
  }

  /** assertResponseTime: whole milliseconds against the expected bound (default less_than). */
  function AssertResponseTime(result: TestResult, a: Assertion): (r: Option<AssertionError>)
    ensures a.expected.VStr? && Atoi(a.expected.s).None? ==> r == Some(InvalidResponseTimeFormat(a.expected.s))
    ensures !a.expected.VInt? && !a.expected.VStr? ==> r == Some(ResponseTimeNotInteger)
    ensures ReadExpectedNumber(a.expected).Number? ==>
      var expected := ReadExpectedNumber(a.expected).n;
      var actual := Milliseconds(result.duration);
      && (a.operator in {"", "less_than", "<"} ==> (r.None? <==> actual < expected))
      && (a.operator in {"greater_than", ">"} ==> (r.None? <==> actual > expected))
      && (a.operator in {"equals", "=="} ==> (r.None? <==> actual == expected))
      && (a.operator !in {"", "less_than", "<", "greater_than", ">", "equals", "=="} ==>
            r == Some(UnsupportedResponseTimeOperator(a.operator)))
  {
    match ReadExpectedNumber(a.expected)
    case Malformed(text) => Some(InvalidResponseTimeFormat(text))
    case NotANumber => Some(ResponseTimeNotInteger)
    case Number(expected) =>
      var actual := Milliseconds(result.duration);
      var op := OperatorOr(a.operator, "less_than");
      if op == "less_than" || op == "<" then
        (if actual >= expected then Some(ResponseTimeFailed(Less, expected, actual)) else None)
      else if op == "greater_than" || op == ">" then
        (if actual <= expected then Some(ResponseTimeFailed(Greater, expected, actual)) else None)
      else if op == "equals" || op == "==" then
        (if actual != expected then Some(ResponseTimeFailed(Equal, expected, actual)) else None)
      else Some(UnsupportedResponseTimeOperator(op))
  }

  // ---------------------------------------------------------------------------------------
  // Interpolation of an assertion

  /** The type an interpolated placeholder takes: an int, else a float, else a bool, else the string. */
  function Retype(s: string): (v: Value)
    ensures Atoi(s).Some? ==> v == VInt(Atoi(s).value)
    ensures Atoi(s).None? && ParseFloat(s).Some? ==> v == VFloat(ParseFloat(s).value)
    ensures Atoi(s).None? && ParseFloat(s).None? && ParseBool(s).Some? ==> v == VBool(ParseBool(s).value)
    ensures Atoi(s).None? && ParseFloat(s).None? && ParseBool(s).None? ==> v == VStr(s)
  {
    match Atoi(s)
    case Some(n) => VInt(n)
    case None =>
      match ParseFloat(s)
      case Some(f) => VFloat(f)
      case None =>
        match ParseBool(s)
        case Some(b) => VBool(b)
        case None => VStr(s)
  }

  /**
   * A string expected value: interpolated, and retyped when the whole of it was one `${...}`
   * that interpolation changed.
   */
  function InterpolateString(v: string, vars: map<string, string>): (r: Value)
    ensures !(HasPrefix(v, "${") && HasSuffix(v, "}")) ==> r == VStr(Interpolate(v, vars))
    ensures Interpolate(v, vars) == v ==> r == VStr(v)
  {
    var s := Interpolate(v, vars);
    if s != v && HasPrefix(v, "${") && HasSuffix(v, "}") then Retype(s) else VStr(s)
  }

  /** interpolateExpectedValue */
  function InterpolateExpectedValue(expected: Value, variables: Option<map<string, string>>, floatText: real -> string): (r: Value)
    ensures variables.None? ==> r == expected
    ensures expected.VInt? || expected.VFloat? || expected.VBool? ==> r == expected
    ensures variables.Some? && expected.VStr? && !(HasPrefix(expected.s, "${") && HasSuffix(expected.s, "}")) ==>
      r == VStr(Interpolate(expected.s, variables.value))
    ensures variables.Some? && expected.VStr? && Interpolate(expected.s, variables.value) == expected.s ==> r == expected
  {
    match variables
    case None => expected
    case Some(vars) =>
      match expected
      case VStr(v) => InterpolateString(v, vars)
      case VInt(_) => expected
      case VFloat(_) => expected
      case VBool(_) => expected
      case _ =>
        var text := Show(expected, floatText);
        if text != "" && Interpolate(text, vars) != text then VStr(Interpolate(text, vars)) else expected
  }

  /** interpolateAssertion: nil variables leave the assertion alone; otherwise path and expected are interpolated. */
  function InterpolateAssertion(a: Assertion, variables: Option<map<string, string>>, floatText: real -> string): (r: Assertion)
    ensures r.kind == a.kind && r.operator == a.operator
    ensures variables.None? ==> r == a
    ensures variables.Some? ==> r.path == Interpolate(a.path, variables.value)
    ensures variables.Some? ==> r.expected == InterpolateExpectedValue(a.expected, variables, floatText)
  {
    match variables
    case None => a
    case Some(vars) => Assertion(a.kind, Interpolate(a.path, vars), InterpolateExpectedValue(a.expected, variables, floatText), a.operator)
  }

  // ---------------------------------------------------------------------------------------
  // Running assertions

  /** The seven kinds; xpath and css_selector are both answered by the HTML selector check. */
  const AssertionKinds: set<string> :=
    {"status_code", "json_path", "xpath", "css_selector", "header", "body_contains", "regex", "response_time"}

  /** runSingleAssertion: interpolate, then dispatch on the kind. */
  function RunSingleAssertion(result: TestResult, a: Assertion, variables: Option<map<string, string>>, lib: Libraries): (r: Option<AssertionError>)
    ensures a.kind !in AssertionKinds ==> r == Some(UnknownAssertionType(a.kind))
    ensures var checked := InterpolateAssertion(a, variables, lib.floatText);
      && (a.kind == "status_code" ==> r == AssertStatusCode(result, checked))
      && (a.kind == "json_path" ==> r == AssertJsonPath(result, checked, lib))
      && (a.kind in {"xpath", "css_selector"} ==> r == AssertHtmlSelector(result, checked, lib))
      && (a.kind == "header" ==> r == AssertHeader(result, checked, lib.floatText))
      && (a.kind == "body_contains" ==> r == AssertBodyContains(result, checked))
      && (a.kind == "regex" ==> r == AssertRegex(result, checked, lib))
      && (a.kind == "response_time" ==> r == AssertResponseTime(result, checked))
  {
    var checked := InterpolateAssertion(a, variables, lib.floatText);
    var kind := checked.kind;
    if kind == "status_code" then AssertStatusCode(result, checked)
    else if kind == "json_path" then AssertJsonPath(result, checked, lib)
    else if kind == "xpath" || kind == "css_selector" then AssertHtmlSelector(result, checked, lib)
    else if kind == "header" then AssertHeader(result, checked, lib.floatText)
    else if kind == "body_contains" then AssertBodyContains(result, checked)
    else if kind == "regex" then AssertRegex(result, checked, lib)
    else if kind == "response_time" then AssertResponseTime(result, checked)
    else Some(UnknownAssertionType(kind))
  }

  /** The errors among a list of outcomes, in order. */
  function Errors(outcomes: seq<Option<AssertionError>>): seq<AssertionError>
    decreases |outcomes|
  {
    if outcomes == [] then []
    else
      Errors(outcomes[..|outcomes| - 1])
        + match outcomes[|outcomes| - 1] case Some(e) => [e] case None => []
  }

  /** The outcome of each assertion. */
  function Outcomes(result: TestResult, assertions: seq<Assertion>, variables: Option<map<string, string>>, lib: Libraries)
    : (r: seq<Option<AssertionError>>)
    ensures |r| == |assertions|
    ensures forall i :: 0 <= i < |assertions| ==> r[i] == RunSingleAssertion(result, assertions[i], variables, lib)
  {
    seq(|assertions|, i requires 0 <= i < |assertions| => RunSingleAssertion(result, assertions[i], variables, lib))
  }

  /** The errors of a list of assertions: one per failing assertion, in order. */
  function Failures(result: TestResult, assertions: seq<Assertion>, variables: Option<map<string, string>>, lib: Libraries): seq<AssertionError>
  {
    Errors(Outcomes(result, assertions, variables, lib))
  }

  /** RunAssertions: every assertion is run and each failure appended. */
  method RunAssertions(result: TestResult, assertions: seq<Assertion>, variables: Option<map<string, string>>, lib: Libraries)
    returns (errors: seq<AssertionError>)
    ensures errors == Failures(result, assertions, variables, lib)
  {
    ghost var outcomes := Outcomes(result, assertions, variables, lib);
    errors := [];
    var i := 0;
    while i < |assertions|
      invariant 0 <= i <= |assertions|
      invariant errors == Errors(outcomes[..i])
    {
      assert outcomes[..i + 1][..i] == outcomes[..i];
      var outcome := RunSingleAssertion(result, assertions[i], variables, lib);
      assert outcome == outcomes[i];
      if outcome.Some? {
        errors := errors + [outcome.value];
      }
      i := i + 1;
    }
    assert outcomes[..i] == outcomes;
  }

  // ---------------------------------------------------------------------------------------
  // Properties

  /** A status written as a decimal string is checked exactly like the same status as an int. */
  lemma StatusCodeTextIsInt(result: TestResult, path: string, expected: int, operator: string)
    requires IsInt64(expected)
    ensures AssertStatusCode(result, Assertion("status_code", path, VStr(Itoa(expected)), operator))
         == AssertStatusCode(result, Assertion("status_code", path, VInt(expected), operator))
  {
    AtoiItoa(expected);
  }

  /**
   * response_time in nanoseconds: less_than passes below `expected` whole milliseconds,
   * greater_than only from `expected + 1` milliseconds on, equals within that millisecond.
   */
  lemma ResponseTimeInNanoseconds(result: TestResult, path: string, expected: int, operator: string)
    ensures var r := AssertResponseTime(result, Assertion("response_time", path, VInt(expected), operator));
      var d := result.duration;
      && (operator in {"", "less_than", "<"} ==> (r.None? <==> d < expected * 1_000_000))
      && (operator in {"greater_than", ">"} ==> (r.None? <==> d >= (expected + 1) * 1_000_000))
      && (operator in {"equals", "=="} ==> (r.None? <==> expected * 1_000_000 <= d < (expected + 1) * 1_000_000))
  {
    var ms := Milliseconds(result.duration);
    if ms < expected {
      assert (ms + 1) * 1_000_000 <= expected * 1_000_000;
    } else {
      assert expected * 1_000_000 <= ms * 1_000_000;
    }
    if ms > expected {
      assert (expected + 1) * 1_000_000 <= ms * 1_000_000;
    } else {
      assert (ms + 1) * 1_000_000 <= (expected + 1) * 1_000_000;
    }
  }

  /** contains and not_contains give opposite verdicts on the same body; no operator means contains. */
  lemma BodyContainsOpposite(result: TestResult, path: string, text: string)
    ensures var a := Assertion("body_contains", path, VStr(text), "contains");
      && (AssertBodyContains(result, a).None? <==> AssertBodyContains(result, a.(operator := "not_contains")).Some?)
      && AssertBodyContains(result, a.(operator := "")) == AssertBodyContains(result, a)
  {
  }

  /** An invalid pattern fails whatever the body and the operator; a valid one splits matches and not_matches. */
  lemma RegexVerdicts(result: TestResult, path: string, pattern: string, operator: string, lib: Libraries)
    ensures lib.regexError(pattern).Some? ==>
      AssertRegex(result, Assertion("regex", path, VStr(pattern), operator), lib) == Some(InvalidRegex(lib.regexError(pattern).value))
    ensures lib.regexError(pattern).None? ==>
      (AssertRegex(result, Assertion("regex", path, VStr(pattern), "matches"), lib).None? <==>
       AssertRegex(result, Assertion("regex", path, VStr(pattern), "not_matches"), lib).Some?)
  {
  }

  /** equals and not_equals, and contains and not_contains, are complementary for every pair of values. */
  lemma CompareComplementary(actual: Value, expected: Value, context: string, floatText: real -> string)
    ensures CompareValues(actual, expected, "equals", context, floatText).None? <==>
            CompareValues(actual, expected, "not_equals", context, floatText).Some?
    ensures CompareValues(actual, expected, "contains", context, floatText).None? <==>
            CompareValues(actual, expected, "not_contains", context, floatText).Some?
  {
  }

  /** A float and an int are equal exactly when they are the same number. */
  lemma MixedNumbersEqual(x: real, n: int, context: string, floatText: real -> string)
    ensures CompareValues(VFloat(x), VInt(n), "equals", context, floatText).None? <==> x == n as real
    ensures CompareValues(VInt(n), VFloat(x), "equals", context, floatText).None? <==> x == n as real
  {
  }

  /** No normalisation between an int and a string: 200 never equals "200". */
  lemma IntIsNotText(n: int, context: string, floatText: real -> string)
    ensures CompareValues(VInt(n), VStr(Itoa(n)), "equals", context, floatText).Some?
  {
  }

  /** A header with several values is compared as a list, so `equals` against one of them fails. */
  lemma SeveralHeaderValuesAreAList(result: TestResult, name: string, first: string, second: string, floatText: real -> string)
    requires name in result.headers && result.headers[name] == [first, second]
    ensures AssertHeader(result, Assertion("header", name, VStr(first), ""), floatText) ==
      Some(CompareFailed("header", Equal, VStr(first), VStrings([first, second])))
  {
  }

  /** An expected value that is exactly a known placeholder takes the type of the variable's value. */
  lemma PlaceholderRetyped(k: string, variables: map<string, string>, floatText: real -> string)
    requires PlainName(k) && PlainVariables(variables) && k in variables
    ensures InterpolateExpectedValue(VStr(Placeholder(k)), Some(variables), floatText) == Retype(variables[k])
  {
    var p := Placeholder(k);
    SortedKeysEnumerate(variables);
    PlaceholderAlone(k, variables, SortedKeys(variables.Keys));
    assert p[0] == '$' && '$' !in variables[k];
    PlaceholderWrapped(k);
    WrappedRetyped(p, variables, floatText);
  }

  /** An expected string wrapped in `${` and `}` that interpolation changes is retyped. */
  lemma WrappedRetyped(v: string, variables: map<string, string>, floatText: real -> string)
    requires HasPrefix(v, "${") && HasSuffix(v, "}") && Interpolate(v, variables) != v
    ensures InterpolateExpectedValue(VStr(v), Some(variables), floatText) == Retype(Interpolate(v, variables))
  {
  }

  /** An expected value that is exactly an unknown placeholder stays that string. */
  lemma UnknownPlaceholderUntyped(k: string, variables: map<string, string>, floatText: real -> string)
    requires PlainName(k) && PlainVariables(variables) && k !in variables
    ensures InterpolateExpectedValue(VStr(Placeholder(k)), Some(variables), floatText) == VStr(Placeholder(k))
  {
    assert InterpolateExpectedValue(VStr(Placeholder(k)), Some(variables), floatText) == InterpolateString(Placeholder(k), variables);
    SortedKeysEnumerate(variables);
    PlaceholderAlone(k, variables, SortedKeys(variables.Keys));
  }

  /** Retyping tries int before float before bool: "1" is the int 1, not true. */
  lemma RetypeOrder()
    ensures Retype("123") == VInt(123)
    ensures Retype("1") == VInt(1)
    ensures Retype("true") == VBool(true)
    ensures Retype("active") == VStr("active")
  {
    RetypeNumber();
    RetypeOne();
    RetypeTrue();
    RetypeWord();
  }

  lemma RetypeNumber()
    ensures Retype("123") == VInt(123)
  {
    assert AllDigits("123");
    assert "123"[..2] == "12" && "12"[..1] == "1";
    assert DigitsValue("123") == 123;
  }

  lemma RetypeOne()
    ensures Retype("1") == VInt(1)
  {
    assert AllDigits("1");
  }

  lemma RetypeTrue()
    ensures Retype("true") == VBool(true)
  {
    assert Atoi("true").None? by {
      assert !IsDigit("true"[1]);
    }
    assert ParseFloat("true").None? by {
      assert ParseDecimal("true").None?;
    }
  }

  lemma RetypeWord()
    ensures Retype("active") == VStr("active")
  {
    assert Atoi("active").None? by {
      assert !IsDigit("active"[1]);
    }
    assert ParseFloat("active").None? by {
      assert ParseDecimal("active").None?;
    }
    assert ParseBool("active").None?;
  }

  /** The errors of a concatenation are the errors of each part, in order. */
  lemma {:induction false} ErrorsAppend(p: seq<Option<AssertionError>>, q: seq<Option<AssertionError>>)
    ensures Errors(p + q) == Errors(p) + Errors(q)
    decreases |q|
  {
    if q == [] {
      assert p + q == p;
    } else {
      var u := q[..|q| - 1];
      assert (p + q)[..|p + q| - 1] == p + u;
      assert (p + q)[|p + q| - 1] == q[|q| - 1];
      ErrorsAppend(p, u);
    }
  }

  /** No errors exactly when no outcome is an error. */
  lemma {:induction false} ErrorsEmpty(outcomes: seq<Option<AssertionError>>)
    ensures Errors(outcomes) == [] <==> forall i :: 0 <= i < |outcomes| ==> outcomes[i].None?
    decreases |outcomes|
  {
    if outcomes != [] {
      var u := outcomes[..|outcomes| - 1];
      ErrorsEmpty(u);
      assert forall i :: 0 <= i < |u| ==> u[i] == outcomes[i];
    }
  }

  /** When every outcome is an error, the errors are those, in order. */
  lemma {:induction false} ErrorsAll(outcomes: seq<Option<AssertionError>>)
    requires forall i :: 0 <= i < |outcomes| ==> outcomes[i].Some?
    ensures Errors(outcomes) == seq(|outcomes|, i requires 0 <= i < |outcomes| => outcomes[i].value)
    decreases |outcomes|
  {
    if outcomes != [] {
      ErrorsAll(outcomes[..|outcomes| - 1]);
    }
  }

  /** At most one error per outcome. */
  lemma {:induction false} ErrorsAtMost(outcomes: seq<Option<AssertionError>>)
    ensures |Errors(outcomes)| <= |outcomes|
    decreases |outcomes|
  {
    if outcomes != [] {
      ErrorsAtMost(outcomes[..|outcomes| - 1]);
    }
  }

  /**
   * RunAssertions reports one error per failing assertion, in assertion order: the errors of a
   * concatenation are those of each part, an empty list means every assertion passed, and
   * when all fail each one's error is there.
   */
  lemma FailuresOnePerFailing(result: TestResult, s: seq<Assertion>, t: seq<Assertion>, variables: Option<map<string, string>>, lib: Libraries)
    ensures Failures(result, s + t, variables, lib) == Failures(result, s, variables, lib) + Failures(result, t, variables, lib)
    ensures Failures(result, s, variables, lib) == [] <==>
      forall i :: 0 <= i < |s| ==> RunSingleAssertion(result, s[i], variables, lib).None?
    ensures (forall i :: 0 <= i < |s| ==> RunSingleAssertion(result, s[i], variables, lib).Some?) ==>
      Failures(result, s, variables, lib) == seq(|s|, i requires 0 <= i < |s| => RunSingleAssertion(result, s[i], variables, lib).value)
    ensures |Failures(result, s, variables, lib)| <= |s|
  {
    FailuresAppend(result, s, t, variables, lib);
    FailuresNone(result, s, variables, lib);
    FailuresAll(result, s, variables, lib);
    ErrorsAtMost(Outcomes(result, s, variables, lib));
  }

  lemma FailuresAppend(result: TestResult, s: seq<Assertion>, t: seq<Assertion>, variables: Option<map<string, string>>, lib: Libraries)
    ensures Failures(result, s + t, variables, lib) == Failures(result, s, variables, lib) + Failures(result, t, variables, lib)
  {
    var os := Outcomes(result, s, variables, lib);
    var ot := Outcomes(result, t, variables, lib);
    assert Outcomes(result, s + t, variables, lib) == os + ot;
    ErrorsAppend(os, ot);
  }

  lemma FailuresNone(result: TestResult, s: seq<Assertion>, variables: Option<map<string, string>>, lib: Libraries)
    ensures Failures(result, s, variables, lib) == [] <==>
      forall i :: 0 <= i < |s| ==> RunSingleAssertion(result, s[i], variables, lib).None?
  {
    ErrorsEmpty(Outcomes(result, s, variables, lib));
  }

  lemma FailuresAll(result: TestResult, s: seq<Assertion>, variables: Option<map<string, string>>, lib: Libraries)
    ensures (forall i :: 0 <= i < |s| ==> RunSingleAssertion(result, s[i], variables, lib).Some?) ==>
      Failures(result, s, variables, lib) == seq(|s|, i requires 0 <= i < |s| => RunSingleAssertion(result, s[i], variables, lib).value)
  {
    if forall i :: 0 <= i < |s| ==> RunSingleAssertion(result, s[i], variables, lib).Some? {
      ErrorsAll(Outcomes(result, s, variables, lib));
    }
  }

  /**
   * A JSON path assertion whose expected value is the placeholder of a variable holding the
   * decimal text of n passes on a document whose key holds the JSON number n: the expected
   * value is retyped to the int n, and the int and the float compare as numbers. This is
   * `${expected_id}` with expected_id=123 against `"user_id": 123`.
   */
  lemma PlaceholderMatchesJsonNumber(result: TestResult, lib: Libraries, key: string, k: string,
                                     n: int, variables: map<string, string>, fields: map<string, Value>)
    requires PlainName(k) && PlainVariables(variables) && k in variables
    requires IsInt64(n) && variables[k] == Itoa(n)
    requires key != "" && '.' !in key && '[' !in key && '$' !in key
    requires lib.decodeJson(result.response) == Ok(VObj(fields)) && key in fields && fields[key] == VFloat(n as real)
    ensures RunSingleAssertion(result, Assertion("json_path", key, VStr(Placeholder(k)), ""), Some(variables), lib) == None
  {
    PlaceholderRetyped(k, variables, lib.floatText);
    AtoiItoa(n);
    SortedKeysEnumerate(variables);
    MissingFirstChar(key, "${");
    InterpolateNoMarker(key, variables, SortedKeys(variables.Keys));
    var a := InterpolateAssertion(Assertion("json_path", key, VStr(Placeholder(k)), ""), Some(variables), lib.floatText);
    assert a == Assertion("json_path", key, VInt(n), "");
    PlainKeyResolves(fields, key);
  }
}
