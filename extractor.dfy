/**
 * The variable extractor (extractor.go): rules `name: type:argument` that pull a string out of
 * a test result (a JSON path, a header, a regex group, a CSS selection, the status code or the
 * response time) and write it into the result's variables under the rule's name.
 */
module Extractor {
  import opened Wrappers
  import opened GoStrings
  import opened GoStrconv
  import opened MapOrder
  import opened Values
  import opened Types
  import opened JsonPath

  // ---------------------------------------------------------------------------------------
  // The JSON path of the extractor

  /**
   * The segments the extractor walks: a path that starts with `[` is cut at its first `.` and
   * the rest split at every `.`; any other path loses a leading `$.` and is split at every `.`.
   * None stands for a path that is empty once `$.` is removed: the whole document.
   */
  function ExtractorSegments(path: string): Option<seq<string>>
  {
    if HasPrefix(path, "[") then
      var dot := IndexOf(path, '.');
      if dot > 0 then Some([path[..dot]] + Split(path[dot + 1..], '.')) else Some([path])
    else
      var clean := TrimPrefix(path, "$.");
      if clean == "" then None else Some(Split(clean, '.'))
  }

  /** Where the extractor's path leads in a decoded document. */
  function ExtractorWalk(data: Value, path: string): Result<Value, PathError>
  {
    match ExtractorSegments(path)
    case None => Ok(data)
    case Some(parts) => Walk(data, parts)
  }

  /** processJSONPath: the walk, one segment per iteration, updating the current value. */
  method ProcessJSONPath(data: Value, parts: seq<string>) returns (r: Result<Value, PathError>)
    ensures r == Walk(data, parts)
  {
    var current := data;
    var i := 0;
    while i < |parts|
      invariant 0 <= i <= |parts|
      invariant Walk(current, parts[i..]) == Walk(data, parts)
    {
      var part := parts[i];
      assert parts[i..][0] == part && parts[i..][1..] == parts[i + 1..];
      if part != "" {
        if '[' in part && ']' in part {
          var open := IndexOf(part, '[');
          var close := IndexOf(part, ']');
          if close < open {
            return Err(InvalidArrayIndex(part));
          }
          var indexText := part[open + 1..close];
          var index := Atoi(indexText);
          if index.None? {
            return Err(InvalidArrayIndex(indexText));
          }
          var key := part[..open];
          if key != "" {
            if !current.VObj? {
              return Err(ExpectedObject(key));
            }
            current := Lookup(current.fields, key);
          }
          if !current.VList? {
            return Err(ExpectedArray(index.value));
          }
          if index.value < 0 || index.value >= |current.items| {
            return Err(IndexOutOfBounds(index.value));
          }
          current := current.items[index.value];
        } else {
          if !current.VObj? {
            return Err(ExpectedObject(part));
          }
          current := Lookup(current.fields, part);
        }
      }
      i := i + 1;
    }
    return Ok(current);
  }

  /** getJSONPathValue of the extractor: it reaches exactly what the assertion engine's walk reaches. */
  method GetJSONPathValue(data: Value, path: string) returns (r: Result<Value, PathError>)
    ensures r == ExtractorWalk(data, path)
    ensures r == Resolve(data, path)
  {
    ExtractorWalkIsResolve(data, path);
    if HasPrefix(path, "[") {
      var parts := [path];
      var dot := IndexOf(path, '.');
      if dot > 0 {
        parts := [path[..dot]] + Split(path[dot + 1..], '.');
      }
      r := ProcessJSONPath(data, parts);
      return;
    }
    var clean := TrimPrefix(path, "$.");
    if clean == "" {
      return Ok(data);
    }
    r := ProcessJSONPath(data, Split(clean, '.'));
  }

  /**
   * The extractor's path and the assertion engine's path lead to the same place for every
   * path: cutting a `[...]` path at its first dot is what splitting does, and an empty path
   * walks no segment.
   */
  lemma ExtractorWalkIsResolve(data: Value, path: string)
    ensures ExtractorWalk(data, path) == Resolve(data, path)
  {
    if HasPrefix(path, "[") {
      assert path[0] == '[';
      assert TrimPrefix(path, "$.") == path by {
        if |path| >= 2 {
          assert path[..2][0] == '[';
        }
      }
      var dot := IndexOf(path, '.');
      assert dot != 0;
    } else if TrimPrefix(path, "$.") == "" {
      assert Split("", '.') == [""];
      assert Walk(data, [""]) == Walk(data, []);
    }
  }

  // ---------------------------------------------------------------------------------------
  // One rule

  /** extractFromHeader: the first value of the header. */
  function ExtractFromHeader(headers: map<string, seq<string>>, name: string): (r: Result<string, ExtractCause>)
    ensures (name !in headers || headers[name] == []) <==> r == Err(HeaderMissing(name))
    ensures r.Ok? ==> name in headers && |headers[name]| > 0 && r.value == headers[name][0]
  {
    if name !in headers || |headers[name]| == 0 then Err(HeaderMissing(name)) else Ok(headers[name][0])
  }

  /** extractFromRegex: the first group when the pattern has groups, else the whole match. */
  function ExtractFromRegex(response: string, pattern: string, lib: Libraries): (r: Result<string, ExtractCause>)
    ensures lib.regexError(pattern).Some? ==> r == Err(RegexInvalid(lib.regexError(pattern).value))
    ensures lib.regexError(pattern).None? ==>
      var matches := lib.regexSubmatch(pattern, response);
      && (|matches| == 0 <==> r == Err(RegexDidNotMatch))
      && (|matches| == 1 ==> r == Ok(matches[0]))
      && (|matches| > 1 ==> r == Ok(matches[1]))
  {
    match lib.regexError(pattern)
    case Some(cause) => Err(RegexInvalid(cause))
    case None =>
      var matches := lib.regexSubmatch(pattern, response);
      if |matches| == 0 then Err(RegexDidNotMatch)
      else if |matches| > 1 then Ok(matches[1])
      else Ok(matches[0])
  }

  /** extractFromCSS: the trimmed text of the first element the selector finds. */
  function ExtractFromCss(response: string, selector: string, lib: Libraries): (r: Result<string, ExtractCause>)
    ensures lib.htmlSelect(response, selector).Err? ==> r == Err(HtmlParse(lib.htmlSelect(response, selector).error))
    ensures lib.htmlSelect(response, selector).Ok? ==>
      var texts := lib.htmlSelect(response, selector).value;
      (|texts| == 0 <==> r == Err(CssNoMatch)) && (|texts| > 0 ==> r == Ok(texts[0]))
  {
    match lib.htmlSelect(response, selector)
    case Err(cause) => Err(HtmlParse(cause))
    case Ok(texts) => if |texts| == 0 then Err(CssNoMatch) else Ok(texts[0])
  }

  /** extractFromJSON: decode the body, walk the path, render the value with `%v`. */
  function ExtractFromJson(response: string, path: string, lib: Libraries): (r: Result<string, ExtractCause>)
    ensures lib.decodeJson(response).Err? ==> r == Err(JsonParse(lib.decodeJson(response).error))
    ensures lib.decodeJson(response).Ok? && Resolve(lib.decodeJson(response).value, path).Err? ==>
      r == Err(Path(Resolve(lib.decodeJson(response).value, path).error))
    ensures lib.decodeJson(response).Ok? && Resolve(lib.decodeJson(response).value, path).Ok? ==>
      var found := Resolve(lib.decodeJson(response).value, path).value;
      && r == Ok(Show(found, lib.floatText))
      && (found.VFloat? && found.f == found.f.Floor as real && -1_000_000 < found.f.Floor < 1_000_000 ==>
            Atoi(r.value) == Some(found.f.Floor))
  {
    match lib.decodeJson(response)
    case Err(cause) => Err(JsonParse(cause))
    case Ok(data) =>
      ExtractorWalkIsResolve(data, path);
      match ExtractorWalk(data, path)
      case Err(e) => Err(Path(e))
      case Ok(v) =>
        WholeNumberText(v, lib.floatText);
        Ok(Show(v, lib.floatText))
  }

  /** A whole JSON number below a million is rendered by `%v` as decimal text that Atoi reads back. */
  lemma WholeNumberText(v: Value, floatText: real -> string)
    ensures v.VFloat? && v.f == v.f.Floor as real && -1_000_000 < v.f.Floor < 1_000_000 ==>
      Atoi(Show(v, floatText)) == Some(v.f.Floor)
  {
    if v.VFloat? && v.f == v.f.Floor as real && -1_000_000 < v.f.Floor < 1_000_000 {
      ShowWholeFloat(v.f.Floor, floatText);
      ShowIntRoundTrip(v.f.Floor, floatText);
    }
  }

  /** The extractor kinds. */
  const ExtractorKinds: set<string> := {"json", "header", "regex", "css", "status", "response_time"}

  /** extractValue: `type:argument`, cut at the first `:` only. */
  function ExtractValue(result: TestResult, expression: string, lib: Libraries): (r: Result<string, ExtractCause>)
    ensures ':' !in expression <==> r == Err(InvalidExpression(expression))
    ensures ':' in expression && SplitOnce(expression, ':').value.0 !in ExtractorKinds ==>
      r == Err(UnsupportedExtractor(SplitOnce(expression, ':').value.0))
  {
    match SplitOnce(expression, ':')
    case None => Err(InvalidExpression(expression))
    case Some((kind, argument)) =>
      if kind == "json" then ExtractFromJson(result.response, argument, lib)
      else if kind == "header" then ExtractFromHeader(result.headers, argument)
      else if kind == "regex" then ExtractFromRegex(result.response, argument, lib)
      else if kind == "css" then ExtractFromCss(result.response, argument, lib)
      else if kind == "status" then Ok(Itoa(result.statusCode))
      else if kind == "response_time" then Ok(lib.fixed2(result.duration as real / 1_000_000.0))
      else Err(UnsupportedExtractor(kind))
  }

  /** The argument is everything after the first `:`, colons included. */
  lemma ExpressionCutAtFirstColon(result: TestResult, kind: string, argument: string, lib: Libraries)
    requires ':' !in kind
    ensures kind == "header" ==> ExtractValue(result, kind + ":" + argument, lib) == ExtractFromHeader(result.headers, argument)
    ensures kind == "regex" ==> ExtractValue(result, kind + ":" + argument, lib) == ExtractFromRegex(result.response, argument, lib)
    ensures kind == "json" ==> ExtractValue(result, kind + ":" + argument, lib) == ExtractFromJson(result.response, argument, lib)
    ensures kind == "css" ==> ExtractValue(result, kind + ":" + argument, lib) == ExtractFromCss(result.response, argument, lib)
    ensures kind !in ExtractorKinds ==> ExtractValue(result, kind + ":" + argument, lib) == Err(UnsupportedExtractor(kind))
  {
    var e := kind + ":" + argument;
    assert e == kind + [':'] + argument;
    assert e[|kind|] == ':';
    IndexOfIs(e, ':', |kind|);
    assert e[..|kind|] == kind && e[|kind| + 1..] == argument;
  }

  /** `status:` yields the decimal status code, which reads back as the same number. */
  lemma StatusExtraction(result: TestResult, argument: string, lib: Libraries)
    requires IsInt64(result.statusCode)
    ensures ExtractValue(result, "status:" + argument, lib) == Ok(Itoa(result.statusCode))
    ensures Atoi(ExtractValue(result, "status:" + argument, lib).value) == Some(result.statusCode)
  {
    var e := "status:" + argument;
    assert e[6] == ':' && ':' !in e[..6];
    IndexOfIs(e, ':', 6);
    assert e[..6] == "status";
    AtoiItoa(result.statusCode);
  }

  // ---------------------------------------------------------------------------------------
  // All rules

  /** What each rule extracts from the result, by rule name. */
  function RuleOutcomes(result: TestResult, extractions: map<string, string>, lib: Libraries)
    : (outcomes: map<string, Result<string, ExtractCause>>)
    ensures outcomes.Keys == extractions.Keys
    ensures forall k :: k in extractions ==> outcomes[k] == ExtractValue(result, extractions[k], lib)
  {
    map k | k in extractions :: ExtractValue(result, extractions[k], lib)
  }

  /**
   * The rules taken in `order`, each value written under the rule's name into `vars`, until
   * one fails: the variables then, and the failure naming the rule, if any.
   */
  function ExtractRun(vars: map<string, string>, outcomes: map<string, Result<string, ExtractCause>>, order: seq<string>)
    : (map<string, string>, Option<ExtractError>)
    requires forall k :: k in order ==> k in outcomes
    decreases |order|
  {
    if order == [] then (vars, None)
    else
      var name := order[0];
      match outcomes[name]
      case Err(cause) => (vars, Some(ExtractError(name, cause)))
      case Ok(value) => ExtractRun(vars[name := value], outcomes, order[1..])
  }

  /** The variables a result starts extraction with: a nil map becomes an empty one. */
  function StartingVariables(result: TestResult): (vars: map<string, string>)
    ensures result.variables.None? ==> vars == map[]
    ensures result.variables.Some? ==> vars == result.variables.value
  {
    if result.variables.None? then map[] else result.variables.value
  }

  /**
   * ExtractVariables: `order` is the order in which `range` visits the rules, which Go leaves
   * unspecified. The result's variables are written in place, and stay written when a later
   * rule fails.
   */
  method ExtractVariables(result: TestResult, extractions: map<string, string>, order: seq<string>, lib: Libraries)
    returns (updated: TestResult, err: Option<ExtractError>)
    requires Enumerates(order, extractions)
    ensures var (vars, failure) := ExtractRun(StartingVariables(result), RuleOutcomes(result, extractions, lib), order);
      updated == result.(variables := Some(vars)) && err == failure
  {
    ghost var outcomes := RuleOutcomes(result, extractions, lib);
    var vars := StartingVariables(result);
    var i := 0;
    while i < |order|
      invariant 0 <= i <= |order|
      invariant ExtractRun(vars, outcomes, order[i..]) == ExtractRun(StartingVariables(result), outcomes, order)
    {
      assert order[i..][0] == order[i] && order[i..][1..] == order[i + 1..];
      var name := order[i];
      var value := ExtractValue(result, extractions[name], lib);
      if value.Err? {
        return result.(variables := Some(vars)), Some(ExtractError(name, value.error));
      }
      vars := vars[name := value.value];
      i := i + 1;
    }
    return result.(variables := Some(vars)), None;
  }

  /**
   * A run that succeeds writes one entry per rule, keyed by the rule's name and holding its
   * extracted value; every other entry is left as it was.
   */
  lemma {:induction false} RunWrites(vars: map<string, string>, outcomes: map<string, Result<string, ExtractCause>>, order: seq<string>)
    requires forall k :: k in order ==> k in outcomes
    requires forall i, j :: 0 <= i < j < |order| ==> order[i] != order[j]
    requires ExtractRun(vars, outcomes, order).1.None?
    ensures var out := ExtractRun(vars, outcomes, order).0;
      && out.Keys == vars.Keys + (set k | k in order)
      && (forall k :: k in order ==> outcomes[k] == Ok(out[k]))
      && (forall k :: k in vars && k !in order ==> out[k] == vars[k])
    decreases |order|
  {
    if order != [] {
      var name := order[0];
      var value := outcomes[name].value;
      RunWrites(vars[name := value], outcomes, order[1..]);
      var out := ExtractRun(vars, outcomes, order).0;
      assert (set k | k in order) == {name} + (set k | k in order[1..]);
      assert name !in order[1..];
      assert name in out && out[name] == value;
    }
  }

  /** Rule `order[j]` is the one that failed, after the rules before it succeeded. */
  predicate StopsAt(vars: map<string, string>, outcomes: map<string, Result<string, ExtractCause>>, order: seq<string>, j: int)
    requires forall k :: k in order ==> k in outcomes
    requires 0 <= j < |order|
  {
    var before := ExtractRun(vars, outcomes, order[..j]);
    && before.1.None?
    && outcomes[order[j]].Err?
    && ExtractRun(vars, outcomes, order) == (before.0, Some(ExtractError(order[j], outcomes[order[j]].error)))
  }

  /**
   * A run that fails stops at some rule j: every rule before it was extracted and written,
   * the failure names rule j with its cause, and the variables are what the rules before j wrote.
   */
  lemma {:induction false} RunStopsAtFailure(vars: map<string, string>, outcomes: map<string, Result<string, ExtractCause>>, order: seq<string>)
    requires forall k :: k in order ==> k in outcomes
    requires ExtractRun(vars, outcomes, order).1.Some?
    ensures exists j :: 0 <= j < |order| && StopsAt(vars, outcomes, order, j)
    decreases |order|
  {
    var name := order[0];
    match outcomes[name]
    case Err(cause) =>
      assert order[..0] == [];
      assert StopsAt(vars, outcomes, order, 0);
    case Ok(value) =>
      RunStopsAtFailure(vars[name := value], outcomes, order[1..]);
      var j :| 0 <= j < |order[1..]| && StopsAt(vars[name := value], outcomes, order[1..], j);
      assert order[..j + 1] == [name] + order[1..][..j];
      assert order[..j + 1][1..] == order[1..][..j];
      assert StopsAt(vars, outcomes, order, j + 1);
  }

  /**
   * ExtractVariables on success: the result's variables are the old ones (none for a nil map)
   * plus exactly one entry per rule, holding what that rule extracts.
   */
  lemma ExtractionSucceeds(result: TestResult, extractions: map<string, string>, order: seq<string>, lib: Libraries)
    requires Enumerates(order, extractions)
    requires ExtractRun(StartingVariables(result), RuleOutcomes(result, extractions, lib), order).1.None?
    ensures var out := ExtractRun(StartingVariables(result), RuleOutcomes(result, extractions, lib), order).0;
      && out.Keys == StartingVariables(result).Keys + extractions.Keys
      && (forall k :: k in extractions ==> ExtractValue(result, extractions[k], lib) == Ok(out[k]))
      && (forall k :: k in StartingVariables(result) && k !in extractions ==> out[k] == StartingVariables(result)[k])
  {
    RunWrites(StartingVariables(result), RuleOutcomes(result, extractions, lib), order);
    assert (set k | k in order) == extractions.Keys;
  }
}
