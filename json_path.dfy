/**
 * The home-grown JSON path of the assertion engine and the extractor (assertions.go:267-310,
 * extractor.go:119-182): a dotted list of segments, each an object key, `key[i]` (the key,
 * then index i) or `[i]` (index the current value). A missing key yields null.
 *
 * `Step` and `Walk` are the walk the rest of the model uses. In Go two inputs crash the walk
 * with a runtime panic instead of returning an error; `StepAsWritten` records that, and
 * `Step` returns an error for them instead.
 */
module JsonPath {
  import opened Wrappers
  import opened GoStrings
  import opened GoStrconv
  import opened Values
  import opened Types

  /** The segments of an assertion path: a leading `$.` removed, then split at every `.`. */
  function PathParts(path: string): (parts: seq<string>)
    ensures |parts| >= 1
  {
    Split(TrimPrefix(path, "$."), '.')
  }

  /** `m[key]` on a Go map[string]interface{}: nil for a missing key. */
  function Lookup(fields: map<string, Value>, key: string): (v: Value)
    ensures key !in fields ==> v == VNull
  {
    if key in fields then fields[key] else VNull
  }

  /** A segment that is treated as `key[index]`: it mentions both brackets. */
  predicate Indexed(part: string)
  {
    '[' in part && ']' in part
  }

  /** The value `key[...]` indexes into: the current value when the key is empty. */
  function Container(current: Value, key: string): (r: Result<Value, PathError>)
    ensures key == "" ==> r == Ok(current)
    ensures key != "" && !current.VObj? ==> r == Err(ExpectedObject(key))
  {
    if key == "" then Ok(current)
    else if current.VObj? then Ok(Lookup(current.fields, key))
    else Err(ExpectedObject(key))
  }

  /** One segment of the walk. */
  function Step(current: Value, part: string): Result<Value, PathError>
  {
    if Indexed(part) then
      var open := IndexOf(part, '[');
      var close := IndexOf(part, ']');
      if close < open then Err(InvalidArrayIndex(part))
      else
        var indexText := part[open + 1..close];
        match Atoi(indexText)
        case None => Err(InvalidArrayIndex(indexText))
        case Some(index) =>
          match Container(current, part[..open])
          case Err(e) => Err(e)
          case Ok(arr) =>
            if !arr.VList? then Err(ExpectedArray(index))
            else if index < 0 || index >= |arr.items| then Err(IndexOutOfBounds(index))
            else Ok(arr.items[index])
    else if current.VObj? then Ok(Lookup(current.fields, part))
    else Err(ExpectedObject(part))
  }

  /** The walk over all segments; empty segments are skipped, the first error stops it. */
  function Walk(current: Value, parts: seq<string>): Result<Value, PathError>
    decreases |parts|
  {
    if parts == [] then Ok(current)
    else if parts[0] == "" then Walk(current, parts[1..])
    else
      match Step(current, parts[0])
      case Err(e) => Err(e)
      case Ok(next) => Walk(next, parts[1..])
  }

  /** Where the assertion engine's path leads in a decoded document. */
  function Resolve(data: Value, path: string): Result<Value, PathError>
  {
    Walk(data, PathParts(path))
  }

  // ---------------------------------------------------------------------------------------
  // The walk as Go executes it: None is a runtime panic.

  /**
   * One segment as written in Go: `part[:open]` and `part[open+1:close]` panic when `]` comes
   * before `[`, and `currentArray[index]` panics for a negative index, which the bounds test
   * `index >= len(currentArray)` lets through.
   */
  function StepAsWritten(current: Value, part: string): Option<Result<Value, PathError>>
  {
    if Indexed(part) then
      var open := IndexOf(part, '[');
      var close := IndexOf(part, ']');
      if close < open + 1 then
        (if close < open then None else Some(Err(InvalidArrayIndex(""))))
      else
        var indexText := part[open + 1..close];
        match Atoi(indexText)
        case None => Some(Err(InvalidArrayIndex(indexText)))
        case Some(index) =>
          match Container(current, part[..open])
          case Err(e) => Some(Err(e))
          case Ok(arr) =>
            if !arr.VList? then Some(Err(ExpectedArray(index)))
            else if index >= |arr.items| then Some(Err(IndexOutOfBounds(index)))
            else if index < 0 then None
            else Some(Ok(arr.items[index]))
    else if current.VObj? then Some(Ok(Lookup(current.fields, part)))
    else Some(Err(ExpectedObject(part)))
  }

  /** Wherever Go's step does not panic, it agrees with `Step`. */
  lemma StepAgrees(current: Value, part: string)
    ensures StepAsWritten(current, part).Some? ==> StepAsWritten(current, part).value == Step(current, part)
  {
    if Indexed(part) {
      var open := IndexOf(part, '[');
      var close := IndexOf(part, ']');
      if close == open + 1 {
        assert part[open + 1..close] == "";
      }
    }
  }

  /**
   * A negative index such as `items[-1]` on an array: Go panics (index out of range), the
   * walk reports the index out of bounds.
   */
  lemma NegativeIndexPanics(v: Value, key: string, n: int)
    requires '[' !in key && ']' !in key
    requires 1 <= n <= 0x8000_0000_0000_0000
    requires Container(v, key).Ok? && Container(v, key).value.VList?
    ensures StepAsWritten(v, key + "[" + Itoa(-n) + "]").None?
    ensures Step(v, key + "[" + Itoa(-n) + "]") == Err(IndexOutOfBounds(-n))
  {
    var text := Itoa(-n);
    var part := key + "[" + text + "]";
    NegativeIndexSegment(key, n);
    assert part[..|key|] == key;
    NegativeIndexStep(v, part, |key|, |key| + 1 + |text|, -n);
  }

  /** A negative index into an array: Go panics, the walk reports the index out of bounds. */
  lemma NegativeIndexStep(v: Value, part: string, open: int, close: int, index: int)
    requires Indexed(part) && IndexOf(part, '[') == open && IndexOf(part, ']') == close
    requires 0 <= open < close <= |part| && open + 1 < close
    requires Atoi(part[open + 1..close]) == Some(index) && index < 0
    requires Container(v, part[..open]).Ok? && Container(v, part[..open]).value.VList?
    ensures StepAsWritten(v, part).None?
    ensures Step(v, part) == Err(IndexOutOfBounds(index))
  {
  }

  /** How the segment `key[-n]` is taken apart. */
  lemma NegativeIndexSegment(key: string, n: int)
    requires '[' !in key && ']' !in key
    requires 1 <= n <= 0x8000_0000_0000_0000
    ensures var part := key + "[" + Itoa(-n) + "]";
      && Indexed(part)
      && IndexOf(part, '[') == |key| && IndexOf(part, ']') == |key| + 1 + |Itoa(-n)|
      && part[..|key|] == key
      && Atoi(part[|key| + 1..|key| + 1 + |Itoa(-n)|]) == Some(-n)
  {
    var text := Itoa(-n);
    assert text == "-" + NatText(n);
    forall j | 0 <= j < |text| ensures text[j] != '[' && text[j] != ']' {
      if j > 0 {
        assert text[j] == NatText(n)[j - 1];
        assert IsDigit(NatText(n)[j - 1]);
      }
    }
    BracketPositions(key, text);
    AtoiItoa(-n);
  }

  /** `a]b[0`: `]` before `[` makes Go's slice expression panic; the walk reports a bad index. */
  lemma ClosingBracketFirstPanics()
    ensures StepAsWritten(VObj(map[]), "a]b[0").None?
    ensures Step(VObj(map[]), "a]b[0") == Err(InvalidArrayIndex("a]b[0"))
  {
    var part := "a]b[0";
    assert part[..3] == "a]b" && part[..1] == "a";
    IndexOfIs(part, '[', 3);
    IndexOfIs(part, ']', 1);
    ClosingBracketFirstStep(VObj(map[]), part);
  }

  /**
   * Any segment whose first `]` comes before its first `[`: Go's slice expression panics, the
   * walk reports the whole segment as a bad index.
   */
  lemma ClosingBracketFirstStep(v: Value, part: string)
    requires Indexed(part) && IndexOf(part, ']') < IndexOf(part, '[')
    ensures StepAsWritten(v, part).None?
    ensures Step(v, part) == Err(InvalidArrayIndex(part))
  {
  }

  // ---------------------------------------------------------------------------------------
  // Properties of the walk

  /** One segment of the walk: an empty one is skipped, otherwise the step's error stops it. */
  lemma WalkFirst(current: Value, parts: seq<string>)
    requires parts != []
    ensures parts[0] == "" ==> Walk(current, parts) == Walk(current, parts[1..])
    ensures parts[0] != "" && Step(current, parts[0]).Err? ==> Walk(current, parts) == Err(Step(current, parts[0]).error)
    ensures parts[0] != "" && Step(current, parts[0]).Ok? ==> Walk(current, parts) == Walk(Step(current, parts[0]).value, parts[1..])
  {
  }

  /** The walk is compositional: walking `p + q` walks `p`, then `q` from where `p` ended. */
  lemma {:induction false} WalkAppend(v: Value, p: seq<string>, q: seq<string>)
    ensures Walk(v, p + q) == match Walk(v, p) case Err(e) => Err(e) case Ok(w) => Walk(w, q)
    decreases |p|
  {
    if p == [] {
      assert p + q == q;
    } else {
      assert (p + q)[0] == p[0];
      assert (p + q)[1..] == p[1..] + q;
      if p[0] == "" {
        WalkAppend(v, p[1..], q);
      } else if Step(v, p[0]).Ok? {
        WalkAppend(Step(v, p[0]).value, p[1..], q);
      }
    }
  }

  /** A segment without brackets looks the key up in an object; a missing key is null, not an error. */
  lemma KeyStep(fields: map<string, Value>, key: string)
    requires key != "" && '[' !in key
    ensures Step(VObj(fields), key) == Ok(if key in fields then fields[key] else VNull)
  {
  }

  /** A segment without brackets on anything but an object is an error naming the key. */
  lemma KeyStepNeedsObject(v: Value, key: string)
    requires key != "" && '[' !in key && !v.VObj?
    ensures Step(v, key) == Err(ExpectedObject(key))
  {
  }

  /** The positions of the brackets in `key[text]` when neither `key` nor `text` holds one. */
  lemma BracketPositions(key: string, text: string)
    requires '[' !in key && ']' !in key && '[' !in text && ']' !in text
    ensures var part := key + "[" + text + "]";
      && Indexed(part)
      && IndexOf(part, '[') == |key| && IndexOf(part, ']') == |key| + 1 + |text|
      && part[..|key|] == key && part[|key| + 1..|key| + 1 + |text|] == text
  {
    var part := key + "[" + text + "]";
    assert part[..|key|] == key;
    assert part[..|key| + 1 + |text|] == key + "[" + text;
    IndexOfIs(part, '[', |key|);
    IndexOfIs(part, ']', |key| + 1 + |text|);
    assert part[|key| + 1..|key| + 1 + |text|] == text;
  }

  /**
   * `key[i]` with a plain key and a decimal index: the key is looked up (or the current value
   * used when the key is empty), then indexed; a non-array or an index past the end is an error.
   */
  lemma IndexedStep(v: Value, key: string, i: nat)
    requires '[' !in key && ']' !in key && IsInt64(i)
    ensures Step(v, key + "[" + Itoa(i) + "]") ==
      match Container(v, key)
      case Err(e) => Err(e)
      case Ok(arr) =>
        if !arr.VList? then Err(ExpectedArray(i))
        else if i >= |arr.items| then Err(IndexOutOfBounds(i))
        else Ok(arr.items[i])
  {
    var digits := Itoa(i);
    assert AllDigits(digits);
    forall j | 0 <= j < |digits| ensures digits[j] != '[' && digits[j] != ']' {
      assert IsDigit(digits[j]);
    }
    BracketPositions(key, digits);
    AtoiItoa(i);
    var part := key + "[" + digits + "]";
    IndexedStepAt(v, part, |key|, |key| + 1 + |digits|, i);
  }

  /** A segment whose brackets enclose a decimal integer: the container, then the element. */
  lemma IndexedStepAt(v: Value, part: string, open: int, close: int, index: int)
    requires Indexed(part) && IndexOf(part, '[') == open && IndexOf(part, ']') == close
    requires 0 <= open < close <= |part|
    requires Atoi(part[open + 1..close]) == Some(index)
    ensures Step(v, part) ==
      match Container(v, part[..open])
      case Err(e) => Err(e)
      case Ok(arr) =>
        if !arr.VList? then Err(ExpectedArray(index))
        else if index < 0 || index >= |arr.items| then Err(IndexOutOfBounds(index))
        else Ok(arr.items[index])
  {
  }

  /** A segment whose brackets hold no decimal integer is an invalid-index error. */
  lemma BadIndexStep(v: Value, key: string, text: string)
    requires '[' !in key && ']' !in key && '[' !in text && ']' !in text
    requires Atoi(text).None?
    ensures Step(v, key + "[" + text + "]") == Err(InvalidArrayIndex(text))
  {
    BracketPositions(key, text);
  }

  /** An empty path, or `$.` alone, is the whole document. */
  lemma EmptyPathIsDocument(data: Value)
    ensures Resolve(data, "") == Ok(data)
    ensures Resolve(data, "$.") == Ok(data)
  {
    assert TrimPrefix("$.", "$.") == "";
    assert Split("", '.') == [""];
  }

  /** A plain key as the whole path looks the key up in the document. */
  lemma PlainKeyResolves(fields: map<string, Value>, key: string)
    requires key != "" && '.' !in key && '[' !in key && '$' !in key
    ensures Resolve(VObj(fields), key) == Ok(Lookup(fields, key))
  {
    if |key| >= 2 {
      assert key[..2][0] != '$';
    }
    assert Split(key, '.') == [key];
    assert Walk(VObj(fields), [key]) == Step(VObj(fields), key);
  }

  /** `$.a` on an object without key `a` resolves to null. */
  lemma MissingKeyIsNull(fields: map<string, Value>, key: string)
    requires key != "" && '.' !in key && '[' !in key && key !in fields
    requires !HasPrefix(key, "$.")
    ensures Resolve(VObj(fields), "$." + key) == Ok(VNull)
  {
    assert ("$." + key)[..2] == "$.";
    assert TrimPrefix("$." + key, "$.") == key;
    assert Split(key, '.') == [key];
    assert Walk(VObj(fields), [key]) == Step(VObj(fields), key);
  }
}
