/**
 * The dynamically typed values that flow through assertions and extraction: what YAML
 * decoding puts in `expected`, what encoding/json decodes a response into, and what the
 * HTML and header lookups produce. Go's `%v` rendering and the string order Go uses to
 * print map keys live here too.
 */
module Values {
  import opened GoStrings
  import opened GoStrconv
  import opened Wrappers
  import opened MapOrder

  /**
   * A Go `interface{}` value as the engine meets it: nil, bool, int, float64, string,
   * []string (several header values or selector matches), []interface{} and
   * map[string]interface{}. Two values are reflect.DeepEqual exactly when they are equal here.
   */
  datatype Value =
    | VNull
    | VBool(b: bool)
    | VInt(i: int)
    | VFloat(f: real)
    | VStr(s: string)
    | VStrings(strs: seq<string>)
    | VList(items: seq<Value>)
    | VObj(fields: map<string, Value>)

  /** Go's `%v` of an int. */
  function ShowInt(i: int): string
  {
    Itoa(i)
  }

  /** A float64 whose `%v` text is its integer digits: integral and below 1e6 in magnitude. */
  predicate PrintsAsInteger(f: real)
  {
    f == f.Floor as real && -1_000_000.0 < f < 1_000_000.0
  }

  /**
   * Go's `%v` rendering. `floatText` gives the shortest `%g` text of a float64 that is not a
   * small whole number (such as "3.14" or "1e+06"); whole numbers below 1e6 print as integers.
   */
  function Show(v: Value, floatText: real -> string): string
  {
    match v
    case VNull => "<nil>"
    case VBool(b) => FormatBool(b)
    case VInt(i) => ShowInt(i)
    case VFloat(f) => if PrintsAsInteger(f) then ShowInt(f.Floor) else floatText(f)
    case VStr(s) => s
    case VStrings(strs) => "[" + Join(strs, " ") + "]"
    case VList(items) =>
      "[" + Join(seq(|items|, i requires 0 <= i < |items| => Show(items[i], floatText)), " ") + "]"
    case VObj(fields) =>
      var keys := SortedKeys(fields.Keys);
      "map[" + Join(seq(|keys|, i requires 0 <= i < |keys| => keys[i] + ":" + Show(fields[keys[i]], floatText)), " ") + "]"
  }

  /** The `%v` text of an int reads back as the same int. */
  lemma ShowIntRoundTrip(i: int, floatText: real -> string)
    requires IsInt64(i)
    ensures Atoi(Show(VInt(i), floatText)) == Some(i)
  {
    AtoiItoa(i);
  }

  /** A whole float64 below 1e6 prints exactly like the int of the same value. */
  lemma ShowWholeFloat(n: int, floatText: real -> string)
    requires -1_000_000 < n < 1_000_000
    ensures Show(VFloat(n as real), floatText) == Show(VInt(n), floatText)
  {
  }
}
