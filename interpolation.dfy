/**
 * Variable interpolation (parser.go, InterpolateVariables): every `${key}` placeholder of the
 * text is replaced by the key's value, one key at a time, in the order `range` visits the map.
 */
module Interpolation {
  import opened GoStrings
  import opened MapOrder

  /** The placeholder text `${key}`. */
  function Placeholder(key: string): (p: string)
    ensures |p| == |key| + 3 && p[0] == '$' && p[1] == '{' && p[|p| - 1] == '}'
    ensures p[2..|p| - 1] == key
  {
    "${" + key + "}"
  }

  /** strings.ReplaceAll for a non-empty pattern: leftmost, non-overlapping occurrences, scanning left to right. */
  function ReplaceAll(s: string, pat: string, rep: string): string
    requires |pat| > 0
    decreases |s|
  {
    if |s| < |pat| then s
    else if s[..|pat|] == pat then rep + ReplaceAll(s[|pat|..], pat, rep)
    else [s[0]] + ReplaceAll(s[1..], pat, rep)
  }

  /** The text after replacing the keys of `order`, first to last, each by its value. */
  function InterpolateIn(text: string, variables: map<string, string>, order: seq<string>): string
    requires forall k :: k in order ==> k in variables
    decreases |order|
  {
    if order == [] then text
    else InterpolateIn(ReplaceAll(text, Placeholder(order[0]), variables[order[0]]), variables, order[1..])
  }

  /**
   * InterpolateVariables, parser.go: `order` is the order in which `range` visits the map,
   * which Go leaves unspecified.
   */
  method InterpolateVariables(text: string, variables: map<string, string>, order: seq<string>) returns (result: string)
    requires Enumerates(order, variables)
    ensures result == InterpolateIn(text, variables, order)
  {
    result := text;
    var i := 0;
    while i < |order|
      invariant 0 <= i <= |order|
      invariant InterpolateIn(result, variables, order[i..]) == InterpolateIn(text, variables, order)
    {
      assert order[i..][1..] == order[i + 1..];
      result := ReplaceAll(result, Placeholder(order[i]), variables[order[i]]);
      i := i + 1;
    }
  }

  /** The engine's interpolation with the map visited in ascending key order, one of the orders Go may use. */
  function Interpolate(text: string, variables: map<string, string>): string
  {
    SortedKeysEnumerate(variables);
    InterpolateIn(text, variables, SortedKeys(variables.Keys))
  }

  // ---------------------------------------------------------------------------------------
  // Texts without placeholders

  lemma {:induction false} ReplaceAllAbsent(s: string, pat: string, rep: string)
    requires |pat| > 0 && !Contains(s, pat)
    ensures ReplaceAll(s, pat, rep) == s
    decreases |s|
  {
    if |s| >= |pat| {
      ReplaceAllAbsent(s[1..], pat, rep);
      assert s == [s[0]] + s[1..];
    }
  }

  lemma {:induction false} ContainsLonger(s: string, p: string, q: string)
    requires Contains(s, p + q)
    ensures Contains(s, p)
    decreases |s|
  {
    if HasPrefix(s, p + q) {
      assert s[..|p|] == (p + q)[..|p|] == p;
    } else {
      ContainsLonger(s[1..], p, q);
    }
  }

  /** With an empty map the text comes back unchanged. */
  lemma InterpolateEmptyMap(text: string, order: seq<string>)
    requires Enumerates<string>(order, map[])
    ensures InterpolateIn(text, map[], order) == text
  {
    EnumeratesCount<string>(order, map[]);
  }

  /** A text without `${` comes back unchanged, whatever the variables and their order. */
  lemma {:induction false} InterpolateNoMarker(text: string, variables: map<string, string>, order: seq<string>)
    requires forall k :: k in order ==> k in variables
    requires !Contains(text, "${")
    ensures InterpolateIn(text, variables, order) == text
    decreases |order|
  {
    if order != [] {
      var k := order[0];
      assert Placeholder(k) == "${" + (k + "}");
      if Contains(text, Placeholder(k)) {
        ContainsLonger(text, "${", k + "}");
      }
      ReplaceAllAbsent(text, Placeholder(k), variables[k]);
      InterpolateNoMarker(text, variables, order[1..]);
    }
  }

  // ---------------------------------------------------------------------------------------
  // Texts made of literal pieces and placeholders

  /** A piece of a text: literal characters, or the placeholder of a variable name. */
  datatype Piece = Lit(text: string) | Hole(name: string)

  type Template = seq<Piece>

  /** A name that cannot run into the surrounding text: no `$` and no `}`. */
  predicate PlainName(k: string)
  {
    '$' !in k && '}' !in k
  }

  /** Literal pieces hold no `$` and holes have plain names. */
  predicate WellFormed(t: Template)
  {
    forall i :: 0 <= i < |t| ==> (t[i].Lit? ==> '$' !in t[i].text) && (t[i].Hole? ==> PlainName(t[i].name))
  }

  /** Variables that can be substituted without creating or breaking placeholders. */
  predicate PlainVariables(variables: map<string, string>)
  {
    forall k :: k in variables ==> PlainName(k) && '$' !in variables[k]
  }

  function RenderPiece(p: Piece): string
  {
    match p
    case Lit(s) => s
    case Hole(n) => Placeholder(n)
  }

  function Render(t: Template): string
    decreases |t|
  {
    if t == [] then "" else RenderPiece(t[0]) + Render(t[1..])
  }

  /** Every hole named `k` becomes the literal `v`. */
  function Fill(t: Template, k: string, v: string): (u: Template)
    ensures |u| == |t|
  {
    seq(|t|, i requires 0 <= i < |t| => if t[i] == Hole(k) then Lit(v) else t[i])
  }

  /** Every hole whose name is in `keys` becomes the literal value of that name. */
  function FillKeys(t: Template, variables: map<string, string>, keys: set<string>): (u: Template)
    requires keys <= variables.Keys
    ensures |u| == |t|
  {
    seq(|t|, i requires 0 <= i < |t| => if t[i].Hole? && t[i].name in keys then Lit(variables[t[i].name]) else t[i])
  }

  /** What interpolation means on a template: known holes filled, unknown holes kept. */
  function FillAll(t: Template, variables: map<string, string>): Template
  {
    FillKeys(t, variables, variables.Keys)
  }

  lemma {:induction false} ReplaceAllSkip(x: string, y: string, pat: string, rep: string)
    requires |pat| > 0
    requires forall i :: 0 <= i < |x| ==> !OccursAt(x + y, pat, i)
    ensures ReplaceAll(x + y, pat, rep) == x + ReplaceAll(y, pat, rep)
    decreases |x|
  {
    if x != [] {
      var s := x + y;
      assert s[1..] == x[1..] + y;
      NoOccurrenceShift(x, y, pat);
      ReplaceAllSkip(x[1..], y, pat, rep);
      ReplaceAllHead(s, pat, rep);
      assert s[0] == x[0];
      assert x == [x[0]] + x[1..];
    } else {
      assert x + y == y;
    }
  }

  /** Without an occurrence at the front, the first character is kept as it is. */
  lemma ReplaceAllHead(s: string, pat: string, rep: string)
    requires |pat| > 0 && s != [] && !OccursAt(s, pat, 0)
    ensures ReplaceAll(s, pat, rep) == [s[0]] + ReplaceAll(s[1..], pat, rep)
  {
    if |s| < |pat| {
      ReplaceAllShort(s[1..], pat, rep);
    } else {
      assert s[0..|pat|] == s[..|pat|];
    }
  }

  /** Text shorter than the pattern is left alone. */
  lemma ReplaceAllShort(s: string, pat: string, rep: string)
    requires |pat| > 0 && |s| < |pat|
    ensures ReplaceAll(s, pat, rep) == s
  {
  }

  /** No occurrence in the first `|x|` positions of `x + y` leaves none in the first `|x| - 1` of `x[1..] + y`. */
  lemma NoOccurrenceShift(x: string, y: string, pat: string)
    requires x != []
    requires forall i :: 0 <= i < |x| ==> !OccursAt(x + y, pat, i)
    ensures forall i :: 0 <= i < |x| - 1 ==> !OccursAt(x[1..] + y, pat, i)
  {
    var s := x + y;
    assert s[1..] == x[1..] + y;
    forall i | 0 <= i < |x| - 1 ensures !OccursAt(x[1..] + y, pat, i) {
      if i + |pat| <= |x[1..] + y| {
        assert s[1..][i..i + |pat|] == s[i + 1..i + 1 + |pat|];
      }
      assert !OccursAt(s, pat, i + 1);
    }
  }

  /** The placeholder of another plain name never starts inside a placeholder. */
  lemma HoleNoMatch(n: string, k: string, y: string)
    requires PlainName(n) && PlainName(k) && n != k
    ensures forall i :: 0 <= i < |Placeholder(n)| ==> !OccursAt(Placeholder(n) + y, Placeholder(k), i)
  {
    var s := Placeholder(n) + y;
    var pat := Placeholder(k);
    forall i | 0 <= i < |Placeholder(n)| ensures !OccursAt(s, pat, i) {
      if i + |pat| <= |s| {
      // a position j where the text and the pattern differ
      var j: int;
      if i > 0 {
        j := 0;
        if i == 1 {
          assert s[i] == '{';
        } else if i < 2 + |n| {
          assert s[i] == n[i - 2];
        } else {
          assert s[i] == '}';
        }
      } else if |k| < |n| {
        j := 2 + |k|;
        assert s[j] == n[|k|];
      } else if |k| == |n| {
        assert !(forall m :: 0 <= m < |n| ==> n[m] == k[m]);
        var m :| 0 <= m < |n| && n[m] != k[m];
        j := 2 + m;
        assert s[j] == n[m];
      } else {
        j := 2 + |n|;
        assert s[j] == '}' && pat[j] == k[|n|];
      }
      assert s[i..i + |pat|][j] == s[i + j];
      }
    }
  }

  lemma {:induction false} ReplaceAllRender(t: Template, k: string, v: string)
    requires WellFormed(t) && PlainName(k) && '$' !in v
    ensures ReplaceAll(Render(t), Placeholder(k), v) == Render(Fill(t, k, v))
    decreases |t|
  {
    if t != [] {
      var x := RenderPiece(t[0]);
      var y := Render(t[1..]);
      var pat := Placeholder(k);
      assert Fill(t, k, v)[1..] == Fill(t[1..], k, v);
      ReplaceAllRender(t[1..], k, v);
      match t[0]
      case Lit(s) =>
        forall i | 0 <= i < |x| ensures !OccursAt(x + y, pat, i) {
          assert (x + y)[i] == s[i];
        }
        ReplaceAllSkip(x, y, pat, v);
      case Hole(n) =>
        if n == k {
          assert (x + y)[..|pat|] == pat;
          assert (x + y)[|pat|..] == y;
        } else {
          HoleNoMatch(n, k, y);
          ReplaceAllSkip(x, y, pat, v);
        }
    }
  }

  lemma FillKeysStep(t: Template, variables: map<string, string>, done: set<string>, k: string)
    requires done <= variables.Keys && k in variables
    ensures Fill(FillKeys(t, variables, done), k, variables[k]) == FillKeys(t, variables, done + {k})
  {
  }

  lemma FillKeysWellFormed(t: Template, variables: map<string, string>, done: set<string>)
    requires WellFormed(t) && PlainVariables(variables) && done <= variables.Keys
    ensures WellFormed(FillKeys(t, variables, done))
  {
  }

  lemma {:induction false} InterpolateFromDone(t: Template, variables: map<string, string>, order: seq<string>, done: set<string>)
    requires WellFormed(t) && PlainVariables(variables)
    requires done <= variables.Keys
    requires forall k :: k in order ==> k in variables
    ensures InterpolateIn(Render(FillKeys(t, variables, done)), variables, order)
         == Render(FillKeys(t, variables, done + (set k | k in order)))
    decreases |order|
  {
    if order == [] {
      assert done + (set k | k in order) == done;
    } else {
      var k := order[0];
      var u := FillKeys(t, variables, done);
      FillKeysWellFormed(t, variables, done);
      ReplaceAllRender(u, k, variables[k]);
      FillKeysStep(t, variables, done, k);
      InterpolateFromDone(t, variables, order[1..], done + {k});
      assert done + {k} + (set j | j in order[1..]) == done + (set j | j in order);
    }
  }

  /**
   * On a well-formed text with plain variables, interpolation fills exactly the known
   * placeholders, every occurrence of each, and keeps the unknown ones.
   */
  lemma InterpolateTemplate(t: Template, variables: map<string, string>, order: seq<string>)
    requires WellFormed(t) && PlainVariables(variables)
    requires Enumerates(order, variables)
    ensures InterpolateIn(Render(t), variables, order) == Render(FillAll(t, variables))
  {
    assert FillKeys(t, variables, {}) == t;
    InterpolateFromDone(t, variables, order, {});
    assert {} + (set k | k in order) == variables.Keys;
  }

  /** For such texts Go's unspecified map order does not change the result. */
  lemma InterpolationOrderIrrelevant(t: Template, variables: map<string, string>, order1: seq<string>, order2: seq<string>)
    requires WellFormed(t) && PlainVariables(variables)
    requires Enumerates(order1, variables) && Enumerates(order2, variables)
    ensures InterpolateIn(Render(t), variables, order1) == InterpolateIn(Render(t), variables, order2)
  {
    InterpolateTemplate(t, variables, order1);
    InterpolateTemplate(t, variables, order2);
  }

  lemma {:induction false} RenderAppend(a: Template, b: Template)
    ensures Render(a + b) == Render(a) + Render(b)
    decreases |a|
  {
    if a != [] {
      assert (a + b)[1..] == a[1..] + b;
      RenderAppend(a[1..], b);
    } else {
      assert a + b == b;
    }
  }

  lemma RenderSplit(t: Template, i: int)
    requires 0 <= i < |t|
    ensures Render(t) == Render(t[..i]) + RenderPiece(t[i]) + Render(t[i + 1..])
  {
    assert t == t[..i] + [t[i]] + t[i + 1..];
    RenderAround(t[..i], t[i], t[i + 1..]);
  }

  /** A piece between two templates renders between their renderings. */
  lemma RenderAround(pre: Template, p: Piece, post: Template)
    ensures Render(pre + [p] + post) == Render(pre) + RenderPiece(p) + Render(post)
  {
    RenderAppend(pre + [p], post);
    RenderAppend(pre, [p]);
    RenderOne(p);
  }

  /**
   * Without an occurrence of the pattern across the seam, ReplaceAll works on each side of the
   * seam separately.
   */
  lemma {:induction false} ReplaceAllSplit(x: string, y: string, pat: string, rep: string)
    requires |pat| > 0
    requires forall j :: 0 <= j < |x| < j + |pat| ==> !OccursAt(x + y, pat, j)
    ensures ReplaceAll(x + y, pat, rep) == ReplaceAll(x, pat, rep) + ReplaceAll(y, pat, rep)
    decreases |x|
  {
    var s := x + y;
    if |x| < |pat| {
      ReplaceAllShort(x, pat, rep);
      ReplaceAllSkip(x, y, pat, rep);
    } else if x[..|pat|] == pat {
      var rest := x[|pat|..];
      assert s[..|pat|] == pat;
      assert s[|pat|..] == rest + y;
      SeamShift(x, y, pat, |pat|);
      ReplaceAllSplit(rest, y, pat, rep);
    } else {
      var rest := x[1..];
      assert s[..|pat|] == x[..|pat|];
      assert s[1..] == rest + y;
      SeamShift(x, y, pat, 1);
      ReplaceAllSplit(rest, y, pat, rep);
    }
  }

  /** Dropping `d` characters from the front keeps the seam free of occurrences. */
  lemma SeamShift(x: string, y: string, pat: string, d: nat)
    requires |pat| > 0 && d <= |x|
    requires forall j :: 0 <= j < |x| < j + |pat| ==> !OccursAt(x + y, pat, j)
    ensures forall j :: 0 <= j < |x[d..]| < j + |pat| ==> !OccursAt(x[d..] + y, pat, j)
  {
    var rest := x[d..];
    forall j | 0 <= j < |rest| < j + |pat| ensures !OccursAt(rest + y, pat, j) {
      assert !OccursAt(x + y, pat, j + d);
      if j + |pat| <= |rest + y| {
        assert (rest + y)[j..j + |pat|] == (x + y)[j + d..j + d + |pat|];
      }
    }
  }

  /** Replacing the placeholder of another plain name leaves an occurrence of `${k}` in place. */
  lemma ReplaceAllKeepsHole(s: string, j: string, v: string, k: string)
    requires PlainName(j) && PlainName(k) && j != k
    requires Contains(s, Placeholder(k))
    ensures Contains(ReplaceAll(s, Placeholder(j), v), Placeholder(k))
  {
    var pk := Placeholder(k);
    ContainsAt(s, pk);
    var i :| OccursAt(s, pk, i);
    var x, z := s[..i], s[i + |pk|..];
    assert s[i..] == pk + z;
    assert s == x + (pk + z);
    DollarStartsNoInnerMatch(s, i, j, k);
    KeepsHoleAt(x, z, j, v, k);
  }

  /** `${k}` sitting after `x`, with no `${j}` straddling the seam, survives replacing `${j}`. */
  lemma KeepsHoleAt(x: string, z: string, j: string, v: string, k: string)
    requires PlainName(j) && PlainName(k) && j != k
    requires forall q :: 0 <= q < |x| < q + |Placeholder(j)| ==>
      !OccursAt(x + (Placeholder(k) + z), Placeholder(j), q)
    ensures Contains(ReplaceAll(x + (Placeholder(k) + z), Placeholder(j), v), Placeholder(k))
  {
    var pk, pj := Placeholder(k), Placeholder(j);
    ReplaceAllSplit(x, pk + z, pj, v);
    HoleNoMatch(k, j, z);
    ReplaceAllSkip(pk, z, pj, v);
    ContainsMiddle(ReplaceAll(x, pj, v), pk, ReplaceAll(z, pj, v));
  }

  /** The placeholder of a name without `$` does not start before a `${k}` and run into it. */
  lemma DollarStartsNoInnerMatch(s: string, i: int, j: string, k: string)
    requires OccursAt(s, Placeholder(k), i) && '$' !in j
    ensures forall q :: 0 <= q < i < q + |Placeholder(j)| ==> !OccursAt(s, Placeholder(j), q)
  {
    var pj := Placeholder(j);
    assert s[i] == Placeholder(k)[0] == '$';
    forall q | 0 <= q < i < q + |pj| ensures !OccursAt(s, pj, q) {
    }
  }

  /**
   * A placeholder whose name has no value stays in the output, whatever the text, the values
   * and the order, as long as the names of the variables are plain.
   */
  lemma {:induction false} UnknownPlaceholderKept(text: string, variables: map<string, string>, order: seq<string>, k: string)
    requires forall j :: j in order ==> j in variables
    requires forall j :: j in variables ==> PlainName(j)
    requires PlainName(k) && k !in variables
    requires Contains(text, Placeholder(k))
    ensures Contains(InterpolateIn(text, variables, order), Placeholder(k))
    decreases |order|
  {
    if order != [] {
      ReplaceAllKeepsHole(text, order[0], variables[order[0]], k);
      UnknownPlaceholderKept(ReplaceAll(text, Placeholder(order[0]), variables[order[0]]), variables, order[1..], k);
    }
  }

  /** A variable name holding `}` can swallow another placeholder: `${a}b}` with `a}b`=`X` loses `${a}`. */
  lemma BraceInNameSwallowsPlaceholder()
    ensures Contains("${a}b}", Placeholder("a"))
    ensures InterpolateIn("${a}b}", map["a}b" := "X"], ["a}b"]) == "X"
  {
    assert HasPrefix("${a}b}", Placeholder("a"));
    var text := "${a}b}";
    assert text[..|Placeholder("a}b")|] == Placeholder("a}b");
    assert text[|Placeholder("a}b")|..] == "";
  }

  /** A pattern starting with `$` does not start inside a text without `$`. */
  lemma LitNoMatch(x: string, y: string, pat: string)
    requires '$' !in x && |pat| > 0 && pat[0] == '$'
    ensures forall i :: 0 <= i < |x| ==> !OccursAt(x + y, pat, i)
  {
    forall i | 0 <= i < |x| ensures !OccursAt(x + y, pat, i) {
      assert (x + y)[i] == x[i];
    }
  }

  /** A pattern absent from `y` does not start in the `y` part of `x + y`. */
  lemma ShiftNoMatch(x: string, y: string, pat: string)
    requires forall i :: 0 <= i <= |y| ==> !OccursAt(y, pat, i)
    ensures forall i :: |x| <= i <= |x + y| ==> !OccursAt(x + y, pat, i)
  {
    forall i | |x| <= i <= |x + y| ensures !OccursAt(x + y, pat, i) {
      if OccursAt(x + y, pat, i) {
        assert (x + y)[i..i + |pat|] == y[i - |x|..i - |x| + |pat|];
        assert OccursAt(y, pat, i - |x|);
      }
    }
  }

  lemma {:induction false} NoPlaceholderInRender(u: Template, k: string)
    requires WellFormed(u) && PlainName(k)
    requires forall i :: 0 <= i < |u| ==> u[i] != Hole(k)
    ensures forall i :: 0 <= i <= |Render(u)| ==> !OccursAt(Render(u), Placeholder(k), i)
    decreases |u|
  {
    if u != [] {
      var x := RenderPiece(u[0]);
      var y := Render(u[1..]);
      var pat := Placeholder(k);
      NoPlaceholderInRender(u[1..], k);
      if u[0].Lit? {
        LitNoMatch(x, y, pat);
      } else {
        HoleNoMatch(u[0].name, k, y);
      }
      ShiftNoMatch(x, y, pat);
    }
  }

  /** Replacement is global: no placeholder of a known name is left in the output. */
  lemma KnownPlaceholdersReplaced(t: Template, variables: map<string, string>, order: seq<string>, k: string)
    requires WellFormed(t) && PlainVariables(variables)
    requires Enumerates(order, variables)
    requires k in variables
    ensures !Contains(InterpolateIn(Render(t), variables, order), Placeholder(k))
  {
    InterpolateTemplate(t, variables, order);
    var u := FillAll(t, variables);
    FillKeysWellFormed(t, variables, variables.Keys);
    NoPlaceholderInRender(u, k);
    ContainsAt(Render(u), Placeholder(k));
  }

  /**
   * A stray `$` in the text can rebuild a placeholder that was just replaced: in `$${k}{k}`
   * with k empty, replacing `${k}` leaves `${k}`.
   */
  lemma StrayDollarRebuildsPlaceholder()
    ensures InterpolateIn("$${k}{k}", map["k" := ""], ["k"]) == Placeholder("k")
  {
    var text := "$${k}{k}";
    assert text[..4] != Placeholder("k");
    assert text[1..][..4] == Placeholder("k");
    assert text[1..][4..] == "{k}";
    assert ReplaceAll(text, Placeholder("k"), "") == "$" + "" + "{k}";
  }

  /** A placeholder starts with `${` and ends with `}`. */
  lemma PlaceholderWrapped(k: string)
    ensures HasPrefix(Placeholder(k), "${") && HasSuffix(Placeholder(k), "}")
  {
    var p := Placeholder(k);
    assert p[..2] == "${" && p[|p| - 1..] == "}";
  }

  /** A text that is exactly one placeholder becomes the value of its name, whatever the order. */
  lemma PlaceholderAlone(k: string, variables: map<string, string>, order: seq<string>)
    requires PlainName(k) && PlainVariables(variables)
    requires Enumerates(order, variables)
    ensures k in variables ==> InterpolateIn(Placeholder(k), variables, order) == variables[k]
    ensures k !in variables ==> InterpolateIn(Placeholder(k), variables, order) == Placeholder(k)
  {
    var t := [Hole(k)];
    assert t[1..] == [];
    assert Render(t) == Placeholder(k);
    InterpolateTemplate(t, variables, order);
    var u := FillAll(t, variables);
    assert u[0] == if k in variables then Lit(variables[k]) else Hole(k);
    assert u[1..] == [];
    assert Render(u) == RenderPiece(u[0]);
  }

  /** A one-piece template renders as the piece. */
  lemma RenderOne(a: Piece)
    ensures Render([a]) == RenderPiece(a)
  {
    assert [a][1..] == [];
    assert RenderPiece(a) + "" == RenderPiece(a);
  }

  /** A three-piece template renders as its pieces side by side. */
  lemma RenderThree(a: Piece, b: Piece, c: Piece)
    ensures Render([a, b, c]) == RenderPiece(a) + RenderPiece(b) + RenderPiece(c)
  {
    RenderTwo(a, b);
    RenderOne(c);
    assert [a, b, c] == [a, b] + [c];
    RenderAppend([a, b], [c]);
  }

  /** One placeholder between placeholder-free texts: the placeholder alone is replaced. */
  lemma PlaceholderBetween(pre: string, k: string, post: string, variables: map<string, string>, order: seq<string>)
    requires '$' !in pre && '$' !in post
    requires PlainName(k) && PlainVariables(variables)
    requires Enumerates(order, variables)
    ensures k in variables ==> InterpolateIn(pre + Placeholder(k) + post, variables, order) == pre + variables[k] + post
    ensures k !in variables ==> InterpolateIn(pre + Placeholder(k) + post, variables, order) == pre + Placeholder(k) + post
  {
    var t := [Lit(pre), Hole(k), Lit(post)];
    RenderThree(Lit(pre), Hole(k), Lit(post));
    InterpolateTemplate(t, variables, order);
    var hole := if k in variables then Lit(variables[k]) else Hole(k);
    assert FillAll(t, variables) == [Lit(pre), hole, Lit(post)];
    RenderThree(Lit(pre), hole, Lit(post));
  }

  /** A two-piece template renders as its pieces side by side. */
  lemma RenderTwo(a: Piece, b: Piece)
    ensures Render([a, b]) == RenderPiece(a) + RenderPiece(b)
  {
    RenderOne(a);
    RenderOne(b);
    assert [a, b] == [a] + [b];
    RenderAppend([a], [b]);
  }

  /** A placeholder followed by plain text: the placeholder is replaced, the text kept. */
  lemma PlaceholderFirst(k: string, name: string, variables: map<string, string>)
    requires PlainName(k) && '$' !in name && PlainVariables(variables) && k in variables
    ensures Interpolate(Placeholder(k) + name, variables) == variables[k] + name
  {
    var t := [Hole(k), Lit(name)];
    RenderTwo(Hole(k), Lit(name));
    HoleThenText(k, name, variables);
    var order := SortedKeys(variables.Keys);
    SortedKeysEnumerate(variables);
    InterpolateTemplate(t, variables, order);
    RenderTwo(Lit(variables[k]), Lit(name));
  }

  /** The template of a placeholder followed by plain text, and its filling. */
  lemma HoleThenText(k: string, name: string, variables: map<string, string>)
    requires PlainName(k) && '$' !in name && k in variables
    ensures WellFormed([Hole(k), Lit(name)])
    ensures FillAll([Hole(k), Lit(name)], variables) == [Lit(variables[k]), Lit(name)]
  {
    var t := [Hole(k), Lit(name)];
    var u := FillAll(t, variables);
    assert u[0] == Lit(variables[k]) && u[1] == Lit(name);
  }

  /** `${user_id}` with user_id=123 becomes `123`. */
  lemma UserIdExample()
    ensures InterpolateIn("${user_id}", map["user_id" := "123"], ["user_id"]) == "123"
  {
    var s := "${user_id}";
    assert s[..|Placeholder("user_id")|] == Placeholder("user_id");
    assert ReplaceAll(s[|s|..], Placeholder("user_id"), "123") == "";
  }

  /**
   * A value free of `${` does not make the order irrelevant: in `$${a}` with a=`{b}` and b=`X`,
   * visiting a first yields `X` and visiting b first yields `${b}`.
   */
  lemma InterpolationOrderMatters()
    ensures var vars := map["a" := "{b}", "b" := "X"];
      && Enumerates(["a", "b"], vars) && Enumerates(["b", "a"], vars)
      && (forall k :: k in vars ==> !Contains(vars[k], "${"))
      && InterpolateIn("$${a}", vars, ["a", "b"]) == "X"
      && InterpolateIn("$${a}", vars, ["b", "a"]) == "${b}"
  {
    var vars := map["a" := "{b}", "b" := "X"];
    AFirst();
    BFirst();
    assert !Contains("{b}", "${") by {
      assert "{b}"[..2] != "${";
      assert "{b}"[1..][..2] != "${";
      assert !Contains("{b}"[1..][1..], "${");
    }
    assert !Contains("X", "${");
  }

  /** With `a` first, `$${a}` becomes `${b}` and then `X`. */
  lemma AFirst()
    ensures InterpolateIn("$${a}", map["a" := "{b}", "b" := "X"], ["a", "b"]) == "X"
  {
    var vars := map["a" := "{b}", "b" := "X"];
    TwoKeys("$${a}", vars, "a", "b");
    InnerPlaceholder();
    assert "${b}"[..4] == Placeholder("b");
    assert ReplaceAll("${b}", Placeholder("b"), "X") == "X";
  }

  /** With `b` first, `${b}` does not occur yet, and then `${a}` is replaced. */
  lemma BFirst()
    ensures InterpolateIn("$${a}", map["a" := "{b}", "b" := "X"], ["b", "a"]) == "${b}"
  {
    var vars := map["a" := "{b}", "b" := "X"];
    TwoKeys("$${a}", vars, "b", "a");
    NoInnerB();
    InnerPlaceholder();
  }

  /** Interpolating along two keys replaces the first key's placeholder, then the second's. */
  lemma TwoKeys(text: string, variables: map<string, string>, x: string, y: string)
    requires x in variables && y in variables
    ensures InterpolateIn(text, variables, [x, y])
      == ReplaceAll(ReplaceAll(text, Placeholder(x), variables[x]), Placeholder(y), variables[y])
  {
    var once := ReplaceAll(text, Placeholder(x), variables[x]);
    assert [x, y][1..] == [y] && [y][1..] == [];
    assert InterpolateIn(text, variables, [x, y]) == InterpolateIn(once, variables, [y]);
    assert InterpolateIn(once, variables, [y]) == InterpolateIn(ReplaceAll(once, Placeholder(y), variables[y]), variables, []);
  }

  /** In `$${a}` the placeholder `${a}` starts at position 1; replacing it by `{b}` leaves `${b}`. */
  lemma InnerPlaceholder()
    ensures ReplaceAll("$${a}", Placeholder("a"), "{b}") == "${b}"
  {
    var text := "$${a}";
    assert text[..4] != Placeholder("a");
    assert text[1..][..4] == Placeholder("a");
    assert text[1..][4..] == "";
  }

  /** `$${a}` holds no `${b}`. */
  lemma NoInnerB()
    ensures ReplaceAll("$${a}", Placeholder("b"), "X") == "$${a}"
  {
    var text := "$${a}";
    assert !Contains(text, Placeholder("b")) by {
      assert text[..4][1] == '$' != Placeholder("b")[1];
      assert text[1..][..4][2] == 'a' != Placeholder("b")[2];
      MissingFirstChar(text[1..][1..], Placeholder("b"));
    }
    ReplaceAllAbsent(text, Placeholder("b"), "X");
  }
}
