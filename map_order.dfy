/**
 * Iteration over Go maps. Go leaves the order of `range` over a map unspecified; the model
 * passes that order explicitly as a sequence that lists each key once. Go's string order and
 * the ascending key order in which `%v` prints a map live here too.
 */
module MapOrder {

  /** `order` lists every key of `m` exactly once: one possible order of `range m`. */
  predicate Enumerates<V>(order: seq<string>, m: map<string, V>)
  {
    (forall k :: k in order ==> k in m) &&
    (forall k :: k in m ==> k in order) &&
    (forall i, j :: 0 <= i < j < |order| ==> order[i] != order[j])
  }

  /** Go's `<=` on strings: lexicographic on characters. */
  predicate LexLe(a: string, b: string)
    decreases |a|
  {
    a == [] || (b != [] && (a[0] < b[0] || (a[0] == b[0] && LexLe(a[1..], b[1..]))))
  }

  lemma {:induction false} LexLeAntisymmetric(a: string, b: string)
    requires LexLe(a, b) && LexLe(b, a)
    ensures a == b
    decreases |a|
  {
    if a != [] {
      LexLeAntisymmetric(a[1..], b[1..]);
      assert a == [a[0]] + a[1..] && b == [b[0]] + b[1..];
    }
  }

  lemma {:induction false} LexLeTransitive(a: string, b: string, c: string)
    requires LexLe(a, b) && LexLe(b, c)
    ensures LexLe(a, c)
    decreases |a|
  {
    if a != [] && a[0] == b[0] && b[0] == c[0] {
      LexLeTransitive(a[1..], b[1..], c[1..]);
    }
  }

  lemma {:induction false} LexLeTotal(a: string, b: string)
    ensures LexLe(a, b) || LexLe(b, a)
    decreases |a|
  {
    if a != [] && b != [] && a[0] == b[0] {
      LexLeTotal(a[1..], b[1..]);
    }
  }

  predicate IsLeast(m: string, s: set<string>)
  {
    m in s && forall y :: y in s ==> LexLe(m, y)
  }

  lemma {:induction false} LeastExists(s: set<string>)
    requires s != {}
    ensures exists m :: IsLeast(m, s)
    decreases |s|
  {
    var x :| x in s;
    var rest := s - {x};
    if rest == {} {
      assert s == {x};
      LexLeTotal(x, x);
      assert IsLeast(x, s);
    } else {
      LeastExists(rest);
      var m :| IsLeast(m, rest);
      LexLeTotal(x, m);
      if LexLe(x, m) {
        forall y | y in s ensures LexLe(x, y) {
          if y != x {
            LexLeTransitive(x, m, y);
          } else {
            LexLeTotal(x, x);
          }
        }
        assert IsLeast(x, s);
      } else {
        assert IsLeast(m, s);
      }
    }
  }

  lemma LeastUnique(s: set<string>)
    ensures forall m, n :: IsLeast(m, s) && IsLeast(n, s) ==> m == n
  {
    forall m, n | IsLeast(m, s) && IsLeast(n, s) ensures m == n {
      LexLeAntisymmetric(m, n);
    }
  }

  /** The keys of a map in the order `%v` prints them: ascending, each once. */
  function SortedKeys(s: set<string>): (keys: seq<string>)
    ensures |keys| == |s|
    ensures forall k :: k in keys <==> k in s
    ensures forall i, j :: 0 <= i < j < |keys| ==> LexLe(keys[i], keys[j]) && keys[i] != keys[j]
    decreases |s|
  {
    if s == {} then []
    else
      LeastExists(s);
      LeastUnique(s);
      var m :| IsLeast(m, s);
      var rest := SortedKeys(s - {m});
      PrependLeast(m, s, rest);
      [m] + rest
  }

  /** The least key followed by the rest in ascending order lists the whole set in ascending order. */
  lemma PrependLeast(m: string, s: set<string>, rest: seq<string>)
    requires IsLeast(m, s)
    requires |rest| == |s - {m}|
    requires forall k :: k in rest <==> k in s - {m}
    requires forall i, j :: 0 <= i < j < |rest| ==> LexLe(rest[i], rest[j]) && rest[i] != rest[j]
    ensures |[m] + rest| == |s|
    ensures forall k :: k in [m] + rest <==> k in s
    ensures forall i, j :: 0 <= i < j < |[m] + rest| ==> LexLe(([m] + rest)[i], ([m] + rest)[j]) && ([m] + rest)[i] != ([m] + rest)[j]
  {
    var keys := [m] + rest;
    forall i, j | 0 <= i < j < |keys|
      ensures LexLe(keys[i], keys[j]) && keys[i] != keys[j]
    {
      if i == 0 {
        assert keys[j] == rest[j - 1] && keys[j] in rest;
      } else {
        assert keys[i] == rest[i - 1] && keys[j] == rest[j - 1];
      }
    }
  }

  /** Ascending key order is one of the orders `range` may produce. */
  lemma SortedKeysEnumerate<V>(m: map<string, V>)
    ensures Enumerates(SortedKeys(m.Keys), m)
  {
  }

  /** `acc` holds exactly the entries of `target` at the first `i` keys of `order`. */
  ghost predicate BuiltAlong<V>(acc: map<string, V>, target: map<string, V>, order: seq<string>, i: nat)
    requires i <= |order|
  {
    && (forall k :: k in acc <==> k in order[..i])
    && (forall k :: k in acc ==> k in target && acc[k] == target[k])
  }

  /** Storing the entry of the next key of the enumeration extends what has been built. */
  lemma BuildAlongStep<V>(acc: map<string, V>, target: map<string, V>, order: seq<string>, i: nat)
    requires Enumerates(order, target) && i < |order|
    requires BuiltAlong(acc, target, order, i)
    ensures BuiltAlong(acc[order[i] := target[order[i]]], target, order, i + 1)
  {
    assert order[..i + 1] == order[..i] + [order[i]];
  }

  /** Built along the whole enumeration, the map is the target. */
  lemma BuildAlongDone<V>(acc: map<string, V>, target: map<string, V>, order: seq<string>)
    requires Enumerates(order, target)
    requires BuiltAlong(acc, target, order, |order|)
    ensures acc == target
  {
    assert order[..|order|] == order;
    assert acc.Keys == target.Keys;
  }

  lemma {:induction false} DistinctCount(order: seq<string>)
    requires forall i, j :: 0 <= i < j < |order| ==> order[i] != order[j]
    ensures |set k | k in order| == |order|
  {
    if order != [] {
      DistinctCount(order[1..]);
      assert (set k | k in order) == {order[0]} + (set k | k in order[1..]);
      assert order[0] !in order[1..];
    }
  }

  /** An enumeration of a map has one entry per key. */
  lemma EnumeratesCount<V>(order: seq<string>, m: map<string, V>)
    requires Enumerates(order, m)
    ensures |order| == |m|
  {
    DistinctCount(order);
    assert (set k | k in order) == m.Keys;
  }
}
