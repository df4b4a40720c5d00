/** The order of JavaScript's default `Array.prototype.sort` on strings,
    taken here as lexicographic order on characters, and the sorted listing
    of a finite set of names that `Object.keys(..).sort()` produces. */
module Ordering {

  /** `a` sorts at or before `b`: `a` is a prefix of `b`, or at the first
      difference `a` has the smaller character. */
  predicate Below(a: string, b: string) {
    if a == [] then true
    else if b == [] then false
    else if a[0] != b[0] then a[0] < b[0]
    else Below(a[1..], b[1..])
  }

  lemma {:induction false} BelowReflexive(a: string)
    ensures Below(a, a)
  {
    if a != [] {
      BelowReflexive(a[1..]);
    }
  }

  lemma {:induction false} BelowAntisymmetric(a: string, b: string)
    requires Below(a, b) && Below(b, a)
    ensures a == b
  {
    if a != [] && b != [] {
      BelowAntisymmetric(a[1..], b[1..]);
      assert a == [a[0]] + a[1..];
      assert b == [b[0]] + b[1..];
    }
  }

  lemma {:induction false} BelowTransitive(a: string, b: string, c: string)
    requires Below(a, b) && Below(b, c)
    ensures Below(a, c)
  {
    if a != [] && b != [] && c != [] && a[0] == b[0] && b[0] == c[0] {
      BelowTransitive(a[1..], b[1..], c[1..]);
    }
  }

  lemma {:induction false} BelowTotal(a: string, b: string)
    ensures Below(a, b) || Below(b, a)
  {
    if a != [] && b != [] && a[0] == b[0] {
      BelowTotal(a[1..], b[1..]);
    }
  }

  /** Strictly increasing: sorted, and so free of duplicates. */
  predicate StrictlySorted(s: seq<string>) {
    forall i, j :: 0 <= i < j < |s| ==> Below(s[i], s[j]) && s[i] != s[j]
  }

  predicate IsLeast(m: string, names: set<string>) {
    m in names && forall y :: y in names ==> Below(m, y)
  }

  lemma {:induction false} LeastExists(names: set<string>)
    requires names != {}
    ensures exists m :: IsLeast(m, names)
    decreases |names|
  {
    var x :| x in names;
    var rest := names - {x};
    if rest == {} {
      assert names == {x};
      BelowReflexive(x);
      assert IsLeast(x, names);
    } else {
      LeastExists(rest);
      var m' :| IsLeast(m', rest);
      BelowTotal(x, m');
      if Below(x, m') {
        BelowReflexive(x);
        forall y | y in names ensures Below(x, y) {
          if y != x {
            BelowTransitive(x, m', y);
          }
        }
        assert IsLeast(x, names);
      } else {
        forall y | y in names ensures Below(m', y) {
          if y == x {
            BelowTotal(m', x);
          }
        }
        assert IsLeast(m', names);
      }
    }
  }

  lemma LeastUnique(names: set<string>)
    ensures forall m, m' :: IsLeast(m, names) && IsLeast(m', names) ==> m == m'
  {
    forall m, m' | IsLeast(m, names) && IsLeast(m', names) ensures m == m' {
      BelowAntisymmetric(m, m');
    }
  }

  /** The least name of a non-empty set. */
  function Least(names: set<string>): (m: string)
    requires names != {}
    ensures IsLeast(m, names)
  {
    LeastExists(names);
    LeastUnique(names);
    var m :| IsLeast(m, names); m
  }

  /** `[...names].sort()`: the names of the set in increasing order. */
  function SortSet(names: set<string>): (r: seq<string>)
    ensures |r| == |names|
    ensures forall x :: x in names <==> x in r
    ensures StrictlySorted(r)
    decreases |names|
  {
    if names == {} then []
    else
      var m := Least(names);
      var rest := SortSet(names - {m});
      LeastThenRest(names, m, rest);
      [m] + rest
  }

  lemma LeastThenRest(names: set<string>, m: string, rest: seq<string>)
    requires IsLeast(m, names)
    requires |rest| == |names - {m}| && StrictlySorted(rest)
    requires forall x :: x in names - {m} <==> x in rest
    ensures |[m] + rest| == |names|
    ensures forall x :: x in names <==> x in [m] + rest
    ensures StrictlySorted([m] + rest)
  {
    var r := [m] + rest;
    forall i, j | 0 <= i < j < |r| ensures Below(r[i], r[j]) && r[i] != r[j] {
      assert r[j] == rest[j - 1] && rest[j - 1] in rest;
      if i > 0 {
        assert r[i] == rest[i - 1];
      }
    }
  }

  /** A set has exactly one strictly sorted listing: the one `SortSet` gives. */
  lemma {:induction false} SortedListingUnique(a: seq<string>, b: seq<string>)
    requires StrictlySorted(a) && StrictlySorted(b)
    requires forall x :: x in a <==> x in b
    ensures a == b
    decreases |a|
  {
    assert a != [] ==> a[0] in b;
    assert b != [] ==> b[0] in a;
    if a != [] && b != [] {
      assert a[0] == b[0] by {
        assert a[0] in b && b[0] in a;
        var i :| 0 <= i < |b| && b[i] == a[0];
        var j :| 0 <= j < |a| && a[j] == b[0];
        assert Below(b[0], a[0]) by { if i > 0 { assert Below(b[0], b[i]); } else { BelowReflexive(b[0]); } }
        assert Below(a[0], b[0]) by { if j > 0 { assert Below(a[0], a[j]); } else { BelowReflexive(a[0]); } }
        BelowAntisymmetric(a[0], b[0]);
      }
      forall x ensures x in a[1..] <==> x in b[1..] {
        if x in a[1..] {
          var i :| 1 <= i < |a| && a[i] == x;
          assert x != a[0];
          assert x in a && x in b;
          var j :| 0 <= j < |b| && b[j] == x;
          assert j != 0;
          assert b[1..][j - 1] == x;
        }
        if x in b[1..] {
          var i :| 1 <= i < |b| && b[i] == x;
          assert x != b[0];
          assert x in b && x in a;
          var j :| 0 <= j < |a| && a[j] == x;
          assert j != 0;
          assert a[1..][j - 1] == x;
        }
      }
      SortedListingUnique(a[1..], b[1..]);
      assert a == [a[0]] + a[1..];
      assert b == [b[0]] + b[1..];
    }
  }
}
