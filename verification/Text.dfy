/** Code-point order on text and sorted, duplicate-free listings of sets of text. */
module Text {

  /** Python's order on str: the first differing code point decides, and a prefix comes first. */
  predicate AtMost(a: string, b: string) {
    a == "" || (b != "" && (a[0] < b[0] || (a[0] == b[0] && AtMost(a[1..], b[1..]))))
  }

  predicate Before(a: string, b: string) {
    AtMost(a, b) && a != b
  }

  lemma {:induction false} AtMostAntisymmetric(a: string, b: string)
    requires AtMost(a, b) && AtMost(b, a)
    ensures a == b
  {
    if a != "" && b != "" {
      AtMostAntisymmetric(a[1..], b[1..]);
      assert a == [a[0]] + a[1..] && b == [b[0]] + b[1..];
    }
  }

  lemma {:induction false} AtMostTransitive(a: string, b: string, c: string)
    requires AtMost(a, b) && AtMost(b, c)
    ensures AtMost(a, c)
  {
    if a != "" && a[0] == b[0] == c[0] {
      AtMostTransitive(a[1..], b[1..], c[1..]);
    }
  }

  lemma {:induction false} AtMostTotal(a: string, b: string)
    ensures AtMost(a, b) || AtMost(b, a)
  {
    if a != "" && b != "" && a[0] == b[0] {
      AtMostTotal(a[1..], b[1..]);
    }
  }

  predicate IsLeast(m: string, s: set<string>) {
    m in s && forall x :: x in s ==> AtMost(m, x)
  }

  lemma {:induction false} LeastExists(s: set<string>)
    requires s != {}
    ensures exists m :: IsLeast(m, s)
    decreases |s|
  {
    var x :| x in s;
    AtMostTotal(x, x);
    if s == {x} {
      assert IsLeast(x, s);
    } else {
      LeastExists(s - {x});
      var m :| IsLeast(m, s - {x});
      AtMostTotal(x, m);
      var least := if AtMost(x, m) then x else m;
      forall y | y in s
        ensures AtMost(least, y)
      {
        if y != x && AtMost(x, m) {
          AtMostTransitive(x, m, y);
        }
      }
      assert IsLeast(least, s);
    }
  }

  function Least(s: set<string>): (m: string)
    requires s != {}
    ensures IsLeast(m, s)
  {
    LeastExists(s);
    assert forall m, n :: IsLeast(m, s) && IsLeast(n, s) ==> m == n by {
      forall m, n | IsLeast(m, s) && IsLeast(n, s)
        ensures m == n
      {
        AtMostAntisymmetric(m, n);
      }
    }
    var m :| m in s && IsLeast(m, s);
    m
  }

  /** `sorted(s)` for a set of text. */
  function Sorted(s: set<string>): (r: seq<string>)
    ensures Elements(r) == s
    ensures Ascending(r)
    ensures |r| == |s|
    decreases |s|
  {
    if s == {} then [] else
      var m := Least(s);
      Prepend(m, Sorted(s - {m}));
      [m] + Sorted(s - {m})
  }

  lemma Prepend(m: string, r: seq<string>)
    requires Ascending(r)
    requires forall x :: x in Elements(r) ==> Before(m, x)
    ensures Ascending([m] + r)
    ensures Elements([m] + r) == {m} + Elements(r)
  {
    var t := [m] + r;
    forall i, j | 0 <= i < j < |t|
      ensures Before(t[i], t[j])
    {
      assert t[j] == r[j - 1] && r[j - 1] in Elements(r);
      assert i > 0 ==> t[i] == r[i - 1];
    }
  }

  function Elements<T(==)>(r: seq<T>): set<T> {
    set x | x in r
  }

  /** Strictly increasing: every adjacent pair, hence every pair, is in order without repeats. */
  predicate Ascending(r: seq<string>) {
    forall i, j :: 0 <= i < j < |r| ==> Before(r[i], r[j])
  }

  lemma HeadIsLeast(r: seq<string>)
    requires r != [] && Ascending(r)
    ensures IsLeast(r[0], Elements(r))
    ensures Ascending(r[1..])
    ensures Elements(r[1..]) == Elements(r) - {r[0]}
  {
    AtMostTotal(r[0], r[0]);
    forall x | x in r[1..]
      ensures Before(r[0], x)
    {
      var i :| 0 <= i < |r[1..]| && r[1..][i] == x;
      assert Before(r[0], r[i + 1]);
    }
    forall x | x in r
      ensures AtMost(r[0], x)
    {
      assert x == r[0] || x in r[1..];
    }
    forall i, j | 0 <= i < j < |r| - 1
      ensures Before(r[1..][i], r[1..][j])
    {
      assert Before(r[i + 1], r[j + 1]);
    }
  }

  lemma NothingListed(r: seq<string>)
    ensures Elements(r) == {} <==> r == []
  {
    if r != [] {
      assert r[0] in Elements(r);
    }
  }

  /** A strictly increasing listing is the only one of its set. */
  lemma {:induction false} AscendingUnique(r: seq<string>, t: seq<string>)
    requires Ascending(r) && Ascending(t) && Elements(r) == Elements(t)
    ensures r == t
    decreases |r|
  {
    if r == [] {
      NothingListed(t);
    } else {
      assert r[0] in Elements(t);
      HeadIsLeast(r);
      HeadIsLeast(t);
      AtMostAntisymmetric(r[0], t[0]);
      AscendingUnique(r[1..], t[1..]);
      assert r == [r[0]] + r[1..] && t == [t[0]] + t[1..];
    }
  }

  lemma SortedUnique(r: seq<string>)
    ensures Ascending(r) <==> r == Sorted(Elements(r))
  {
    if Ascending(r) {
      AscendingUnique(r, Sorted(Elements(r)));
    }
  }

  predicate Distinct<T(==)>(r: seq<T>) {
    forall i, j :: 0 <= i < j < |r| ==> r[i] != r[j]
  }

  /** `len(r) == len(set(r))` says that nothing repeats. */
  lemma {:induction false} DistinctCount<T>(r: seq<T>)
    ensures Distinct(r) <==> |r| == |Elements(r)|
    ensures |Elements(r)| <= |r|
    decreases |r|
  {
    if r != [] {
      var t := r[..|r| - 1];
      DistinctCount(t);
      assert r == t + [r[|r| - 1]];
      assert Elements(r) == Elements(t) + {r[|r| - 1]};
      if r[|r| - 1] in t {
        assert Elements(r) == Elements(t);
      }
    }
  }
}
