/** The order `sorted()` puts paths in: Python compares two `PurePosixPath`s
    by their lists of components, and lists and strings lexicographically (a
    proper prefix comes first; strings compare character by character by code
    point). */
module PathOrder {
  import opened FsModel

  /** `a < b` on Python strings. */
  predicate StrLess(a: string, b: string)
    decreases |a|
  {
    if a == [] then b != []
    else if b == [] then false
    else if a[0] == b[0] then StrLess(a[1..], b[1..])
    else a[0] < b[0]
  }

  /** `a < b` on paths. */
  predicate PathLess(a: Path, b: Path)
    decreases |a|
  {
    if a == [] then b != []
    else if b == [] then false
    else if a[0] == b[0] then PathLess(a[1..], b[1..])
    else StrLess(a[0], b[0])
  }

  lemma {:induction false} StrLessIrreflexive(a: string)
    ensures !StrLess(a, a)
    decreases |a|
  {
    if a != [] {
      StrLessIrreflexive(a[1..]);
    }
  }

  lemma {:induction false} StrLessTransitive(a: string, b: string, c: string)
    ensures StrLess(a, b) && StrLess(b, c) ==> StrLess(a, c)
    decreases |a|
  {
    if a != [] && b != [] && c != [] && a[0] == b[0] && b[0] == c[0] {
      StrLessTransitive(a[1..], b[1..], c[1..]);
    }
  }

  lemma {:induction false} StrLessTotal(a: string, b: string)
    ensures a == b || StrLess(a, b) || StrLess(b, a)
    decreases |a|
  {
    if a != [] && b != [] && a[0] == b[0] {
      StrLessTotal(a[1..], b[1..]);
      if a[1..] == b[1..] {
        assert a == [a[0]] + a[1..] && b == [b[0]] + b[1..];
      }
    }
  }

  lemma {:induction false} StrLessAsymmetric(a: string, b: string)
    ensures StrLess(a, b) ==> !StrLess(b, a)
  {
    StrLessTransitive(a, b, a);
    StrLessIrreflexive(a);
  }

  lemma {:induction false} PathLessIrreflexive(a: Path)
    ensures !PathLess(a, a)
    decreases |a|
  {
    if a != [] {
      PathLessIrreflexive(a[1..]);
    }
  }

  lemma {:induction false} PathLessTransitive(a: Path, b: Path, c: Path)
    ensures PathLess(a, b) && PathLess(b, c) ==> PathLess(a, c)
    decreases |a|
  {
    if a != [] && b != [] && c != [] {
      if a[0] == b[0] && b[0] == c[0] {
        PathLessTransitive(a[1..], b[1..], c[1..]);
      } else {
        StrLessTransitive(a[0], b[0], c[0]);
        StrLessIrreflexive(a[0]);
        StrLessAsymmetric(a[0], b[0]);
      }
    }
  }

  /** Any two different paths are ordered one way or the other. */
  lemma {:induction false} PathLessTotal(a: Path, b: Path)
    ensures a == b || PathLess(a, b) || PathLess(b, a)
    decreases |a|
  {
    if a != [] && b != [] {
      if a[0] == b[0] {
        PathLessTotal(a[1..], b[1..]);
        if a[1..] == b[1..] {
          assert a == [a[0]] + a[1..] && b == [b[0]] + b[1..];
        }
      } else {
        StrLessTotal(a[0], b[0]);
      }
    }
  }

  lemma PathLessAsymmetric(a: Path, b: Path)
    ensures PathLess(a, b) ==> !PathLess(b, a)
  {
    PathLessTransitive(a, b, a);
    PathLessIrreflexive(a);
  }

  /** `m` comes first in `s`. */
  predicate IsLeast(m: Path, s: set<Path>) {
    m in s && forall q | q in s :: !PathLess(q, m)
  }

  /** Every non-empty finite set of paths has a first element. */
  lemma {:induction false} LeastExists(s: set<Path>)
    requires s != {}
    ensures exists m :: IsLeast(m, s)
    decreases |s|
  {
    var x :| x in s;
    var rest := s - {x};
    if rest == {} {
      assert s == {x};
      PathLessIrreflexive(x);
      assert IsLeast(x, s);
    } else {
      LeastExists(rest);
      var m :| IsLeast(m, rest);
      if PathLess(x, m) {
        forall q | q in s
          ensures !PathLess(q, x)
        {
          PathLessTransitive(q, x, m);
          PathLessIrreflexive(x);
        }
        assert IsLeast(x, s);
      } else {
        assert IsLeast(m, s);
      }
    }
  }

  /** `s` is in ascending order. */
  predicate Ascending(s: seq<Path>) {
    forall i, j | 0 <= i < j < |s| :: PathLess(s[i], s[j])
  }

  /** `s` is ascending and comes before every path of `rest`. */
  predicate AscendingBefore(s: seq<Path>, rest: set<Path>) {
    Ascending(s) && forall i, q | 0 <= i < |s| && q in rest :: PathLess(s[i], q)
  }

  /** Appending the first path of `rest` keeps the listing ascending and
      before the rest. */
  lemma AppendLeast(s: seq<Path>, rest: set<Path>, m: Path)
    requires AscendingBefore(s, rest) && IsLeast(m, rest)
    ensures AscendingBefore(s + [m], rest - {m})
  {
    forall q | q in rest - {m}
      ensures PathLess(m, q)
    {
      PathLessTotal(m, q);
    }
  }

  /** An ascending sequence has no repeated path. */
  lemma AscendingDistinct(s: seq<Path>)
    requires Ascending(s)
    ensures forall i, j | 0 <= i < j < |s| :: s[i] != s[j]
  {
    forall i, j | 0 <= i < j < |s|
      ensures s[i] != s[j]
    {
      PathLessIrreflexive(s[i]);
    }
  }

  /** `sorted()` of a set of paths: each path once, in ascending order. */
  method Sorted(all: set<Path>) returns (s: seq<Path>)
    ensures (set p | p in s) == all
    ensures Ascending(s)
    ensures forall i, j | 0 <= i < j < |s| :: s[i] != s[j]
  {
    var remaining := all;
    s := [];
    while remaining != {}
      invariant remaining !! (set p | p in s)
      invariant remaining + (set p | p in s) == all
      invariant AscendingBefore(s, remaining)
      decreases |remaining|
    {
      LeastExists(remaining);
      var m :| IsLeast(m, remaining);
      AppendLeast(s, remaining, m);
      s := s + [m];
      remaining := remaining - {m};
    }
    AscendingDistinct(s);
  }
}
