/** The iteration orders the scheduler relies on: contracts and key locks are
    walked in `std::less` order of their strings, contexts in numeric order. */
module Ordering {

  /** Strict lexicographic order on strings, as `std::less<std::string>`. */
  predicate Below(a: string, b: string) {
    b != [] && (a == [] || a[0] < b[0] || (a[0] == b[0] && Below(a[1..], b[1..])))
  }

  lemma BelowIrreflexive(a: string)
    ensures !Below(a, a)
  {}

  lemma {:induction false} BelowTotal(a: string, b: string)
    ensures a == b || Below(a, b) || Below(b, a)
  {
    if a != [] && b != [] && a[0] == b[0] {
      BelowTotal(a[1..], b[1..]);
      if a[1..] == b[1..] {
        assert a == [a[0]] + a[1..] && b == [b[0]] + b[1..];
      }
    }
  }

  lemma {:induction false} BelowTransitive(a: string, b: string, c: string)
    requires Below(a, b) && Below(b, c)
    ensures Below(a, c)
  {
    if a != [] && a[0] == b[0] == c[0] {
      BelowTransitive(a[1..], b[1..], c[1..]);
    }
  }

  lemma BelowAsymmetric(a: string, b: string)
    requires Below(a, b)
    ensures !Below(b, a) && a != b
  {
    BelowIrreflexive(a);
    if Below(b, a) { BelowTransitive(a, b, a); }
  }

  /** Context c of contract a comes before context d of contract b when the scheduler walks the
      contracts and, in each, the contexts. */
  predicate Ahead(a: string, c: int, b: string, d: int) {
    Below(a, b) || (a == b && c < d)
  }

  ghost predicate StrictlyIncreasing(xs: seq<int>) {
    forall i, j :: 0 <= i < j < |xs| ==> xs[i] < xs[j]
  }

  ghost predicate StrictlyAscending(xs: seq<string>) {
    forall i, j :: 0 <= i < j < |xs| ==> Below(xs[i], xs[j])
  }

  ghost predicate NoDuplicates<T(!new)>(xs: seq<T>) {
    forall i, j :: 0 <= i < j < |xs| ==> xs[i] != xs[j]
  }

  lemma Inhabited(s: set<int>)
    ensures s == {} || exists x :: x in s
  {
    if forall x :: x !in s {
      assert s == {};
    }
  }

  lemma SameElements(a: set<int>, b: set<int>)
    requires forall x :: x in a <==> x in b
    ensures a == b
  {
    Inhabited(a - b);
    Inhabited(b - a);
  }

  lemma SomethingLeft(a: set<int>, b: set<int>)
    ensures a <= b || exists x :: x in a && x !in b
  {
    if forall x :: x in a ==> x in b {
      SameElements(a, a * b);
    }
  }

  lemma NothingInCommon(a: set<int>, b: set<int>)
    requires forall x :: !(x in a && x in b)
    ensures a * b == {}
  {
    Inhabited(a * b);
  }

  lemma {:induction false} IntMinimum(s: set<int>) returns (m: int)
    requires s != {}
    ensures m in s && forall x :: x in s ==> m <= x
    decreases |s|
  {
    Inhabited(s);
    var x :| x in s;
    m := x;
    var rest := s - {x};
    if rest != {} {
      var least := IntMinimum(rest);
      if least < x { m := least; }
    }
    forall y | y in s ensures m <= y {
      if y != x { assert y in rest; }
    }
  }

  lemma {:induction false} StringMinimum(s: set<string>) returns (m: string)
    requires s != {}
    ensures m in s && forall x :: x in s ==> m == x || Below(m, x)
  {
    m :| m in s;
    if s != {m} {
      var m' := StringMinimum(s - {m});
      BelowTotal(m, m');
      if Below(m', m) {
        m := m';
      } else {
        forall x | x in s ensures m == x || Below(m, x) {
          if x != m && x != m' { BelowTransitive(m, m', x); }
        }
      }
    }
  }

  /** The elements of a set of contexts in the order `tbb::concurrent_set` yields them. */
  function SortInts(s: set<int>): (xs: seq<int>)
    ensures StrictlyIncreasing(xs) && NoDuplicates(xs)
    ensures forall x :: x in xs <==> x in s
  {
    if s == {} then [] else
      assert exists m :: m in s && forall x :: x in s ==> m <= x by { var _ := IntMinimum(s); }
      var m :| m in s && forall x :: x in s ==> m <= x;
      var rest := SortInts(s - {m});
      MinimumFirst(m, rest, s);
      [m] + rest
  }

  lemma MinimumFirst(m: int, rest: seq<int>, s: set<int>)
    requires m in s && StrictlyIncreasing(rest)
    requires forall x :: x in s ==> m <= x
    requires forall x :: x in rest <==> x in s - {m}
    ensures StrictlyIncreasing([m] + rest) && NoDuplicates([m] + rest)
    ensures forall x :: x in [m] + rest <==> x in s
  {
    assert forall i :: 0 <= i < |rest| ==> rest[i] in rest;
    assert forall x :: x in [m] + rest <==> x == m || x in rest;
  }

  /** The elements of a set of strings in `std::set<std::string>` order. */
  function SortStrings(s: set<string>): (xs: seq<string>)
    ensures StrictlyAscending(xs) && NoDuplicates(xs)
    ensures forall x :: x in xs <==> x in s
  {
    if s == {} then [] else
      assert exists m :: m in s && forall x :: x in s ==> m == x || Below(m, x) by {
        var _ := StringMinimum(s);
      }
      OnlyOneMinimum(s);
      var m :| m in s && forall x :: x in s ==> m == x || Below(m, x);
      var rest := SortStrings(s - {m});
      LowestFirst(m, rest, s);
      [m] + rest
  }

  lemma OnlyOneMinimum(s: set<string>)
    ensures forall m, m' :: m in s && m' in s && Below(m, m') ==> !Below(m', m)
  {
    forall m, m' | m in s && m' in s && Below(m, m') ensures !Below(m', m) {
      BelowAsymmetric(m, m');
    }
  }

  lemma LowestFirst(m: string, rest: seq<string>, s: set<string>)
    requires m in s && StrictlyAscending(rest) && NoDuplicates(rest)
    requires forall x :: x in s ==> m == x || Below(m, x)
    requires forall x :: x in rest <==> x in s - {m}
    ensures StrictlyAscending([m] + rest) && NoDuplicates([m] + rest)
    ensures forall x :: x in [m] + rest <==> x in s
  {
    assert forall i :: 0 <= i < |rest| ==> rest[i] in rest;
    assert forall x :: x in [m] + rest <==> x == m || x in rest;
  }
}
