/** The binary heap behind std::priority_queue, least load on top. */
module PriorityQueue {
  function Parent(i: nat): (r: nat)
    requires i > 0
    ensures r < i
  {
    (i - 1) / 2
  }

  /** No element is below its parent. */
  ghost predicate Ordered(q: seq<string>, load: string -> nat) {
    forall i :: 0 < i < |q| ==> load(q[Parent(i)]) <= load(q[i])
  }

  lemma {:induction false} TopIsLeast(q: seq<string>, load: string -> nat, i: nat)
    requires Ordered(q, load) && i < |q|
    ensures load(q[0]) <= load(q[i])
    decreases i
  {
    if i > 0 {
      TopIsLeast(q, load, Parent(i));
    }
  }

  /** Loads of other elements do not matter. */
  lemma OrderedFrame(q: seq<string>, load: string -> nat, load': string -> nat)
    requires Ordered(q, load) && forall x :: x in q ==> load'(x) == load(x)
    ensures Ordered(q, load')
  {
    forall i | 0 < i < |q| ensures load'(q[Parent(i)]) <= load'(q[i]) {
      assert q[Parent(i)] in q && q[i] in q;
    }
  }

  function Swap(q: seq<string>, i: nat, j: nat): (r: seq<string>)
    requires i < |q| && j < |q|
    ensures |r| == |q| && multiset(r) == multiset(q)
    ensures r[i] == q[j] && r[j] == q[i] && forall k :: 0 <= k < |q| && k != i && k != j ==> r[k] == q[k]
  {
    q[i := q[j]][j := q[i]]
  }

  /** In order except that the element at i may be below its parent. */
  ghost predicate OrderedExceptAt(q: seq<string>, load: string -> nat, i: nat) {
    && (forall k :: 0 < k < |q| && k != i ==> load(q[Parent(k)]) <= load(q[k]))
    && (forall k :: 0 < k < |q| && Parent(k) == i && i > 0 && i < |q| ==> load(q[Parent(i)]) <= load(q[k]))
  }

  lemma MovedUp(q: seq<string>, load: string -> nat, i: nat)
    requires 0 < i < |q| && OrderedExceptAt(q, load, i) && load(q[i]) < load(q[Parent(i)])
    ensures OrderedExceptAt(Swap(q, i, Parent(i)), load, Parent(i))
  {
    var p := Parent(i);
    var r := Swap(q, i, p);
    forall k | 0 < k < |r| && k != p ensures load(r[Parent(k)]) <= load(r[k]) {
      if k != i && Parent(k) == p {
        assert load(q[p]) <= load(q[k]);
      }
    }
    forall k | 0 < k < |r| && Parent(k) == p && p > 0 ensures load(r[Parent(p)]) <= load(r[k]) {
      assert load(q[Parent(p)]) <= load(q[p]);
      if k != i {
        assert load(q[p]) <= load(q[k]);
      }
    }
  }

  /** push: append and sift up. */
  method Push(q: seq<string>, load: string -> nat, x: string) returns (r: seq<string>)
    requires Ordered(q, load)
    ensures Ordered(r, load) && multiset(r) == multiset(q) + multiset{x}
  {
    hide OrderedExceptAt;
    r := q + [x];
    var i := |q|;
    assert OrderedExceptAt(r, load, i) by { Appended(q, load, x); }
    while i > 0 && load(r[i]) < load(r[Parent(i)])
      invariant 0 <= i < |r| && multiset(r) == multiset(q) + multiset{x}
      invariant OrderedExceptAt(r, load, i)
    {
      MovedUp(r, load, i);
      r := Swap(r, i, Parent(i));
      i := Parent(i);
    }
    Settled(r, load, i);
  }

  lemma Appended(q: seq<string>, load: string -> nat, x: string)
    requires Ordered(q, load)
    ensures OrderedExceptAt(q + [x], load, |q|)
  {}

  lemma Settled(q: seq<string>, load: string -> nat, i: nat)
    requires i < |q| && OrderedExceptAt(q, load, i) && (i == 0 || load(q[Parent(i)]) <= load(q[i]))
    ensures Ordered(q, load)
  {}

  /** In order except that the element at i may be above its children. */
  ghost predicate OrderedExceptBelow(q: seq<string>, load: string -> nat, i: nat) {
    && (forall k :: 0 < k < |q| && Parent(k) != i ==> load(q[Parent(k)]) <= load(q[k]))
    && (forall k :: 0 < k < |q| && Parent(k) == i && 0 < i < |q| ==> load(q[Parent(i)]) <= load(q[k]))
  }

  /** The child with the lesser load. */
  function LesserChild(q: seq<string>, load: string -> nat, i: nat): (c: nat)
    requires 2 * i + 1 < |q|
    ensures i < c < |q| && Parent(c) == i
    ensures forall k :: 0 < k < |q| && Parent(k) == i ==> load(q[c]) <= load(q[k])
  {
    if 2 * i + 2 < |q| && load(q[2 * i + 2]) < load(q[2 * i + 1]) then 2 * i + 2 else 2 * i + 1
  }

  lemma MovedDown(q: seq<string>, load: string -> nat, i: nat)
    requires 2 * i + 1 < |q| && OrderedExceptBelow(q, load, i)
    requires load(q[LesserChild(q, load, i)]) < load(q[i])
    ensures var c := LesserChild(q, load, i); OrderedExceptBelow(Swap(q, i, c), load, c)
  {
    var c := LesserChild(q, load, i);
    var r := Swap(q, i, c);
    forall k | 0 < k < |r| && Parent(k) != c ensures load(r[Parent(k)]) <= load(r[k]) {
      if Parent(k) == i {
        assert load(q[c]) <= load(q[k]);
      } else if k == i {
        assert load(q[Parent(i)]) <= load(q[c]);
      }
    }
    forall k | 0 < k < |r| && Parent(k) == c ensures load(r[Parent(c)]) <= load(r[k]) {
      assert load(q[c]) <= load(q[k]);
    }
  }

  lemma SettledBelow(q: seq<string>, load: string -> nat, i: nat)
    requires i < |q| && OrderedExceptBelow(q, load, i)
    requires 2 * i + 1 >= |q| || load(q[i]) <= load(q[LesserChild(q, load, i)])
    ensures Ordered(q, load)
  {
    forall k | 0 < k < |q| ensures load(q[Parent(k)]) <= load(q[k]) {
      if Parent(k) == i {
        assert 2 * i + 1 <= k;
      }
    }
  }

  /** pop: the last element takes the place of the top and sifts down. */
  method Pop(q: seq<string>, load: string -> nat) returns (r: seq<string>)
    requires q != [] && Ordered(q, load)
    ensures Ordered(r, load) && multiset(r) + multiset{q[0]} == multiset(q)
  {
    hide OrderedExceptBelow, LesserChild;
    if |q| == 1 {
      assert q == [q[0]];
      return [];
    }
    r := q[..|q| - 1][0 := q[|q| - 1]];
    LastOnTop(q, load);
    var i := 0;
    while 2 * i + 1 < |r| && load(r[LesserChild(r, load, i)]) < load(r[i])
      invariant 0 <= i < |r| && multiset(r) + multiset{q[0]} == multiset(q)
      invariant OrderedExceptBelow(r, load, i)
      decreases |r| - i
    {
      var c := LesserChild(r, load, i);
      MovedDown(r, load, i);
      r := Swap(r, i, c);
      i := c;
    }
    SettledBelow(r, load, i);
  }

  lemma LastOnTop(q: seq<string>, load: string -> nat)
    requires |q| > 1 && Ordered(q, load)
    ensures var r := q[..|q| - 1][0 := q[|q| - 1]];
            OrderedExceptBelow(r, load, 0) && multiset(r) + multiset{q[0]} == multiset(q)
  {
    var init, last := q[..|q| - 1], q[|q| - 1];
    assert q == init + [last];
    var r := init[0 := last];
    assert multiset(r) == multiset(init) - multiset{q[0]} + multiset{last};
    forall k | 0 < k < |r| && Parent(k) != 0 ensures load(r[Parent(k)]) <= load(r[k]) {
      assert r[k] == q[k] && r[Parent(k)] == q[Parent(k)];
    }
  }
}
