/** Key locks as a labelled graph of values: an edge from a key to a context says
    "held", an edge from a context to a key says "waiting", and each edge carries
    the sequence number of the call frame that asked for it.  `KeyLocks` refines
    this module with the vertex index and edge list of `GraphKeyLocks`. */
module LockGraph {
  import Ordering
  import opened Walks

  datatype KeyLock = KeyLock(contract: string, key: string)
  datatype Vertex = Context(id: int) | Key(lock: KeyLock)
  datatype Edge = Edge(source: Vertex, target: Vertex, frame: int)
  type Graph = set<Edge>

  ghost predicate Holds(g: Graph, k: KeyLock, c: int, s: int) {
    Edge(Key(k), Context(c), s) in g
  }

  ghost predicate Waits(g: Graph, c: int, k: KeyLock, s: int) {
    Edge(Context(c), Key(k), s) in g
  }

  ghost predicate HeldByOther(g: Graph, k: KeyLock, c: int) {
    exists e :: e in g && e.source == Key(k) && e.target != Context(c)
  }

  /** An edge that belongs to a context, in either direction. */
  predicate Touches(e: Edge, c: int) {
    e.source == Context(c) || e.target == Context(c)
  }

  datatype Grant = Grant(graph: Graph, granted: bool)

  /** acquireKeyLock: queue behind another owner, or take the key and drop every
      request edge the context had for it. */
  ghost function Acquire(g: Graph, k: KeyLock, c: int, s: int): (r: Grant) {
    if HeldByOther(g, k, c) then
      Grant(g + {Edge(Context(c), Key(k), s)}, false)
    else
      Grant((set e | e in g && !(e.source == Context(c) && e.target == Key(k)))
            + {Edge(Key(k), Context(c), s)}, true)
  }

  /** batchAcquireKeyLock: the first refusal raises an exception. */
  ghost function AcquireAll(g: Graph, contract: string, keys: seq<string>, c: int, s: int): (r: Grant)
    decreases |keys|
  {
    if keys == [] then Grant(g, true) else
      var first := Acquire(g, KeyLock(contract, keys[0]), c, s);
      if first.granted then AcquireAll(first.graph, contract, keys[1..], c, s) else first
  }

  lemma AcquireAllUnfold(g: Graph, contract: string, keys: seq<string>, i: nat, c: int, s: int)
    requires i < |keys|
    ensures var first := Acquire(g, KeyLock(contract, keys[i]), c, s);
            AcquireAll(g, contract, keys[i..], c, s) ==
            if first.granted then AcquireAll(first.graph, contract, keys[i + 1..], c, s) else first
  {
    assert keys[i..][0] == keys[i] && keys[i..][1..] == keys[i + 1..];
  }

  /** releaseKeyLocks: drop the edges of one call frame. */
  ghost function Release(g: Graph, c: int, s: int): (r: Graph) {
    set e | e in g && !(e.frame == s && Touches(e, c))
  }

  /** getKeyLocksNotHoldingByContext, as a set: the keys of a contract that other contexts hold. */
  ghost function KeysHeldByOthers(g: Graph, contract: string, c: int): (r: set<string>) {
    set e | e in g && e.source.Key? && e.target.Context? && e.target != Context(c) && e.source.lock.contract == contract
      :: e.source.lock.key
  }

  ghost predicate Bipartite(g: Graph) {
    forall e :: e in g ==> e.source.Key? != e.target.Key?
  }

  ghost predicate Exclusive(g: Graph) {
    forall e, f :: e in g && f in g && e.source.Key? && e.source == f.source ==> e.target == f.target
  }

  ghost predicate NeverHoldsAndWaits(g: Graph) {
    forall e, f :: e in g && f in g && e.source.Key? ==> !(f.source == e.target && f.target == e.source)
  }

  ghost predicate WellFormed(g: Graph) {
    Bipartite(g) && Exclusive(g) && NeverHoldsAndWaits(g)
  }

  lemma AcquireKeepsWellFormed(g: Graph, k: KeyLock, c: int, s: int)
    requires WellFormed(g)
    ensures WellFormed(Acquire(g, k, c, s).graph)
  {}

  /** A context with an edge in the graph. */
  ghost predicate Busy(g: Graph, c: int) {
    exists e :: e in g && Touches(e, c)
  }

  lemma AcquireKeepsBusy(g: Graph, k: KeyLock, c: int, s: int, c': int)
    requires c' == c || Busy(g, c')
    ensures Busy(Acquire(g, k, c, s).graph, c')
  {
    var g' := Acquire(g, k, c, s).graph;
    if c' == c {
      assert Edge(Context(c), Key(k), s) in g' || Edge(Key(k), Context(c), s) in g';
    } else {
      var e :| e in g && Touches(e, c');
      assert e in g';
    }
  }

  lemma ReleaseKeepsBusy(g: Graph, c: int, s: int, c': int)
    requires Bipartite(g) && c' != c && Busy(g, c')
    ensures Busy(Release(g, c, s), c')
  {
    var e :| e in g && Touches(e, c');
    assert e in Release(g, c, s);
  }

  lemma ReleaseKeepsWellFormed(g: Graph, c: int, s: int)
    requires WellFormed(g)
    ensures WellFormed(Release(g, c, s))
  {}

  // ----- every sequence of operations -----

  datatype Op = AcquireOp(k: KeyLock, c: int, s: int) | ReleaseOp(c: int, s: int)

  ghost function Perform(g: Graph, op: Op): (r: Grant) {
    match op
    case AcquireOp(k, c, s) => Acquire(g, k, c, s)
    case ReleaseOp(c, s) => Grant(Release(g, c, s), true)
  }

  /** The graph after a sequence of operations on the empty graph. */
  ghost function After(ops: seq<Op>): (g: Graph)
    decreases |ops|
  {
    if ops == [] then {} else Perform(After(ops[..|ops| - 1]), ops[|ops| - 1]).graph
  }

  /** Exclusive ownership, in every reachable lock graph. */
  lemma {:induction false} ReachableIsWellFormed(ops: seq<Op>)
    ensures WellFormed(After(ops))
    decreases |ops|
  {
    if ops != [] {
      var before := After(ops[..|ops| - 1]);
      ReachableIsWellFormed(ops[..|ops| - 1]);
      match ops[|ops| - 1]
      case AcquireOp(k, c, s) => AcquireKeepsWellFormed(before, k, c, s);
      case ReleaseOp(c, s) => ReleaseKeepsWellFormed(before, c, s);
    }
  }

  // ----- refinement: a plain lock table -----

  datatype Tenure = Tenure(owner: int, frames: set<int>)
  datatype Wait = Wait(c: int, k: KeyLock, s: int)

  /** The reference: who owns each key and for which call frames, and who waits. */
  datatype Table = Table(held: map<KeyLock, Tenure>, waits: set<Wait>)

  ghost function TableAcquire(t: Table, k: KeyLock, c: int, s: int): (r: (Table, bool)) {
    if k in t.held && t.held[k].owner != c then
      (t.(waits := t.waits + {Wait(c, k, s)}), false)
    else
      var frames := if k in t.held then t.held[k].frames else {};
      (Table(t.held[k := Tenure(c, frames + {s})], set w | w in t.waits && !(w.c == c && w.k == k)), true)
  }

  ghost function TableRelease(t: Table, c: int, s: int): (r: Table) {
    Table(map k | k in t.held && !(t.held[k].owner == c && t.held[k].frames <= {s})
             :: if t.held[k].owner == c then Tenure(c, t.held[k].frames - {s}) else t.held[k],
          set w | w in t.waits && !(w.c == c && w.s == s))
  }

  ghost function TablePerform(t: Table, op: Op): (r: (Table, bool)) {
    match op
    case AcquireOp(k, c, s) => TableAcquire(t, k, c, s)
    case ReleaseOp(c, s) => (TableRelease(t, c, s), true)
  }

  ghost function TableAfter(ops: seq<Op>): (t: Table)
    decreases |ops|
  {
    if ops == [] then Table(map[], {}) else TablePerform(TableAfter(ops[..|ops| - 1]), ops[|ops| - 1]).0
  }

  ghost predicate Agrees(g: Graph, t: Table) {
    && Bipartite(g)
    && (forall k, c, s :: Holds(g, k, c, s) <==> k in t.held && t.held[k].owner == c && s in t.held[k].frames)
    && (forall k :: k in t.held ==> t.held[k].frames != {})
    && (forall k, c, s :: Waits(g, c, k, s) <==> Wait(c, k, s) in t.waits)
  }

  lemma AgreeOnOwner(g: Graph, t: Table, k: KeyLock, c: int)
    requires Agrees(g, t)
    ensures HeldByOther(g, k, c) <==> k in t.held && t.held[k].owner != c
  {
    if HeldByOther(g, k, c) {
      var e :| e in g && e.source == Key(k) && e.target != Context(c);
      assert Holds(g, k, e.target.id, e.frame);
    }
    if k in t.held && t.held[k].owner != c {
      Ordering.Inhabited(t.held[k].frames);
      var s :| s in t.held[k].frames;
      assert Holds(g, k, t.held[k].owner, s);
      assert Edge(Key(k), Context(t.held[k].owner), s) in g;
    }
  }

  lemma AcquireAgrees(g: Graph, t: Table, k: KeyLock, c: int, s: int)
    requires Agrees(g, t)
    ensures Agrees(Acquire(g, k, c, s).graph, TableAcquire(t, k, c, s).0)
    ensures Acquire(g, k, c, s).granted == TableAcquire(t, k, c, s).1
  {
    AgreeOnOwner(g, t, k, c);
    var g', t' := Acquire(g, k, c, s).graph, TableAcquire(t, k, c, s).0;
    forall k', c', s'
      ensures Holds(g', k', c', s') <==> k' in t'.held && t'.held[k'].owner == c' && s' in t'.held[k'].frames
      ensures Waits(g', c', k', s') <==> Wait(c', k', s') in t'.waits
    {
      assert Holds(g, k', c', s') <==> k' in t.held && t.held[k'].owner == c' && s' in t.held[k'].frames;
      assert Waits(g, c', k', s') <==> Wait(c', k', s') in t.waits;
    }
    assert s in {s};
  }

  lemma ReleaseAgrees(g: Graph, t: Table, c: int, s: int)
    requires Agrees(g, t)
    ensures Agrees(Release(g, c, s), TableRelease(t, c, s))
  {
    var g', t' := Release(g, c, s), TableRelease(t, c, s);
    forall k', c', s'
      ensures Holds(g', k', c', s') <==> k' in t'.held && t'.held[k'].owner == c' && s' in t'.held[k'].frames
      ensures Waits(g', c', k', s') <==> Wait(c', k', s') in t'.waits
    {
      assert Holds(g, k', c', s') <==> k' in t.held && t.held[k'].owner == c' && s' in t.held[k'].frames;
      assert Waits(g, c', k', s') <==> Wait(c', k', s') in t.waits;
    }
    forall k | k in t'.held ensures t'.held[k].frames != {} {
      if t.held[k].owner == c {
        Ordering.Inhabited(t.held[k].frames - {s});
        assert !(t.held[k].frames <= {s});
      }
    }
  }

  /** Whatever the operations, the graph answers and evolves like the table. */
  lemma {:induction false} GraphRefinesTable(ops: seq<Op>, op: Op)
    ensures Agrees(After(ops), TableAfter(ops))
    ensures Perform(After(ops), op).granted == TablePerform(TableAfter(ops), op).1
    decreases |ops|
  {
    if ops != [] {
      var init, last := ops[..|ops| - 1], ops[|ops| - 1];
      GraphRefinesTable(init, last);
      match last
      case AcquireOp(k, c, s) => AcquireAgrees(After(init), TableAfter(init), k, c, s);
      case ReleaseOp(c, s) => ReleaseAgrees(After(init), TableAfter(init), c, s);
    }
    match op
    case AcquireOp(k, c, s) => AcquireAgrees(After(ops), TableAfter(ops), k, c, s);
    case ReleaseOp(c, s) =>
  }

  // ----- cycles -----

  ghost function Steps(g: Graph): (r: set<(Vertex, Vertex)>) {
    set e | e in g :: (e.source, e.target)
  }

  /** The condition under which detectDeadLock answers true: the context holds some
      key and a cycle can be reached from it (it need not lie on the cycle). */
  ghost predicate Deadlocked(g: Graph, c: int) {
    (exists e :: e in g && e.target == Context(c)) && ReachesCycle(Steps(g), Context(c))
  }

  lemma StepIsEdge(g: Graph, u: Vertex, v: Vertex) returns (e: Edge)
    requires (u, v) in Steps(g)
    ensures e in g && e.source == u && e.target == v
  {
    e :| e in g && (e.source, e.target) == (u, v);
  }

  /** A cycle of a reachable lock graph runs through two contexts and two keys. */
  lemma CycleSpansTwo(g: Graph, p: seq<Vertex>)
    requires WellFormed(g) && Walk(Steps(g), p) && |p| >= 2 && p[0] == p[|p| - 1]
    ensures exists i, j :: 0 <= i < j < |p| && p[i].Context? && p[j].Context? && p[i] != p[j]
    ensures exists i, j :: 0 <= i < j < |p| && p[i].Key? && p[j].Key? && p[i] != p[j]
  {
    var e := StepIsEdge(g, p[0], p[1]);
    assert |p| > 2;
    var f := StepIsEdge(g, p[1], p[2]);
    assert p[0] != p[2];
    assert |p| > 3;
    var h := StepIsEdge(g, p[2], p[3]);
    assert p[1] != p[3];
    assert p[0].Context? == p[2].Context? && p[1].Context? == p[3].Context?;
    assert p[0].Context? != p[1].Context?;
    if p[0].Context? {
      assert p[1].Key? && p[3].Key?;
    } else {
      assert p[1].Context? && p[3].Context?;
    }
  }

  /** Every context of a set waits for a key owned inside the set. */
  ghost predicate AllBlocked(g: Graph, w: set<int>) {
    forall c :: c in w ==> Blocked(g, w, c)
  }

  ghost predicate Blocked(g: Graph, w: set<int>, c: int) {
    exists k, o, s, s' :: Waits(g, c, k, s) && Holds(g, k, o, s') && o in w
  }

  lemma {:induction false} BlockedWalk(g: Graph, w: set<int>, c: int, n: nat) returns (p: seq<Vertex>)
    requires AllBlocked(g, w) && c in w
    ensures |p| == 2 * n + 1 && Walk(Steps(g), p) && p[0] == Context(c)
    ensures forall i :: 0 <= i <= n ==> p[2 * i].Context? && p[2 * i].id in w
    decreases n
  {
    if n == 0 {
      p := [Context(c)];
    } else {
      assert Blocked(g, w, c);
      var k, o, s, s' :| Waits(g, c, k, s) && Holds(g, k, o, s') && o in w;
      var q := BlockedWalk(g, w, o, n - 1);
      p := [Context(c), Key(k)] + q;
      assert Edge(Context(c), Key(k), s) in g && Edge(Key(k), Context(o), s') in g;
      assert (Context(c), Key(k)) in Steps(g) && (Key(k), Context(o)) in Steps(g);
      WalkPrepend(Steps(g), Key(k), q);
      WalkPrepend(Steps(g), Context(c), [Key(k)] + q);
      assert p == [Context(c)] + ([Key(k)] + q);
      forall i | 0 <= i <= n ensures p[2 * i].Context? && p[2 * i].id in w {
        if i > 0 { assert p[2 * i] == q[2 * (i - 1)]; }
      }
    }
  }

  lemma BlockedReachesCycle(g: Graph, w: set<int>, c: int)
    requires AllBlocked(g, w) && c in w
    ensures ReachesCycle(Steps(g), Context(c))
  {
    var steps := Steps(g);
    var p := BlockedWalk(g, w, c, |w|);
    var contexts := seq(|w| + 1, i requires 0 <= i <= |w| => p[2 * i].id);
    var i, j := Pigeonhole(contexts, w);
    assert contexts[i] == p[2 * i].id && contexts[j] == p[2 * j].id;
    WalkTake(steps, p, 2 * j + 1);
    assert Lasso(steps, Context(c), p[..2 * j + 1], 2 * i);
  }

  /** Deadlock completeness on the graph: if every context of a non-empty set waits
      for a key owned inside the set, one of them is found deadlocked. */
  lemma BlockedSetHasVictim(g: Graph, w: set<int>) returns (victim: int)
    requires w != {} && AllBlocked(g, w)
    ensures victim in w && Deadlocked(g, victim)
  {
    Ordering.Inhabited(w);
    var c :| c in w;
    assert Blocked(g, w, c);
    var k, o, s, s' :| Waits(g, c, k, s) && Holds(g, k, o, s') && o in w;
    victim := o;
    assert Edge(Key(k), Context(o), s') in g;
    BlockedReachesCycle(g, w, o);
  }
}

/** Walks and cycles over a finite step relation. */
module Walks {

  ghost predicate Walk<V>(steps: set<(V, V)>, p: seq<V>) {
    |p| >= 1 && forall i, j :: 0 <= i < |p| - 1 && j == i + 1 ==> (p[i], p[j]) in steps
  }

  /** A walk from u that returns to a vertex it has already visited. */
  ghost predicate Lasso<V>(steps: set<(V, V)>, u: V, p: seq<V>, i: int) {
    Walk(steps, p) && p[0] == u && 0 <= i < |p| - 1 && p[i] == p[|p| - 1]
  }

  ghost predicate ReachesCycle<V(!new)>(steps: set<(V, V)>, u: V) {
    exists p, i :: Lasso(steps, u, p, i)
  }

  /** A renaming that maps steps to steps maps cycles to cycles. */
  lemma RenameCycle<V(!new), W(!new)>(from: set<(V, V)>, to: set<(W, W)>, f: map<V, W>, u: V)
    requires u in f && ReachesCycle(from, u)
    requires forall a, b :: (a, b) in from ==> a in f && b in f && (f[a], f[b]) in to
    ensures ReachesCycle(to, f[u])
  {
    var p, i :| Lasso(from, u, p, i);
    assert forall j :: 0 <= j < |p| ==> p[j] in f by {
      forall j | 0 <= j < |p| ensures p[j] in f {
        if j > 0 { assert (p[j - 1], p[j]) in from; }
      }
    }
    var q := seq(|p|, j requires 0 <= j < |p| => f[p[j]]);
    assert Lasso(to, f[u], q, i);
  }

  lemma WalkPrepend<V>(steps: set<(V, V)>, u: V, p: seq<V>)
    requires Walk(steps, p) && (u, p[0]) in steps
    ensures Walk(steps, [u] + p)
  {
    var q := [u] + p;
    forall i, j | 0 <= i < |q| - 1 && j == i + 1 ensures (q[i], q[j]) in steps {
      if i > 0 { assert (p[i - 1], p[j - 1]) in steps; }
    }
  }

  lemma WalkAppend<V>(steps: set<(V, V)>, p: seq<V>, v: V)
    requires Walk(steps, p) && (p[|p| - 1], v) in steps
    ensures Walk(steps, p + [v])
  {}

  lemma WalkTake<V>(steps: set<(V, V)>, p: seq<V>, n: nat)
    requires Walk(steps, p) && 1 <= n <= |p|
    ensures Walk(steps, p[..n])
  {}

  lemma {:induction false} Pigeonhole<T>(xs: seq<T>, s: set<T>) returns (i: int, j: int)
    requires |xs| > |s| && forall x :: x in xs ==> x in s
    ensures 0 <= i < j < |xs| && xs[i] == xs[j]
    decreases |xs|
  {
    var n := |xs| - 1;
    if last :| 0 <= last < n && xs[last] == xs[n] {
      i, j := last, n;
    } else {
      assert xs[n] in xs;
      i, j := Pigeonhole(xs[..n], s - {xs[n]});
    }
  }
}
