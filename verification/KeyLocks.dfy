/** GraphKeyLocks: the lock graph with its vertex index and edge list, refining
    `LockGraph`. */
module KeyLocks {
  import opened LockGraph
  import opened Walks
  import DepthFirst
  import Ordering

  /** An edge between vertex descriptors of the graph. */
  datatype Arc = Arc(source: nat, target: nat, frame: int)

  function OutTargets(arcs: seq<Arc>, u: nat): (r: seq<nat>)
    ensures forall v :: v in r <==> exists a :: a in arcs && a.source == u && a.target == v
  {
    if arcs == [] then [] else
      var last := arcs[|arcs| - 1];
      var init := arcs[..|arcs| - 1];
      assert forall a :: a in arcs <==> a in init || a == last by { assert arcs == init + [last]; }
      OutTargets(init, u) + (if last.source == u then [last.target] else [])
  }

  /** The out-edge lists of the graph. */
  function AdjacencyOf(arcs: seq<Arc>): (r: DepthFirst.Adjacency)
    ensures forall u: nat, v: nat :: (u, v) in DepthFirst.AdjacencySteps(r) <==>
                                     exists a :: a in arcs && a.source == u && a.target == v
  {
    map u: nat | u in (set a | a in arcs :: a.source) :: OutTargets(arcs, u)
  }

  /** The end of an edge that in_edges or out_edges of a vertex fixes. */
  function End(a: Arc, incoming: bool): (r: nat) {
    if incoming then a.target else a.source
  }

  function Facing(e: Edge, incoming: bool): (r: Vertex) {
    if incoming then e.target else e.source
  }

  class GraphKeyLocks {
    /** m_vertexes: from contexts and keys to the descriptors of their graph vertices. */
    var vertexes: map<Vertex, nat>
    /** The vertices of m_graph with their property. */
    var labels: map<nat, Vertex>
    /** The edges of m_graph. */
    var arcs: seq<Arc>
    var nextId: nat

    /** The index and the vertex property are inverse bijections. */
    ghost predicate Indexed()
      reads this
    {
      && (forall v :: v in vertexes ==> vertexes[v] in labels && labels[vertexes[v]] == v)
      && (forall id :: id in labels ==> labels[id] in vertexes && vertexes[labels[id]] == id && id < nextId)
      && (forall a :: a in arcs ==> a.source in labels && a.target in labels)
      && Ordering.NoDuplicates(arcs)
    }

    /** The graph as a value. */
    ghost function Edges(): (g: Graph)
      requires Indexed()
      reads this
    {
      set a | a in arcs :: Edge(labels[a.source], labels[a.target], a.frame)
    }

    /** No context vertex outlives its last edge. */
    ghost predicate NoIdleContext()
      requires Indexed()
      reads this
    {
      forall c :: Context(c) in vertexes ==> Busy(Edges(), c)
    }

    ghost predicate Valid()
      reads this
    {
      Indexed() && WellFormed(Edges()) && NoIdleContext()
    }

    constructor ()
      ensures Valid() && Edges() == {}
    {
      vertexes, labels, arcs, nextId := map[], map[], [], 0;
    }

    lemma LabelOf(v: Vertex)
      requires Indexed() && v in vertexes
      ensures vertexes[v] in labels && labels[vertexes[v]] == v
    {}

    lemma ArcIsEdge(a: Arc)
      requires Indexed() && a in arcs
      ensures Edge(labels[a.source], labels[a.target], a.frame) in Edges()
    {}

    lemma EdgeIsArc(e: Edge) returns (a: Arc)
      requires Indexed() && e in Edges()
      ensures a in arcs && e == Edge(labels[a.source], labels[a.target], a.frame)
      ensures e.source in vertexes && e.target in vertexes
      ensures a == Arc(vertexes[e.source], vertexes[e.target], e.frame)
    {
      a :| a in arcs && e == Edge(labels[a.source], labels[a.target], a.frame);
    }

    /** touchContext, touchKeyLock: find the vertex or add it to graph and index. */
    method Touch(v: Vertex) returns (id: nat)
      requires Indexed()
      modifies this
      ensures Indexed() && v in vertexes && vertexes[v] == id
      ensures Edges() == old(Edges()) && arcs == old(arcs)
      ensures vertexes == old(vertexes)[v := id]
    {
      if v in vertexes {
        return vertexes[v];
      }
      id := nextId;
      nextId := nextId + 1;
      ghost var before := labels;
      labels := labels[id := v];
      vertexes := vertexes[v := id];
      assert forall a :: a in arcs ==> labels[a.source] == before[a.source] && labels[a.target] == before[a.target];
    }

    /** addEdge: never stores the same edge twice. */
    method AddEdge(source: nat, target: nat, frame: int)
      requires Indexed() && source in labels && target in labels
      modifies this`arcs
      ensures Indexed() && Edges() == old(Edges()) + {Edge(labels[source], labels[target], frame)}
    {
      var exists_ := false;
      var i := 0;
      while i < |arcs|
        invariant 0 <= i <= |arcs|
        invariant exists_ <==> Arc(source, target, frame) in arcs[..i]
      {
        if arcs[i].source == source && arcs[i].target == target && arcs[i].frame == frame {
          exists_ := true;
        }
        i := i + 1;
      }
      assert arcs[..i] == arcs;
      if !exists_ {
        ghost var before := arcs;
        arcs := arcs + [Arc(source, target, frame)];
        assert forall a :: a in arcs <==> a in before || a == Arc(source, target, frame);
      } else {
        ArcIsEdge(Arc(source, target, frame));
      }
    }

    /** The edges of the graph as a function of the edge list. */
    ghost function Named(list: seq<Arc>): (g: Graph)
      requires forall a :: a in list ==> a.source in labels && a.target in labels
      reads this
    {
      set a | a in list :: Edge(labels[a.source], labels[a.target], a.frame)
    }

    /** boost::remove_edge(u, v, g): every parallel edge goes. */
    method RemoveEdges(source: nat, target: nat)
      requires Indexed() && source in labels && target in labels
      modifies this`arcs
      ensures Indexed()
      ensures Edges() == set e | e in old(Edges()) && !(e.source == labels[source] && e.target == labels[target])
    {
      var kept: seq<Arc> := [];
      var i := 0;
      while i < |arcs|
        invariant 0 <= i <= |arcs|
        invariant forall a :: a in kept <==> a in arcs[..i] && !(a.source == source && a.target == target)
        invariant Ordering.NoDuplicates(kept)
      {
        assert arcs[..i + 1] == arcs[..i] + [arcs[i]];
        if !(arcs[i].source == source && arcs[i].target == target) {
          kept := kept + [arcs[i]];
        }
        i := i + 1;
      }
      assert arcs[..i] == arcs;
      RemovedEdges(kept, source, target);
      arcs := kept;
    }

    lemma RemovedEdges(kept: seq<Arc>, source: nat, target: nat)
      requires Indexed() && source in labels && target in labels
      requires forall a :: a in kept <==> a in arcs && !(a.source == source && a.target == target)
      ensures Named(kept) == set e | e in Edges() && !(e.source == labels[source] && e.target == labels[target])
    {
      forall e | e in Edges() && !(e.source == labels[source] && e.target == labels[target]) ensures e in Named(kept) {
        var a := EdgeIsArc(e);
        assert a in kept;
      }
    }

    /** The loop of acquireKeyLock over the out-edges of a key. */
    method HasOtherOwner(k: KeyLock, contextID: int) returns (other: bool)
      requires Indexed() && Key(k) in vertexes
      ensures other <==> HeldByOther(Edges(), k, contextID)
    {
      var keyVertex := vertexes[Key(k)];
      var i := 0;
      while i < |arcs|
        invariant 0 <= i <= |arcs|
        invariant forall j :: 0 <= j < i && arcs[j].source == keyVertex ==> labels[arcs[j].target] == Context(contextID)
      {
        if arcs[i].source == keyVertex && labels[arcs[i].target] != Context(contextID) {
          ArcIsEdge(arcs[i]);
          return true;
        }
        i := i + 1;
      }
      if e :| e in Edges() && e.source == Key(k) && e.target != Context(contextID) {
        var a := EdgeIsArc(e);
        assert false;
      }
      other := false;
    }

    /** acquireKeyLock. */
    method AcquireKeyLock(contract: string, key: string, contextID: int, frame: int) returns (granted: bool)
      requires Valid()
      modifies this
      ensures Valid()
      ensures Edges() == Acquire(old(Edges()), KeyLock(contract, key), contextID, frame).graph
      ensures granted == Acquire(old(Edges()), KeyLock(contract, key), contextID, frame).granted
    {
      hide Edges, Indexed, WellFormed, HeldByOther, Busy;
      var k := KeyLock(contract, key);
      ghost var g := Edges();
      AcquireKeepsWellFormed(g, k, contextID, frame);
      var keyVertex := Touch(Key(k));
      var contextVertex := Touch(Context(contextID));
      LabelOf(Key(k));
      LabelOf(Context(contextID));
      var other := HasOtherOwner(k, contextID);
      if other {
        AddEdge(contextVertex, keyVertex, frame);
      } else {
        RemoveEdges(contextVertex, keyVertex);
        AddEdge(keyVertex, contextVertex, frame);
      }
      NoIdleAfterAcquire(g, k, contextID, frame);
      granted := !other;
    }

    lemma NoIdleAfterAcquire(g: Graph, k: KeyLock, c: int, s: int)
      requires Indexed() && Edges() == Acquire(g, k, c, s).graph
      requires forall c' :: Context(c') in vertexes ==> c' == c || Busy(g, c')
      ensures NoIdleContext()
    {
      forall c' | Context(c') in vertexes ensures Busy(Edges(), c') {
        AcquireKeepsBusy(g, k, c, s, c');
      }
    }

    /** batchAcquireKeyLock: `ok` is false when the source throws UnexpectedKeyLockError. */
    method BatchAcquireKeyLock(contract: string, keys: seq<string>, contextID: int, frame: int) returns (ok: bool)
      requires Valid()
      modifies this
      ensures Valid()
      ensures Edges() == AcquireAll(old(Edges()), contract, keys, contextID, frame).graph
      ensures ok == AcquireAll(old(Edges()), contract, keys, contextID, frame).granted
    {
      ghost var all := AcquireAll(Edges(), contract, keys, contextID, frame);
      var i := 0;
      assert keys[0..] == keys;
      while i < |keys|
        invariant 0 <= i <= |keys| && Valid()
        invariant AcquireAll(Edges(), contract, keys[i..], contextID, frame) == all
      {
        AcquireAllUnfold(Edges(), contract, keys, i, contextID, frame);
        var granted := AcquireKeyLock(contract, keys[i], contextID, frame);
        if !granted {
          return false;
        }
        i := i + 1;
      }
      ok := true;
    }

    /** getKeyLocksNotHoldingByContext: the keys of the contract that other contexts hold,
        each once and in order. */
    method GetKeyLocksNotHoldingByContext(contract: string, excludeContextID: int) returns (keyLocks: seq<string>)
      requires Valid()
      ensures keyLocks == Ordering.SortStrings(KeysHeldByOthers(Edges(), contract, excludeContextID))
      ensures Ordering.StrictlyAscending(keyLocks)
      ensures forall k :: k in keyLocks <==> HeldByOther(Edges(), KeyLock(contract, k), excludeContextID)
    {
      var uniqueKeyLocks: set<string> := {};
      var i := 0;
      while i < |arcs|
        invariant 0 <= i <= |arcs|
        invariant forall k :: k in uniqueKeyLocks <==>
          exists j :: 0 <= j < i && IsHoldOf(arcs[j], contract, k, excludeContextID)
      {
        var source, target := labels[arcs[i].source], labels[arcs[i].target];
        assert forall k :: IsHoldOf(arcs[i], contract, k, excludeContextID) ==> source == Key(KeyLock(contract, k));
        if target.Context? && target.id != excludeContextID && source.Key? && source.lock.contract == contract {
          assert IsHoldOf(arcs[i], contract, source.lock.key, excludeContextID);
          uniqueKeyLocks := uniqueKeyLocks + {source.lock.key};
        }
        i := i + 1;
      }
      HeldKeysAreHolds(uniqueKeyLocks, contract, excludeContextID);
      keyLocks := Ordering.SortStrings(uniqueKeyLocks);
    }

    ghost predicate IsHoldOf(a: Arc, contract: string, key: string, exclude: int)
      reads this
    {
      && a.source in labels && a.target in labels
      && labels[a.source] == Key(KeyLock(contract, key))
      && labels[a.target].Context? && labels[a.target].id != exclude
    }

    lemma HeldKeysAreHolds(keys: set<string>, contract: string, exclude: int)
      requires Valid()
      requires forall k :: k in keys <==> exists j :: 0 <= j < |arcs| && IsHoldOf(arcs[j], contract, k, exclude)
      ensures keys == KeysHeldByOthers(Edges(), contract, exclude)
      ensures forall k :: k in keys <==> HeldByOther(Edges(), KeyLock(contract, k), exclude)
    {
      forall k | k in keys
        ensures HeldByOther(Edges(), KeyLock(contract, k), exclude) && k in KeysHeldByOthers(Edges(), contract, exclude)
      {
        var j :| 0 <= j < |arcs| && IsHoldOf(arcs[j], contract, k, exclude);
        ArcIsEdge(arcs[j]);
      }
      forall k | k in KeysHeldByOthers(Edges(), contract, exclude)
        ensures HeldByOther(Edges(), KeyLock(contract, k), exclude)
      {
        var e :| e in Edges() && e.source.Key? && e.target.Context? && e.target != Context(exclude)
              && e.source.lock.contract == contract && e.source.lock.key == k;
        assert e.source == Key(KeyLock(contract, k));
      }
      forall k | HeldByOther(Edges(), KeyLock(contract, k), exclude) ensures k in keys {
        var e :| e in Edges() && e.source == Key(KeyLock(contract, k)) && e.target != Context(exclude);
        var a := EdgeIsArc(e);
        var j :| 0 <= j < |arcs| && arcs[j] == a;
        assert IsHoldOf(arcs[j], contract, k, exclude);
      }
    }

    /** The edge-removal lambda of releaseKeyLocks, on the in-edges or the out-edges of a
        vertex; `cleared` says that no edge of that direction is left. */
    method RemoveFrame(v: Vertex, frame: int, incoming: bool) returns (cleared: bool)
      requires Indexed() && v in vertexes
      modifies this`arcs
      ensures Indexed()
      ensures Edges() == set e | e in old(Edges()) && !(Facing(e, incoming) == v && e.frame == frame)
      ensures cleared <==> forall e :: e in Edges() ==> Facing(e, incoming) != v
    {
      var vertex := vertexes[v];
      var total, removed := 0, 0;
      var kept: seq<Arc> := [];
      var i := 0;
      while i < |arcs|
        invariant 0 <= i <= |arcs|
        invariant forall a :: a in kept <==> a in arcs[..i] && !(End(a, incoming) == vertex && a.frame == frame)
        invariant Ordering.NoDuplicates(kept)
        invariant 0 <= removed <= total
        invariant total == removed <==> forall a :: a in kept ==> End(a, incoming) != vertex
      {
        assert arcs[..i + 1] == arcs[..i] + [arcs[i]];
        if End(arcs[i], incoming) == vertex {
          total := total + 1;
        }
        if End(arcs[i], incoming) == vertex && arcs[i].frame == frame {
          removed := removed + 1;
        } else {
          assert arcs[i] in kept + [arcs[i]];
          kept := kept + [arcs[i]];
        }
        i := i + 1;
      }
      assert arcs[..i] == arcs;
      RemovedFrame(kept, v, frame, incoming);
      arcs := kept;
      cleared := total == removed;
    }

    lemma RemovedFrame(kept: seq<Arc>, v: Vertex, frame: int, incoming: bool)
      requires Indexed() && v in vertexes
      requires forall a :: a in kept <==> a in arcs && !(End(a, incoming) == vertexes[v] && a.frame == frame)
      ensures Named(kept) == set e | e in Edges() && !(Facing(e, incoming) == v && e.frame == frame)
      ensures (forall a :: a in kept ==> End(a, incoming) != vertexes[v]) <==>
              forall e :: e in Named(kept) ==> Facing(e, incoming) != v
    {
      forall e | e in Edges() && !(Facing(e, incoming) == v && e.frame == frame) ensures e in Named(kept) {
        var a := EdgeIsArc(e);
        assert a in kept;
      }
      if forall e :: e in Named(kept) ==> Facing(e, incoming) != v {
        forall a | a in kept ensures End(a, incoming) != vertexes[v] {
          assert Edge(labels[a.source], labels[a.target], a.frame) in Named(kept);
        }
      }
    }

    /** boost::remove_vertex of a vertex without edges, and its index entry. */
    method RemoveVertex(v: Vertex)
      requires Indexed() && v in vertexes
      requires forall e :: e in Edges() ==> e.source != v && e.target != v
      modifies this`labels, this`vertexes
      ensures Indexed() && Edges() == old(Edges()) && vertexes == old(vertexes) - {v}
    {
      forall a | a in arcs ensures a.source != vertexes[v] && a.target != vertexes[v] {
        ArcIsEdge(a);
      }
      labels := labels - {vertexes[v]};
      vertexes := vertexes - {v};
    }

    /** releaseKeyLocks. */
    method ReleaseKeyLocks(contextID: int, frame: int)
      requires Valid()
      modifies this
      ensures Valid()
      ensures Edges() == Release(old(Edges()), contextID, frame)
    {
      ghost var g := Edges();
      ReleaseKeepsWellFormed(g, contextID, frame);
      if Context(contextID) !in vertexes {
        forall e | e in g ensures !Touches(e, contextID) { var _ := EdgeIsArc(e); }
        assert Release(g, contextID, frame) == g;
        return;
      }
      hide Edges, Indexed, Exclusive, NeverHoldsAndWaits, Busy;
      var clearedIn := RemoveFrame(Context(contextID), frame, true);
      var clearedOut := RemoveFrame(Context(contextID), frame, false);
      assert Edges() == Release(g, contextID, frame);
      if clearedIn && clearedOut {
        RemoveVertex(Context(contextID));
      }
      NoIdleAfterRelease(g, contextID, frame);
    }

    lemma NoIdleAfterRelease(g: Graph, c: int, s: int)
      requires Indexed() && Bipartite(g) && Edges() == Release(g, c, s)
      requires forall c' :: Context(c') in vertexes ==> Busy(if c' == c then Edges() else g, c')
      ensures NoIdleContext()
    {
      forall c' | Context(c') in vertexes ensures Busy(Edges(), c') {
        if c' != c {
          ReleaseKeepsBusy(g, c, s, c');
        }
      }
    }

    /** detectDeadLock: true exactly when the context holds a key and reaches a cycle. */
    method DetectDeadLock(contextID: int) returns (hasDeadLock: bool)
      requires Valid()
      ensures hasDeadLock <==> Deadlocked(Edges(), contextID)
    {
      if Context(contextID) !in vertexes {
        forall e | e in Edges() ensures e.target != Context(contextID) { var _ := EdgeIsArc(e); }
        return false;
      }
      var vertex := vertexes[Context(contextID)];
      var inDegree := 0;
      for i := 0 to |arcs|
        invariant 0 <= inDegree
        invariant inDegree == 0 <==> forall j :: 0 <= j < i ==> arcs[j].target != vertex
      {
        if arcs[i].target == vertex { inDegree := inDegree + 1; }
      }
      HoldsSomething(contextID);
      if inDegree == 0 {
        return false;
      }
      hasDeadLock := DepthFirst.DepthFirstVisit(AdjacencyOf(arcs), vertex);
      SameCycles(contextID);
    }

    lemma HoldsSomething(c: int)
      requires Valid() && Context(c) in vertexes
      ensures (exists e :: e in Edges() && e.target == Context(c)) <==>
              exists j :: 0 <= j < |arcs| && arcs[j].target == vertexes[Context(c)]
    {
      if e :| e in Edges() && e.target == Context(c) {
        var a := EdgeIsArc(e);
        var j :| 0 <= j < |arcs| && arcs[j] == a;
      }
      if j :| 0 <= j < |arcs| && arcs[j].target == vertexes[Context(c)] {
        ArcIsEdge(arcs[j]);
      }
    }

    lemma SameCycles(c: int)
      requires Valid() && Context(c) in vertexes
      ensures ReachesCycle(Steps(Edges()), Context(c)) <==>
              ReachesCycle(DepthFirst.AdjacencySteps(AdjacencyOf(arcs)), vertexes[Context(c)])
    {
      var byName, byId := Steps(Edges()), DepthFirst.AdjacencySteps(AdjacencyOf(arcs));
      if ReachesCycle(byName, Context(c)) {
        forall u, v | (u, v) in byName
          ensures u in vertexes && v in vertexes && (vertexes[u], vertexes[v]) in byId
        {
          var e := StepIsEdge(Edges(), u, v);
          var a := EdgeIsArc(e);
        }
        RenameCycle(byName, byId, vertexes, Context(c));
      }
      if ReachesCycle(byId, vertexes[Context(c)]) {
        forall u: nat, v: nat | (u, v) in byId
          ensures u in labels && v in labels && (labels[u], labels[v]) in byName
        {
          var a :| a in arcs && a.source == u && a.target == v;
          ArcIsEdge(a);
        }
        RenameCycle(byId, byName, labels, vertexes[Context(c)]);
      }
    }
  }
}
