/** The parent-to-children map of Merkle proofs. */
module MerkleProof {
  import opened Ordering
  import opened Merkle

  // ----- calculateMerkleProof -----

  /** A parent and the children recorded under it. */
  datatype Entry = Entry(parent: Bytes, children: seq<Bytes>)

  type Proofs = map<Bytes, seq<Bytes>>

  function Record(m: Proofs, e: Entry): (r: Proofs) {
    m[e.parent := (if e.parent in m then m[e.parent] else []) + e.children]
  }

  function RecordAll(m: Proofs, es: seq<Entry>): (r: Proofs)
    decreases |es|
  {
    if es == [] then m else Record(RecordAll(m, es[..|es| - 1]), es[|es| - 1])
  }

  function EntryAt(hash: Bytes -> Bytes, xs: seq<Bytes>, i: nat): (e: Entry)
    requires i < LevelSize(|xs|)
  {
    Entry(hash(Concat(Group(xs, i))), Group(xs, i))
  }

  ghost predicate Permutation(order: seq<int>, n: nat) {
    |order| == n && NoDuplicates(order) && forall i :: i in order <==> 0 <= i < n
  }

  /** The entries of a level, in this order. */
  ghost predicate LevelEntries(hash: Bytes -> Bytes, xs: seq<Bytes>, order: seq<int>, es: seq<Entry>) {
    && |es| == |order|
    && forall j :: 0 <= j < |order| ==> 0 <= order[j] < LevelSize(|xs|) && es[j] == EntryAt(hash, xs, order[j])
  }

  /** The entries of the whole tree, level by level, each level in any order. */
  ghost predicate TreeEntries(hash: Bytes -> Bytes, xs: seq<Bytes>, es: seq<Entry>)
    requires xs != []
    decreases |xs|
  {
    var n := LevelSize(|xs|);
    if |xs| == 1 then es == [Entry(hash(xs[0]), [xs[0]])]
    else |es| >= n
         && (exists order :: Permutation(order, n) && LevelEntries(hash, xs, order, es[..n]))
         && TreeEntries(hash, Level(hash, xs), es[n..])
  }

  lemma RecordOneMore(m: Proofs, es: seq<Entry>, e: Entry)
    ensures RecordAll(m, es + [e]) == Record(RecordAll(m, es), e)
  {
    assert (es + [e])[..|es|] == es;
  }

  lemma NothingRecorded(hash: Bytes -> Bytes, xs: seq<Bytes>, m: Proofs)
    ensures LevelEntries(hash, xs, [], []) && RecordAll(m, []) == m && NoDuplicates<int>([])
  {}

  lemma OneMoreEntry(hash: Bytes -> Bytes, xs: seq<Bytes>, order: seq<int>, es: seq<Entry>, i: nat)
    requires LevelEntries(hash, xs, order, es) && NoDuplicates(order) && i < LevelSize(|xs|) && i !in order
    ensures LevelEntries(hash, xs, order + [i], es + [EntryAt(hash, xs, i)]) && NoDuplicates(order + [i])
  {
    hide EntryAt;
  }

  /** The parallel loop over the parents of a level, with the lock held while recording. */
  method RecordLevel(hash: Bytes -> Bytes, xs: seq<Bytes>, parent2ChildList: Proofs)
    returns (higherLevelList: seq<Bytes>, proofs: Proofs, ghost order: seq<int>, ghost entries: seq<Entry>)
    ensures higherLevelList == Level(hash, xs)
    ensures Permutation(order, LevelSize(|xs|)) && LevelEntries(hash, xs, order, entries)
    ensures proofs == RecordAll(parent2ChildList, entries)
  {
    hide Concat, Group, RecordAll, Record, LevelEntries, NoDuplicates;
    var size := (|xs| + MAX_CHILD_COUNT - 1) / MAX_CHILD_COUNT;
    var higher := new Bytes[size](_ => []);
    proofs, order, entries := parent2ChildList, [], [];
    NothingRecorded(hash, xs, parent2ChildList);
    var todo := Range(size);
    RangeSize(size);
    while todo != {}
      invariant forall i :: i in todo ==> 0 <= i < size
      invariant forall i :: 0 <= i < size ==> i in todo || higher[i] == hash(Concat(Group(xs, i)))
      invariant forall i :: i in order <==> 0 <= i < size && i !in todo
      invariant |order| + |todo| == size
      invariant NoDuplicates(order) && LevelEntries(hash, xs, order, entries)
      invariant proofs == RecordAll(parent2ChildList, entries)
    {
      Inhabited(todo);
      var i :| i in todo;
      var byteValue, childList := CollectGroup(xs, i);
      higher[i] := hash(byteValue);
      OneMoreEntry(hash, xs, order, entries, i);
      RecordOneMore(parent2ChildList, entries, EntryAt(hash, xs, i));
      proofs := Record(proofs, Entry(higher[i], childList));
      entries := entries + [EntryAt(hash, xs, i)];
      order := order + [i];
      todo := todo - {i};
    }
    higherLevelList := higher[..];
  }

  lemma RangeSize(n: nat)
    ensures |Range(n)| == n
  {}

  lemma {:induction false} RecordAppend(m: Proofs, a: seq<Entry>, b: seq<Entry>)
    ensures RecordAll(m, a + b) == RecordAll(RecordAll(m, a), b)
    decreases |b|
  {
    hide Record;
    if b == [] {
      assert a + b == a;
    } else {
      assert (a + b)[..|a + b| - 1] == a + b[..|b| - 1];
      RecordAppend(m, a, b[..|b| - 1]);
    }
  }

  lemma OneLevel(hash: Bytes -> Bytes, xs: seq<Bytes>, order: seq<int>, es: seq<Entry>, rest: seq<Entry>)
    requires |xs| > 1 && Permutation(order, LevelSize(|xs|)) && LevelEntries(hash, xs, order, es)
    requires TreeEntries(hash, Level(hash, xs), rest)
    ensures TreeEntries(hash, xs, es + rest)
  {
    assert (es + rest)[..LevelSize(|xs|)] == es && (es + rest)[LevelSize(|xs|)..] == rest;
  }

  /** These entries are the levels between the leaves and a higher level. */
  ghost predicate Leads(hash: Bytes -> Bytes, leaves: seq<Bytes>, es: seq<Entry>, level: seq<Bytes>)
    requires leaves != [] && level != []
  {
    forall rest :: TreeEntries(hash, level, rest) ==> TreeEntries(hash, leaves, es + rest)
  }

  lemma LeadsStep(hash: Bytes -> Bytes, leaves: seq<Bytes>, es: seq<Entry>, level: seq<Bytes>, order: seq<int>,
                  es': seq<Entry>)
    requires leaves != [] && |level| > 1 && Leads(hash, leaves, es, level)
    requires Permutation(order, LevelSize(|level|)) && LevelEntries(hash, level, order, es')
    ensures Leads(hash, leaves, es + es', Level(hash, level))
  {
    hide TreeEntries, LevelEntries, Permutation;
    forall rest | TreeEntries(hash, Level(hash, level), rest) ensures TreeEntries(hash, leaves, es + es' + rest) {
      OneLevel(hash, level, order, es', rest);
      assert es + es' + rest == es + (es' + rest);
    }
  }

  /** calculateMerkleProof */
  method CalculateMerkleProof(hash: Bytes -> Bytes, bytesCaches: seq<Bytes>, parent2ChildList: Proofs)
    returns (proofs: Proofs, ghost entries: seq<Entry>)
    ensures bytesCaches == [] ==> proofs == parent2ChildList
    ensures bytesCaches != []
            ==> TreeEntries(hash, bytesCaches, entries) && proofs == RecordAll(parent2ChildList, entries)
  {
    hide RecordAll, TreeEntries, Leads, LevelEntries;
    proofs, entries := parent2ChildList, [];
    if bytesCaches == [] {
      return;
    }
    var level := bytesCaches;
    NothingYet(hash, level, proofs);
    while |level| > 1
      invariant level != [] && Leads(hash, bytesCaches, entries, level)
      invariant proofs == RecordAll(parent2ChildList, entries)
      decreases |level|
    {
      ghost var order, es;
      var higher;
      higher, proofs, order, es := RecordLevel(hash, level, proofs);
      LeadsStep(hash, bytesCaches, entries, level, order, es);
      RecordAppend(parent2ChildList, entries, es);
      level := higher;
      entries := entries + es;
    }
    LeadsToTop(hash, bytesCaches, entries, level);
    RecordOneMore(parent2ChildList, entries, Entry(hash(level[0]), [level[0]]));
    proofs := Record(proofs, Entry(hash(level[0]), [level[0]]));
    entries := entries + [Entry(hash(level[0]), [level[0]])];
  }

  lemma NothingYet(hash: Bytes -> Bytes, leaves: seq<Bytes>, m: Proofs)
    requires leaves != []
    ensures Leads(hash, leaves, [], leaves) && RecordAll(m, []) == m
  {
    forall rest | TreeEntries(hash, leaves, rest)
      ensures TreeEntries(hash, leaves, [] + rest)
    { assert [] + rest == rest; }
  }

  lemma LeadsToTop(hash: Bytes -> Bytes, leaves: seq<Bytes>, es: seq<Entry>, level: seq<Bytes>)
    requires leaves != [] && |level| == 1 && Leads(hash, leaves, es, level)
    ensures TreeEntries(hash, leaves, es + [Entry(hash(level[0]), [level[0]])])
  {
    assert TreeEntries(hash, level, [Entry(hash(level[0]), [level[0]])]);
  }

  // ----- what the proofs are good for -----

  ghost predicate HasEdge(es: seq<Entry>, parent: Bytes, child: Bytes) {
    exists j :: 0 <= j < |es| && es[j].parent == parent && child in es[j].children
  }

  /** The children recorded under a parent, in the order of recording. */
  function ChildrenOf(es: seq<Entry>, parent: Bytes): (r: seq<Bytes>)
    decreases |es|
  {
    if es == [] then []
    else ChildrenOf(es[..|es| - 1], parent) + if es[|es| - 1].parent == parent then es[|es| - 1].children else []
  }

  lemma {:induction false} RecordedChildren(es: seq<Entry>, parent: Bytes)
    ensures var m := RecordAll(map[], es);
            (if parent in m then m[parent] else []) == ChildrenOf(es, parent)
    decreases |es|
  {
    if es != [] {
      RecordedChildren(es[..|es| - 1], parent);
    }
  }

  lemma {:induction false} EdgesAreChildren(es: seq<Entry>, parent: Bytes, child: Bytes)
    ensures child in ChildrenOf(es, parent) <==> HasEdge(es, parent, child)
    decreases |es|
  {
    if es != [] {
      var init, last := es[..|es| - 1], es[|es| - 1];
      EdgesAreChildren(init, parent, child);
      if HasEdge(init, parent, child) {
        var j :| 0 <= j < |init| && init[j].parent == parent && child in init[j].children;
        assert es[j] == init[j];
      }
      if HasEdge(es, parent, child) && !(last.parent == parent && child in last.children) {
        var j :| 0 <= j < |es| && es[j].parent == parent && child in es[j].children;
        assert init[j] == es[j];
      }
    }
  }

  predicate Recorded(proofs: Proofs, parent: Bytes, child: Bytes) {
    parent in proofs && child in proofs[parent]
  }

  /** Each step of a path goes from a child to a parent it is recorded under. */
  ghost predicate Climbs(proofs: Proofs, path: seq<Bytes>) {
    path != [] && forall j, k :: 0 <= j < |path| - 1 && k == j + 1 ==> Recorded(proofs, path[k], path[j])
  }

  ghost predicate ClimbsEntries(es: seq<Entry>, path: seq<Bytes>) {
    path != [] && forall j, k :: 0 <= j < |path| - 1 && k == j + 1 ==> HasEdge(es, path[k], path[j])
  }

  lemma LevelHasEdge(hash: Bytes -> Bytes, xs: seq<Bytes>, es: seq<Entry>, i: nat)
    requires i < |xs| && |xs| > 1 && TreeEntries(hash, xs, es)
    ensures i / MAX_CHILD_COUNT < LevelSize(|xs|) && HasEdge(es, Level(hash, xs)[i / MAX_CHILD_COUNT], xs[i])
  {
    hide Group, Concat, NoDuplicates;
    var n, g := LevelSize(|xs|), i / MAX_CHILD_COUNT;
    var order: seq<int> :| Permutation(order, n) && LevelEntries(hash, xs, order, es[..n]);
    assert g in order;
    var j :| 0 <= j < |order| && order[j] == g;
    assert es[..n][j] == EntryAt(hash, xs, g);
    InItsGroup(xs, i);
  }

  lemma InItsGroup(xs: seq<Bytes>, i: nat)
    requires i < |xs|
    ensures i / MAX_CHILD_COUNT < LevelSize(|xs|) && xs[i] in Group(xs, i / MAX_CHILD_COUNT)
  {
    var g := i / MAX_CHILD_COUNT;
    assert Group(xs, g)[i - g * MAX_CHILD_COUNT] == xs[i];
  }

  lemma EdgeOfLater(es: seq<Entry>, n: nat, parent: Bytes, child: Bytes)
    requires n <= |es| && HasEdge(es[n..], parent, child)
    ensures HasEdge(es, parent, child)
  {
    var j :| 0 <= j < |es[n..]| && es[n..][j].parent == parent && child in es[n..][j].children;
    assert es[n + j] == es[n..][j];
  }

  lemma {:induction false} LeafClimbs(hash: Bytes -> Bytes, xs: seq<Bytes>, es: seq<Entry>, i: nat)
      returns (path: seq<Bytes>)
    requires i < |xs| && TreeEntries(hash, xs, es)
    ensures ClimbsEntries(es, path) && path[0] == xs[i] && path[|path| - 1] == Root(hash, xs)
    decreases |xs|
  {
    if |xs| == 1 {
      path := [xs[0], hash(xs[0])];
      assert es[0].parent == path[1] && path[0] in es[0].children;
    } else {
      hide HasEdge;
      var n := LevelSize(|xs|);
      LevelHasEdge(hash, xs, es, i);
      var rest := LeafClimbs(hash, Level(hash, xs), es[n..], i / MAX_CHILD_COUNT);
      path := [xs[i]] + rest;
      forall j, k | 0 <= j < |path| - 1 && k == j + 1 ensures HasEdge(es, path[k], path[j]) {
        if j > 0 {
          EdgeOfLater(es, n, rest[j], rest[j - 1]);
        }
      }
    }
  }

  /** Every leaf climbs to the root through the recorded proofs. */
  lemma EveryLeafClimbs(hash: Bytes -> Bytes, xs: seq<Bytes>, es: seq<Entry>, i: nat) returns (path: seq<Bytes>)
    requires i < |xs| && TreeEntries(hash, xs, es)
    ensures Climbs(RecordAll(map[], es), path) && path[0] == xs[i] && path[|path| - 1] == Root(hash, xs)
  {
    hide RecordAll, ChildrenOf, HasEdge, Root, TreeEntries;
    path := LeafClimbs(hash, xs, es, i);
    var m := RecordAll(map[], es);
    forall j, k | 0 <= j < |path| - 1 && k == j + 1 ensures Recorded(m, path[k], path[j]) {
      assert HasEdge(es, path[k], path[j]);
      RecordedChildren(es, path[k]);
      EdgesAreChildren(es, path[k], path[j]);
    }
  }

  lemma {:induction false} EntriesAreHashes(hash: Bytes -> Bytes, xs: seq<Bytes>, es: seq<Entry>, j: nat)
    requires xs != [] && TreeEntries(hash, xs, es) && j < |es|
    ensures es[j].parent == hash(Concat(es[j].children)) && es[j].children != []
    decreases |xs|
  {
    if |xs| == 1 {
      assert Concat([xs[0]]) == xs[0];
    } else if j < LevelSize(|xs|) {
      var n := LevelSize(|xs|);
      var order: seq<int> :| Permutation(order, n) && LevelEntries(hash, xs, order, es[..n]);
      assert es[..n][j] == EntryAt(hash, xs, order[j]);
    } else {
      EntriesAreHashes(hash, Level(hash, xs), es[LevelSize(|xs|)..], j - LevelSize(|xs|));
    }
  }

  ghost predicate DistinctParents(es: seq<Entry>) {
    forall i, j :: 0 <= i < j < |es| ==> es[i].parent != es[j].parent
  }

  lemma {:induction false} ChildrenOfNone(es: seq<Entry>, parent: Bytes)
    requires forall i :: 0 <= i < |es| ==> es[i].parent != parent
    ensures ChildrenOf(es, parent) == []
    decreases |es|
  {
    if es != [] {
      ChildrenOfNone(es[..|es| - 1], parent);
    }
  }

  lemma {:induction false} ChildrenOfOne(es: seq<Entry>, j: nat)
    requires DistinctParents(es) && j < |es|
    ensures ChildrenOf(es, es[j].parent) == es[j].children
    decreases |es|
  {
    var init := es[..|es| - 1];
    if j == |init| {
      ChildrenOfNone(init, es[j].parent);
    } else {
      assert init[j] == es[j];
      ChildrenOfOne(init, j);
    }
  }

  /** If no two nodes of the tree share a hash, what is recorded under a parent is exactly the
      list of its children in order, so that hashing it gives the parent back. */
  lemma ProofsCheck(hash: Bytes -> Bytes, xs: seq<Bytes>, es: seq<Entry>, parent: Bytes)
    requires xs != [] && TreeEntries(hash, xs, es) && DistinctParents(es) && parent in RecordAll(map[], es)
    ensures hash(Concat(RecordAll(map[], es)[parent])) == parent
  {
    hide TreeEntries;
    RecordedChildren(es, parent);
    if j :| 0 <= j < |es| && es[j].parent == parent {
      ChildrenOfOne(es, j);
      EntriesAreHashes(hash, xs, es, j);
    } else {
      RecordedParents(es, parent);
    }
  }

  lemma {:induction false} RecordedParents(es: seq<Entry>, parent: Bytes)
    requires parent in RecordAll(map[], es)
    ensures exists j :: 0 <= j < |es| && es[j].parent == parent
    decreases |es|
  {
    var init, last := es[..|es| - 1], es[|es| - 1];
    if last.parent != parent {
      RecordedParents(init, parent);
      var j :| 0 <= j < |init| && init[j].parent == parent;
      assert es[j] == init[j];
    }
  }
}
