/** The 16-way Merkle tree over transactions and receipts: its root level by level and as a
    tree built from the top. */
module Merkle {
  import opened Ordering

  newtype byte = x: int | 0 <= x < 256

  type Bytes = seq<byte>

  const MAX_CHILD_COUNT := 16

  function Concat(xs: seq<Bytes>): (r: Bytes) {
    if xs == [] then [] else xs[0] + Concat(xs[1..])
  }

  // ----- one level -----

  function LevelSize(n: nat): (r: nat)
    ensures n > 1 ==> 0 < r < n
    ensures n > 0 ==> (r - 1) * MAX_CHILD_COUNT < n <= r * MAX_CHILD_COUNT
  {
    (n + MAX_CHILD_COUNT - 1) / MAX_CHILD_COUNT
  }

  function Min(a: int, b: int): (r: int) {
    if a < b then a else b
  }

  /** The part of a list that belongs to one parent, for parents of a given width. */
  function Chunk<T>(xs: seq<T>, width: nat, i: nat): (r: seq<T>)
    requires i * width <= |xs|
  {
    xs[i * width..Min((i + 1) * width, |xs|)]
  }

  function Group(xs: seq<Bytes>, i: nat): (r: seq<Bytes>)
    requires i < LevelSize(|xs|)
  {
    Chunk(xs, MAX_CHILD_COUNT, i)
  }

  function Level(hash: Bytes -> Bytes, xs: seq<Bytes>): (r: seq<Bytes>)
    ensures |r| == LevelSize(|xs|)
    ensures forall i :: 0 <= i < |r| ==> r[i] == hash(Concat(Group(xs, i)))
  {
    seq(LevelSize(|xs|), i requires 0 <= i < LevelSize(|xs|) => hash(Concat(Group(xs, i))))
  }

  /** What the level loop computes. */
  function Root(hash: Bytes -> Bytes, xs: seq<Bytes>): (r: Bytes)
    decreases |xs|
  {
    if xs == [] then hash([])
    else if |xs| == 1 then hash(xs[0])
    else Root(hash, Level(hash, xs))
  }

  // ----- calculateMerkleProofRoot -----

  function Range(n: nat): (r: set<int>)
    ensures forall i :: i in r <==> 0 <= i < n
  {
    if n == 0 then {} else Range(n - 1) + {n - 1}
  }

  lemma {:induction false} ConcatAppend(xs: seq<Bytes>, x: Bytes)
    ensures Concat(xs + [x]) == Concat(xs) + x
  {
    if xs == [] {
      assert [x][1..] == [];
    } else {
      assert (xs + [x])[1..] == xs[1..] + [x];
      ConcatAppend(xs[1..], x);
    }
  }

  /** The inner loop: the children of a parent and their concatenation. */
  method CollectGroup(xs: seq<Bytes>, i: nat) returns (byteValue: Bytes, childList: seq<Bytes>)
    requires i < LevelSize(|xs|)
    ensures childList == Group(xs, i) && byteValue == Concat(childList)
  {
    byteValue, childList := [], [];
    for j := 0 to MAX_CHILD_COUNT
      invariant i * MAX_CHILD_COUNT <= |xs|
      invariant childList == xs[i * MAX_CHILD_COUNT..Min(i * MAX_CHILD_COUNT + j, |xs|)]
      invariant byteValue == Concat(childList)
    {
      var index := i * MAX_CHILD_COUNT + j;
      if index < |xs| {
        ConcatAppend(childList, xs[index]);
        byteValue := byteValue + xs[index];
        childList := childList + [xs[index]];
      }
    }
  }

  /** The parallel loop over the parents of a level, in any order. */
  method HashLevel(hash: Bytes -> Bytes, xs: seq<Bytes>) returns (higherLevelList: seq<Bytes>)
    ensures higherLevelList == Level(hash, xs)
  {
    var size := (|xs| + MAX_CHILD_COUNT - 1) / MAX_CHILD_COUNT;
    var higher := new Bytes[size](_ => []);
    var todo := Range(size);
    while todo != {}
      invariant forall i :: i in todo ==> 0 <= i < size
      invariant forall i :: 0 <= i < size ==> i in todo || higher[i] == hash(Concat(Group(xs, i)))
    {
      Inhabited(todo);
      var i :| i in todo;
      var byteValue, _ := CollectGroup(xs, i);
      higher[i] := hash(byteValue);
      todo := todo - {i};
    }
    higherLevelList := higher[..];
  }

  /** calculateMerkleProofRoot */
  method CalculateMerkleProofRoot(hash: Bytes -> Bytes, bytesCaches: seq<Bytes>) returns (root: Bytes)
    ensures root == Root(hash, bytesCaches)
  {
    if bytesCaches == [] {
      return hash([]);
    }
    var level := bytesCaches;
    while |level| > 1
      invariant level != [] && Root(hash, level) == Root(hash, bytesCaches)
      decreases |level|
    {
      level := HashLevel(hash, level);
    }
    return hash(level[0]);
  }

  // ----- the tree from the top -----

  function Pow16(k: nat): (r: nat)
    ensures r > 0
  {
    if k == 0 then 1 else MAX_CHILD_COUNT * Pow16(k - 1)
  }

  /** The node of height k over at most 16^k leaves. */
  function Tree(hash: Bytes -> Bytes, xs: seq<Bytes>, k: nat): (r: Bytes)
    requires xs != []
    decreases k, |xs|, 0
  {
    if k == 0 then xs[0] else hash(Concat(Nodes(hash, xs, k - 1)))
  }

  /** The nodes of height k over any leaves, from left to right. */
  function Nodes(hash: Bytes -> Bytes, xs: seq<Bytes>, k: nat): (r: seq<Bytes>)
    requires xs != []
    decreases k, |xs|, 1
  {
    if |xs| <= Pow16(k) then [Tree(hash, xs, k)]
    else [Tree(hash, xs[..Pow16(k)], k)] + Nodes(hash, xs[Pow16(k)..], k)
  }

  lemma {:induction false} NodesAtBottom(hash: Bytes -> Bytes, xs: seq<Bytes>)
    requires xs != []
    ensures Nodes(hash, xs, 0) == xs
    decreases |xs|
  {
    if |xs| > 1 {
      NodesAtBottom(hash, xs[1..]);
    }
  }

  function Times(c: nat, width: nat): (r: nat) {
    if c == 0 then 0 else width + Times(c - 1, width)
  }

  lemma {:induction false} TimesIs(c: nat, width: nat)
    ensures Times(c, width) == c * width
  {
    if c > 0 {
      TimesIs(c - 1, width);
      Multiple(c - 1, width);
    }
  }

  lemma Multiple(c: nat, width: nat)
    ensures (c + 1) * width == c * width + width
  {}

  /** Cutting off c whole nodes of height k. */
  lemma {:induction false} NodesSplit(hash: Bytes -> Bytes, xs: seq<Bytes>, k: nat, c: nat)
    requires 0 < c && Times(c, Pow16(k)) < |xs|
    ensures var m := Times(c, Pow16(k));
            && m > 0 && Nodes(hash, xs, k) == Nodes(hash, xs[..m], k) + Nodes(hash, xs[m..], k)
            && |Nodes(hash, xs[..m], k)| == c
    decreases c
  {
    hide Nodes, Tree, Times, Pow16;
    var w, m := Pow16(k), Times(c - 1, Pow16(k));
    TimesStep(c, w);
    NodesCons(hash, xs, k);
    if c > 1 {
      NodesSplit(hash, xs[w..], k, c - 1);
      NodesCons(hash, xs[..w + m], k);
      Slices(xs, w, m);
      var first, a, b := Tree(hash, xs[..w], k), Nodes(hash, xs[w..][..m], k), Nodes(hash, xs[w..][m..], k);
      assert [first] + (a + b) == [first] + a + b;
    } else {
      NodesCons(hash, xs[..w], k);
    }
  }

  lemma Slices(xs: seq<Bytes>, a: nat, b: nat)
    requires a + b <= |xs|
    ensures xs[..a + b][..a] == xs[..a] && xs[..a + b][a..] == xs[a..][..b] && xs[a..][b..] == xs[a + b..]
  {}

  lemma TimesStep(c: nat, width: nat)
    requires c > 0
    ensures Times(c, width) == width + Times(c - 1, width) && Times(0, width) == 0
  {}

  lemma NodesCons(hash: Bytes -> Bytes, xs: seq<Bytes>, k: nat)
    requires xs != []
    ensures Nodes(hash, xs, k) == if |xs| <= Pow16(k) then [Tree(hash, xs, k)]
                                  else [Tree(hash, xs[..Pow16(k)], k)] + Nodes(hash, xs[Pow16(k)..], k)
  {}

  lemma {:induction false} NodesCount(hash: Bytes -> Bytes, xs: seq<Bytes>, k: nat, c: nat)
    requires 0 < |xs| <= Times(c, Pow16(k))
    ensures |Nodes(hash, xs, k)| <= c
    decreases c
  {
    if |xs| > Pow16(k) {
      NodesCount(hash, xs[Pow16(k)..], k, c - 1);
    }
  }

  lemma LevelOfOneGroup(hash: Bytes -> Bytes, xs: seq<Bytes>)
    requires 0 < |xs| <= MAX_CHILD_COUNT
    ensures Level(hash, xs) == [hash(Concat(xs))]
  {
    assert Group(xs, 0) == xs;
  }

  lemma BeyondPrefix(a: seq<Bytes>, b: seq<Bytes>, lo: nat, hi: nat)
    requires |a| <= lo <= hi <= |a| + |b|
    ensures (a + b)[lo..hi] == b[lo - |a|..hi - |a|]
  {}

  lemma GroupAppend(a: seq<Bytes>, b: seq<Bytes>, i: nat)
    requires |a| == MAX_CHILD_COUNT && i < LevelSize(|a + b|)
    ensures LevelSize(|a + b|) == 1 + LevelSize(|b|)
    ensures Group(a + b, i) == if i == 0 then a else Group(b, i - 1)
  {
    if i == 0 {
      assert (a + b)[0..MAX_CHILD_COUNT] == a;
    } else {
      BeyondPrefix(a, b, i * MAX_CHILD_COUNT, Min((i + 1) * MAX_CHILD_COUNT, |a + b|));
    }
  }

  lemma LevelAppend(hash: Bytes -> Bytes, a: seq<Bytes>, b: seq<Bytes>)
    requires |a| == MAX_CHILD_COUNT
    ensures Level(hash, a + b) == [hash(Concat(a))] + Level(hash, b)
  {
    hide Concat, Group, LevelSize;
    var whole, parts := Level(hash, a + b), [hash(Concat(a))] + Level(hash, b);
    GroupAppend(a, b, 0);
    forall i | 0 <= i < |whole| ensures whole[i] == parts[i] {
      GroupAppend(a, b, i);
    }
  }

  /** Hashing a level of the tree gives the next one. */
  lemma {:induction false} LevelOfNodes(hash: Bytes -> Bytes, xs: seq<Bytes>, k: nat)
    requires xs != []
    ensures Level(hash, Nodes(hash, xs, k)) == Nodes(hash, xs, k + 1)
    decreases |xs|
  {
    var w := Pow16(k + 1);
    TimesIs(MAX_CHILD_COUNT, Pow16(k));
    assert w == Times(MAX_CHILD_COUNT, Pow16(k));
    if |xs| <= w {
      NodesCount(hash, xs, k, MAX_CHILD_COUNT);
      LevelOfOneGroup(hash, Nodes(hash, xs, k));
    } else {
      NodesSplit(hash, xs, k, MAX_CHILD_COUNT);
      LevelAppend(hash, Nodes(hash, xs[..w], k), Nodes(hash, xs[w..], k));
      LevelOfNodes(hash, xs[w..], k);
    }
  }

  /** The level loop computes the hash of the 16-way tree built from the top. */
  lemma {:induction false} RootOfNodes(hash: Bytes -> Bytes, xs: seq<Bytes>, k: nat, h: nat)
    requires 0 < |xs| <= Pow16(h) && (h > 0 ==> |xs| > Pow16(h - 1)) && k <= h
    ensures Root(hash, Nodes(hash, xs, k)) == hash(Tree(hash, xs, h))
    decreases h - k
  {
    if k < h {
      PowGrows(k, h - 1);
      LevelOfNodes(hash, xs, k);
      RootOfNodes(hash, xs, k + 1, h);
    }
  }

  lemma {:induction false} PowGrows(a: nat, b: nat)
    requires a <= b
    ensures Pow16(a) <= Pow16(b)
    decreases b - a
  {
    if a < b {
      PowGrows(a, b - 1);
    }
  }

  lemma RootIsTree(hash: Bytes -> Bytes, xs: seq<Bytes>, h: nat)
    requires 0 < |xs| <= Pow16(h) && (h > 0 ==> |xs| > Pow16(h - 1))
    ensures Root(hash, xs) == hash(Tree(hash, xs, h))
  {
    NodesAtBottom(hash, xs);
    RootOfNodes(hash, xs, 0, h);
  }
}
