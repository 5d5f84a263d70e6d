/** What an equal Merkle root says about the leaves. */
module MerkleBinding {
  import opened Merkle

  // ----- what an equal root says -----

  const HASH_WIDTH := 32

  ghost function GroupInputs(xs: seq<Bytes>): (r: set<Bytes>) {
    set i | 0 <= i < LevelSize(|xs|) :: Concat(Group(xs, i))
  }

  /** Everything that is hashed on the way to the root. */
  ghost function Inputs(hash: Bytes -> Bytes, xs: seq<Bytes>): (r: set<Bytes>)
    decreases |xs|
  {
    if xs == [] then {[]}
    else if |xs| == 1 then {xs[0]}
    else GroupInputs(xs) + Inputs(hash, Level(hash, xs))
  }

  /** The hash tells these inputs apart, and its values have the width of a hash. */
  ghost predicate NoCollision(hash: Bytes -> Bytes, inputs: set<Bytes>) {
    && (forall a, b :: a in inputs && b in inputs && hash(a) == hash(b) ==> a == b)
    && (forall a :: a in inputs ==> |hash(a)| == HASH_WIDTH)
  }

  ghost predicate Uniform(xs: seq<Bytes>, width: nat) {
    forall i :: 0 <= i < |xs| ==> |xs[i]| == width
  }

  lemma {:induction false} ConcatLength(xs: seq<Bytes>, width: nat)
    requires Uniform(xs, width)
    ensures |Concat(xs)| == width * |xs|
  {
    if xs != [] {
      ConcatLength(xs[1..], width);
      Multiple(|xs[1..]|, width);
    }
  }

  lemma {:induction false} ConcatSplits(xs: seq<Bytes>, ys: seq<Bytes>, width: nat)
    requires Uniform(xs, width) && Uniform(ys, width) && |xs| == |ys| && Concat(xs) == Concat(ys)
    ensures xs == ys
  {
    if xs != [] {
      assert Concat(xs)[..width] == xs[0] && Concat(xs)[width..] == Concat(xs[1..]);
      assert Concat(ys)[..width] == ys[0] && Concat(ys)[width..] == Concat(ys[1..]);
      ConcatSplits(xs[1..], ys[1..], width);
    }
  }

  /** A list is determined by its groups. */
  lemma FromGroups(xs: seq<Bytes>, ys: seq<Bytes>)
    requires LevelSize(|xs|) == LevelSize(|ys|)
    requires forall i :: 0 <= i < LevelSize(|xs|) ==> Group(xs, i) == Group(ys, i)
    ensures xs == ys
  {
    var n := LevelSize(|xs|);
    if n > 0 {
      assert |Group(xs, n - 1)| == |xs| - (n - 1) * MAX_CHILD_COUNT;
      assert |Group(ys, n - 1)| == |ys| - (n - 1) * MAX_CHILD_COUNT;
    }
    forall j | 0 <= j < |xs| ensures j < |ys| && xs[j] == ys[j] {
      var i := j / MAX_CHILD_COUNT;
      assert Group(xs, i)[j - i * MAX_CHILD_COUNT] == xs[j];
      assert Group(ys, i)[j - i * MAX_CHILD_COUNT] == ys[j];
    }
  }

  lemma GroupIsUniform(xs: seq<Bytes>, width: nat, i: nat)
    requires Uniform(xs, width) && i < LevelSize(|xs|)
    ensures Uniform(Group(xs, i), width)
  {}

  /** Without collisions equal levels come from equal lists, if the groups have equal sizes. */
  lemma LevelBinds(hash: Bytes -> Bytes, xs: seq<Bytes>, ys: seq<Bytes>, width: nat)
    requires Uniform(xs, width) && Uniform(ys, width) && (|xs| == |ys| || width > 0)
    requires NoCollision(hash, GroupInputs(xs) + GroupInputs(ys)) && Level(hash, xs) == Level(hash, ys)
    ensures xs == ys
  {
    forall i | 0 <= i < LevelSize(|xs|) ensures Group(xs, i) == Group(ys, i) {
      var a, b := Group(xs, i), Group(ys, i);
      assert Level(hash, xs)[i] == Level(hash, ys)[i];
      assert Concat(a) in GroupInputs(xs) && Concat(b) in GroupInputs(ys);
      GroupIsUniform(xs, width, i);
      GroupIsUniform(ys, width, i);
      ConcatLength(a, width);
      ConcatLength(b, width);
      if |xs| != |ys| {
        SameFactor(width, |a|, |b|);
      }
      ConcatSplits(a, b, width);
    }
    FromGroups(xs, ys);
  }

  lemma SameFactor(width: nat, m: nat, n: nat)
    requires width > 0 && width * m == width * n
    ensures m == n
  {}

  lemma LevelIsUniform(hash: Bytes -> Bytes, xs: seq<Bytes>)
    requires NoCollision(hash, GroupInputs(xs))
    ensures Uniform(Level(hash, xs), HASH_WIDTH)
  {
    forall i | 0 <= i < LevelSize(|xs|) ensures |Level(hash, xs)[i]| == HASH_WIDTH {
      assert Concat(Group(xs, i)) in GroupInputs(xs);
    }
  }

  // ----- trees of the same depth -----

  /** The number of levels above the leaves. */
  function Depth(n: nat): (r: nat) {
    if n <= 1 then 0 else 1 + Depth(LevelSize(n))
  }

  /** Trees of the same depth over leaves of the same width have the same root exactly when
      they have the same leaves, whatever the numbers of leaves. */
  lemma {:induction false} SameDepthBinds(hash: Bytes -> Bytes, xs: seq<Bytes>, ys: seq<Bytes>, width: nat)
    requires xs != [] && ys != [] && Depth(|xs|) == Depth(|ys|)
    requires width > 0 && Uniform(xs, width) && Uniform(ys, width)
    requires NoCollision(hash, Inputs(hash, xs) + Inputs(hash, ys))
    ensures Root(hash, xs) == Root(hash, ys) <==> xs == ys
    decreases |xs|
  {
    hide Concat, Group, GroupInputs;
    if |xs| > 1 && Root(hash, xs) == Root(hash, ys) {
      LevelIsUniform(hash, xs);
      LevelIsUniform(hash, ys);
      SameDepthBinds(hash, Level(hash, xs), Level(hash, ys), HASH_WIDTH);
      LevelBinds(hash, xs, ys, width);
    }
  }

  /** In particular two lists of the same length, whatever the width of their leaves. */
  lemma SameLengthBinds(hash: Bytes -> Bytes, xs: seq<Bytes>, ys: seq<Bytes>, width: nat)
    requires |xs| == |ys| && Uniform(xs, width) && Uniform(ys, width)
    requires NoCollision(hash, Inputs(hash, xs) + Inputs(hash, ys))
    ensures Root(hash, xs) == Root(hash, ys) <==> xs == ys
  {
    hide Root, Inputs, Depth;
    if width == 0 || xs == [] {
      assert xs == ys;
    } else {
      SameDepthBinds(hash, xs, ys, width);
    }
  }

  // ----- lists of different lengths -----

  /** One list is a level of the tree over the other. */
  ghost predicate IsLevelOf(hash: Bytes -> Bytes, ys: seq<Bytes>, xs: seq<Bytes>)
    decreases |xs|
  {
    ys == xs || (|xs| > 1 && IsLevelOf(hash, ys, Level(hash, xs)))
  }

  /** The leaves are not told apart from the inner nodes: every level of a tree, taken as a
      list of leaves, has the root of the tree. */
  lemma {:induction false} LevelsShareTheRoot(hash: Bytes -> Bytes, ys: seq<Bytes>, xs: seq<Bytes>)
    requires IsLevelOf(hash, ys, xs)
    ensures Root(hash, ys) == Root(hash, xs)
    decreases |xs|
  {
    if ys != xs {
      LevelsShareTheRoot(hash, ys, Level(hash, xs));
    }
  }

  lemma {:induction false} LevelOfLevel(hash: Bytes -> Bytes, ys: seq<Bytes>, xs: seq<Bytes>)
    requires IsLevelOf(hash, Level(hash, ys), Level(hash, xs)) && |xs| > 1 && |ys| > 1
    requires Uniform(xs, HASH_WIDTH) && Uniform(ys, HASH_WIDTH)
    requires NoCollision(hash, Inputs(hash, xs) + Inputs(hash, ys))
    ensures IsLevelOf(hash, ys, xs)
    decreases |xs|
  {
    if Level(hash, ys) == Level(hash, xs) {
      LevelBinds(hash, xs, ys, HASH_WIDTH);
    } else {
      LevelIsUniform(hash, xs);
      LevelOfLevel(hash, ys, Level(hash, xs));
    }
  }

  lemma {:induction false} EqualRootsAreLevels(hash: Bytes -> Bytes, xs: seq<Bytes>, ys: seq<Bytes>)
    requires Uniform(xs, HASH_WIDTH) && Uniform(ys, HASH_WIDTH)
    requires NoCollision(hash, Inputs(hash, xs) + Inputs(hash, ys)) && Root(hash, xs) == Root(hash, ys)
    ensures IsLevelOf(hash, xs, ys) || IsLevelOf(hash, ys, xs)
    decreases |xs| + |ys|
  {
    hide Concat, Group, GroupInputs, Uniform;
    if |xs| > 1 && |ys| > 1 {
      LevelIsUniform(hash, xs);
      LevelIsUniform(hash, ys);
      EqualRootsAreLevels(hash, Level(hash, xs), Level(hash, ys));
      if IsLevelOf(hash, Level(hash, xs), Level(hash, ys)) {
        LevelOfLevel(hash, xs, ys);
      } else {
        LevelOfLevel(hash, ys, xs);
      }
    } else if |xs| > 1 {
      LevelIsUniform(hash, xs);
      EqualRootsAreLevels(hash, Level(hash, xs), ys);
    } else if |ys| > 1 {
      LevelIsUniform(hash, ys);
      EqualRootsAreLevels(hash, xs, Level(hash, ys));
    } else {
      ShortLists(hash, xs, ys);
    }
  }

  lemma ShortLists(hash: Bytes -> Bytes, xs: seq<Bytes>, ys: seq<Bytes>)
    requires |xs| <= 1 && |ys| <= 1 && Uniform(xs, HASH_WIDTH) && Uniform(ys, HASH_WIDTH)
    requires NoCollision(hash, Inputs(hash, xs) + Inputs(hash, ys)) && Root(hash, xs) == Root(hash, ys)
    ensures xs == ys
  {}

  /** For leaves as wide as a hash, and no collision, two lists have the same root exactly
      when one is a level of the tree over the other. */
  lemma RootBindsUpToLevels(hash: Bytes -> Bytes, xs: seq<Bytes>, ys: seq<Bytes>)
    requires Uniform(xs, HASH_WIDTH) && Uniform(ys, HASH_WIDTH)
    requires NoCollision(hash, Inputs(hash, xs) + Inputs(hash, ys))
    ensures Root(hash, xs) == Root(hash, ys) <==> IsLevelOf(hash, xs, ys) || IsLevelOf(hash, ys, xs)
  {
    hide Root, IsLevelOf, Inputs;
    if IsLevelOf(hash, xs, ys) { LevelsShareTheRoot(hash, xs, ys); }
    if IsLevelOf(hash, ys, xs) { LevelsShareTheRoot(hash, ys, xs); }
    if Root(hash, xs) == Root(hash, ys) { EqualRootsAreLevels(hash, xs, ys); }
  }

  // ----- leaves that are not as wide as a hash -----

  /** The level of a tree that fits into one group. */
  function OneGroup(hash: Bytes -> Bytes, xs: seq<Bytes>): (r: seq<Bytes>)
    ensures |r| <= MAX_CHILD_COUNT && (|xs| > 1 ==> |r| > 1)
    decreases |xs|
  {
    if |xs| <= MAX_CHILD_COUNT then xs else OneGroup(hash, Level(hash, xs))
  }

  /** The leaves of a small tree, put together, are the nodes of the one-group level of a larger
      tree, put together. */
  predicate Meets(hash: Bytes -> Bytes, xs: seq<Bytes>, ys: seq<Bytes>) {
    1 < |xs| <= MAX_CHILD_COUNT < |ys| && Concat(xs) == Concat(OneGroup(hash, ys))
  }

  lemma {:induction false} RootOfOneGroup(hash: Bytes -> Bytes, xs: seq<Bytes>)
    ensures Root(hash, OneGroup(hash, xs)) == Root(hash, xs)
    decreases |xs|
  {
    if |xs| > MAX_CHILD_COUNT {
      RootOfOneGroup(hash, Level(hash, xs));
    }
  }

  lemma MeetingSharesTheRoot(hash: Bytes -> Bytes, xs: seq<Bytes>, ys: seq<Bytes>)
    requires Meets(hash, xs, ys)
    ensures Root(hash, xs) == Root(hash, ys)
  {
    var top := OneGroup(hash, ys);
    RootOfOneGroup(hash, ys);
    LevelOfOneGroup(hash, xs);
    LevelOfOneGroup(hash, top);
    hide Concat, OneGroup;
    assert Root(hash, xs) == Root(hash, Level(hash, xs));
    assert Root(hash, top) == Root(hash, Level(hash, top));
  }

  /** Equal levels over lists of different widths have one group only. */
  lemma MixedLevels(hash: Bytes -> Bytes, xs: seq<Bytes>, zs: seq<Bytes>, width: nat)
    requires |xs| > 1 && |zs| > 1 && Uniform(xs, width) && Uniform(zs, HASH_WIDTH) && width != HASH_WIDTH
    requires NoCollision(hash, GroupInputs(xs) + GroupInputs(zs)) && Level(hash, xs) == Level(hash, zs)
    ensures |xs| <= MAX_CHILD_COUNT && |zs| <= MAX_CHILD_COUNT && Concat(xs) == Concat(zs)
  {
    var a, b := Group(xs, 0), Group(zs, 0);
    assert LevelSize(|xs|) > 1 ==> |a| == MAX_CHILD_COUNT && |b| == MAX_CHILD_COUNT;
    assert Level(hash, xs)[0] == Level(hash, zs)[0];
    assert Concat(a) in GroupInputs(xs) && Concat(b) in GroupInputs(zs);
    GroupIsUniform(xs, width, 0);
    GroupIsUniform(zs, HASH_WIDTH, 0);
    ConcatLength(a, width);
    ConcatLength(b, HASH_WIDTH);
    assert LevelSize(|xs|) == 1;
    assert a == xs && b == zs;
  }

  lemma SinglesDiffer(hash: Bytes -> Bytes, xs: seq<Bytes>, zs: seq<Bytes>)
    requires |xs| == 1 && |zs| == 1 && |xs[0]| != |zs[0]| && NoCollision(hash, Inputs(hash, xs) + Inputs(hash, zs))
    ensures Root(hash, xs) != Root(hash, zs)
  {}

  /** Leaves of another width than a hash meet inner nodes of the same depth in one group. */
  lemma SameDepthMeets(hash: Bytes -> Bytes, xs: seq<Bytes>, zs: seq<Bytes>, width: nat)
    requires xs != [] && zs != [] && Depth(|xs|) == Depth(|zs|) && Root(hash, xs) == Root(hash, zs)
    requires 0 < width != HASH_WIDTH && Uniform(xs, width) && Uniform(zs, HASH_WIDTH)
    requires NoCollision(hash, Inputs(hash, xs) + Inputs(hash, zs))
    ensures 1 < |xs| <= MAX_CHILD_COUNT && 1 < |zs| <= MAX_CHILD_COUNT && Concat(xs) == Concat(zs)
  {
    hide Concat, Group, GroupInputs;
    if |xs| == 1 {
      SinglesDiffer(hash, xs, zs);
      assert false;
    } else {
      LevelIsUniform(hash, xs);
      LevelIsUniform(hash, zs);
      SameDepthBinds(hash, Level(hash, xs), Level(hash, zs), HASH_WIDTH);
      MixedLevels(hash, xs, zs, width);
    }
  }

  lemma {:induction false} DeeperMeets(hash: Bytes -> Bytes, xs: seq<Bytes>, ys: seq<Bytes>, width: nat)
    requires xs != [] && Depth(|xs|) < Depth(|ys|) && Root(hash, xs) == Root(hash, ys)
    requires 0 < width != HASH_WIDTH && Uniform(xs, width)
    requires NoCollision(hash, Inputs(hash, xs) + Inputs(hash, ys))
    ensures Meets(hash, xs, ys)
    decreases |ys|
  {
    hide Concat, Group, GroupInputs;
    var zs := Level(hash, ys);
    LevelIsUniform(hash, ys);
    if Depth(|xs|) == Depth(|zs|) {
      SameDepthMeets(hash, xs, zs, width);
      assert |ys| > MAX_CHILD_COUNT && OneGroup(hash, ys) == OneGroup(hash, zs) == zs;
    } else {
      DeeperMeets(hash, xs, zs, width);
    }
  }

  lemma {:induction false} EmptyHasItsOwnRoot(hash: Bytes -> Bytes, xs: seq<Bytes>, width: nat)
    requires xs != [] && width > 0 && Uniform(xs, width)
    requires NoCollision(hash, Inputs(hash, xs) + {[]})
    ensures Root(hash, xs) != hash([])
    decreases |xs|
  {
    hide Concat, Group, GroupInputs;
    if |xs| > 1 {
      LevelIsUniform(hash, xs);
      EmptyHasItsOwnRoot(hash, Level(hash, xs), HASH_WIDTH);
    }
  }

  /** For leaves of any other width than a hash, and no collision, two lists of any lengths have
      the same root exactly when they are equal or one meets the tree over the other. */
  lemma RootBinds(hash: Bytes -> Bytes, xs: seq<Bytes>, ys: seq<Bytes>, width: nat)
    requires 0 < width != HASH_WIDTH && Uniform(xs, width) && Uniform(ys, width)
    requires NoCollision(hash, Inputs(hash, xs) + Inputs(hash, ys))
    ensures Root(hash, xs) == Root(hash, ys) <==> xs == ys || Meets(hash, xs, ys) || Meets(hash, ys, xs)
  {
    if Meets(hash, xs, ys) { MeetingSharesTheRoot(hash, xs, ys); }
    if Meets(hash, ys, xs) { MeetingSharesTheRoot(hash, ys, xs); }
    if xs == [] && ys != [] {
      EmptyHasItsOwnRoot(hash, ys, width);
    } else if xs != [] && ys == [] {
      EmptyHasItsOwnRoot(hash, xs, width);
    } else if xs != [] && Root(hash, xs) == Root(hash, ys) {
      hide Root, Inputs, Meets, Uniform;
      if Depth(|xs|) == Depth(|ys|) {
        SameDepthBinds(hash, xs, ys, width);
      } else if Depth(|xs|) < Depth(|ys|) {
        DeeperMeets(hash, xs, ys, width);
      } else {
        DeeperMeets(hash, ys, xs, width);
      }
    }
  }

  // ----- the leaves of a block -----

  const INDEX_WIDTH := 8

  function LittleEndian(value: nat, size: nat): (r: Bytes)
    ensures |r| == size
  {
    if size == 0 then [] else [(value % 256) as byte] + LittleEndian(value / 256, size - 1)
  }

  function Value(bytes: Bytes): (r: nat) {
    if bytes == [] then 0 else bytes[0] as int + 256 * Value(bytes[1..])
  }

  function Pow256(size: nat): (r: nat) {
    if size == 0 then 1 else 256 * Pow256(size - 1)
  }

  lemma {:induction false} LittleEndianValue(value: nat, size: nat)
    requires value < Pow256(size)
    ensures Value(LittleEndian(value, size)) == value
    decreases size
  {
    if size > 0 {
      LittleEndianValue(value / 256, size - 1);
    }
  }

  /** encodeToCalculateRoot: the index in front of each hash. */
  function EncodeToCalculateRoot(hashes: seq<Bytes>): (r: seq<Bytes>) {
    seq(|hashes|, i requires 0 <= i < |hashes| => LittleEndian(i, INDEX_WIDTH) + hashes[i])
  }

  /** The leaves of a block are distinct, even where the hashes are not. */
  lemma LeavesAreDistinct(hashes: seq<Bytes>, i: nat, j: nat)
    requires i < j < |hashes| <= Pow256(INDEX_WIDTH)
    ensures EncodeToCalculateRoot(hashes)[i] != EncodeToCalculateRoot(hashes)[j]
  {
    LittleEndianValue(i, INDEX_WIDTH);
    LittleEndianValue(j, INDEX_WIDTH);
    assert EncodeToCalculateRoot(hashes)[i][..INDEX_WIDTH] == LittleEndian(i, INDEX_WIDTH);
    assert EncodeToCalculateRoot(hashes)[j][..INDEX_WIDTH] == LittleEndian(j, INDEX_WIDTH);
  }

  const LEAF_WIDTH := INDEX_WIDTH + HASH_WIDTH

  lemma LeavesTell(a: seq<Bytes>, b: seq<Bytes>)
    ensures EncodeToCalculateRoot(a) == EncodeToCalculateRoot(b) <==> a == b
  {
    var xs, ys := EncodeToCalculateRoot(a), EncodeToCalculateRoot(b);
    if xs == ys {
      forall i | 0 <= i < |a| ensures a[i] == b[i] {
        assert xs[i][INDEX_WIDTH..] == a[i] && ys[i][INDEX_WIDTH..] == b[i];
      }
    }
  }

  /** Two blocks of any sizes have the same root exactly when they have the same transaction
      hashes in the same order, unless the hash collides or the leaves of the smaller one, put
      together, are the nodes of the one-group level of the larger one, put together. */
  lemma BlockRootBinds(hash: Bytes -> Bytes, a: seq<Bytes>, b: seq<Bytes>)
    requires Uniform(a, HASH_WIDTH) && Uniform(b, HASH_WIDTH)
    requires NoCollision(hash, Inputs(hash, EncodeToCalculateRoot(a)) + Inputs(hash, EncodeToCalculateRoot(b)))
    ensures var xs, ys := EncodeToCalculateRoot(a), EncodeToCalculateRoot(b);
            Root(hash, xs) == Root(hash, ys) <==> a == b || Meets(hash, xs, ys) || Meets(hash, ys, xs)
  {
    RootBinds(hash, EncodeToCalculateRoot(a), EncodeToCalculateRoot(b), LEAF_WIDTH);
    LeavesTell(a, b);
  }

  /** Such a meeting takes a block of 4, 8 or 12 transactions and a level of 5, 10 or 15 nodes,
      so that every other pair of blocks is told apart. */
  lemma MeetingSizes(hash: Bytes -> Bytes, a: seq<Bytes>, ys: seq<Bytes>)
    requires Uniform(a, HASH_WIDTH) && Meets(hash, EncodeToCalculateRoot(a), ys)
    requires NoCollision(hash, Inputs(hash, ys))
    ensures (|a|, |OneGroup(hash, ys)|) in {(4, 5), (8, 10), (12, 15)}
  {
    ConcatLength(EncodeToCalculateRoot(a), LEAF_WIDTH);
    OneGroupIsUniform(hash, ys);
    ConcatLength(OneGroup(hash, ys), HASH_WIDTH);
    hide Concat, OneGroup, Inputs, Uniform;
    FiveToFour(|a|, |OneGroup(hash, ys)|);
  }

  lemma FiveToFour(m: nat, n: nat)
    requires LEAF_WIDTH * m == HASH_WIDTH * n && 1 < m <= MAX_CHILD_COUNT && n <= MAX_CHILD_COUNT
    ensures (m, n) in {(4, 5), (8, 10), (12, 15)}
  {
    assert m % 4 == 0 && n == m / 4 * 5;
  }

  lemma {:induction false} OneGroupIsUniform(hash: Bytes -> Bytes, xs: seq<Bytes>)
    requires |xs| > MAX_CHILD_COUNT && NoCollision(hash, Inputs(hash, xs))
    ensures Uniform(OneGroup(hash, xs), HASH_WIDTH)
    decreases |xs|
  {
    hide Concat, Group, GroupInputs;
    LevelIsUniform(hash, xs);
    if LevelSize(|xs|) > MAX_CHILD_COUNT {
      OneGroupIsUniform(hash, Level(hash, xs));
    }
  }

  // ----- a meeting -----

  function Fill(b: byte): (r: Bytes)
    ensures |r| == HASH_WIDTH && forall i :: 0 <= i < HASH_WIDTH ==> r[i] == b
  {
    seq(HASH_WIDTH, i => b)
  }

  /** Four transactions, and 65 others. */
  function Few(): (r: seq<Bytes>) {
    [Fill(1), Fill(2), Fill(3), Fill(4)]
  }

  function Many(): (r: seq<Bytes>) {
    seq(65, i => Fill(0))
  }

  /** The leaves of the four, cut into five pieces as wide as a hash. */
  function Piece(i: nat): (r: Bytes)
    requires i < 5
  {
    var all := Concat(EncodeToCalculateRoot(Few()));
    if |all| == 160 then all[i * HASH_WIDTH..(i + 1) * HASH_WIDTH] else []
  }

  /** A hash that gives the five groups of the 65 leaves these pieces. */
  function Chosen(x: Bytes): (r: Bytes) {
    if |x| == MAX_CHILD_COUNT * LEAF_WIDTH && Value(x[..INDEX_WIDTH]) < 64 then Piece(Value(x[..INDEX_WIDTH]) / 16)
    else if |x| == LEAF_WIDTH then Piece(4)
    else if |x| == 160 then Fill(5)
    else Fill(6)
  }

  lemma FewLeaves()
    ensures var xs := EncodeToCalculateRoot(Few());
            |xs| == 4 && Concat(xs) == xs[0] + xs[1] + xs[2] + xs[3] && |Concat(xs)| == 160 && Uniform(xs, LEAF_WIDTH)
  {
    var xs := EncodeToCalculateRoot(Few());
    assert Concat(xs[3..]) == xs[3] + Concat([]) == xs[3];
    assert Concat(xs[2..]) == xs[2] + Concat(xs[3..]) by { assert xs[2..][1..] == xs[3..]; }
    assert Concat(xs[1..]) == xs[1] + Concat(xs[2..]) by { assert xs[1..][1..] == xs[2..]; }
    assert Concat(xs) == xs[0] + Concat(xs[1..]);
  }

  lemma ConcatFive(a: Bytes, b: Bytes, c: Bytes, d: Bytes, e: Bytes)
    ensures Concat([a, b, c, d, e]) == a + (b + (c + (d + e)))
  {
    assert [a, b, c, d, e][1..] == [b, c, d, e] && [b, c, d, e][1..] == [c, d, e];
    assert [c, d, e][1..] == [d, e] && [d, e][1..] == [e];
    assert Concat([e]) == e;
    assert Concat([d, e]) == d + e;
    assert Concat([c, d, e]) == c + (d + e);
    assert Concat([b, c, d, e]) == b + (c + (d + e));
  }

  lemma FiveCuts(all: Bytes)
    requires |all| == 160
    ensures all[0..32] + (all[32..64] + (all[64..96] + (all[96..128] + all[128..160]))) == all
  {
    assert all[96..128] + all[128..160] == all[96..];
    assert all[64..96] + all[96..] == all[64..];
    assert all[32..64] + all[64..] == all[32..];
  }

  lemma FirstBytes()
    ensures var all := Concat(EncodeToCalculateRoot(Few()));
            |all| == 160 && all[0] == 0 && all[32] == 1 && all[64] == 2 && all[96] == 3 && all[128] == 4
  {
    FewLeaves();
    hide Concat;
    var xs := EncodeToCalculateRoot(Few());
    var all := xs[0] + xs[1] + xs[2] + xs[3];
    assert all[0] == xs[0][0] == LittleEndian(0, INDEX_WIDTH)[0];
    assert all[32] == xs[0][32] == Few()[0][24];
    assert all[64] == xs[1][24] == Few()[1][16];
    assert all[96] == xs[2][16] == Few()[2][8];
    assert all[128] == xs[3][8] == Few()[3][0];
  }

  /** The pieces are told apart by their first bytes, and make up the four leaves. */
  lemma Pieces()
    ensures forall i :: 0 <= i < 5 ==> |Piece(i)| == HASH_WIDTH && Piece(i)[0] == i as byte
    ensures Concat([Piece(0), Piece(1), Piece(2), Piece(3), Piece(4)]) == Concat(EncodeToCalculateRoot(Few()))
  {
    FirstBytes();
    hide EncodeToCalculateRoot, Concat;
    FiveCuts(Concat(EncodeToCalculateRoot(Few())));
    ConcatFive(Piece(0), Piece(1), Piece(2), Piece(3), Piece(4));
  }

  lemma {:induction false} ConcatStarts(xs: seq<Bytes>)
    requires xs != []
    ensures |Concat(xs)| >= |xs[0]| && Concat(xs)[..|xs[0]|] == xs[0]
  {}

  lemma Pow256IsLarge()
    ensures Pow256(INDEX_WIDTH) > 64
  {
    assert Pow256(2) == 256 * Pow256(1) && Pow256(1) == 256 * Pow256(0);
    assert Pow256(4) == 256 * Pow256(3) && Pow256(3) == 256 * Pow256(2);
    assert Pow256(6) == 256 * Pow256(5) && Pow256(5) == 256 * Pow256(4);
    assert Pow256(8) == 256 * Pow256(7) && Pow256(7) == 256 * Pow256(6);
  }

  /** A group of leaves starts with the index of its first one. */
  lemma GroupOfLeaves(hashes: seq<Bytes>, i: nat)
    requires Uniform(hashes, HASH_WIDTH) && i < LevelSize(|hashes|)
    ensures var ys := EncodeToCalculateRoot(hashes);
            var all := Concat(Group(ys, i));
            |all| == LEAF_WIDTH * |Group(ys, i)| && |all| >= LEAF_WIDTH
            && all[..INDEX_WIDTH] == LittleEndian(16 * i, INDEX_WIDTH)
  {
    hide LittleEndian, Concat, Group;
    var ys := EncodeToCalculateRoot(hashes);
    var g := Group(ys, i);
    GroupHead(ys, i);
    assert Uniform(ys, LEAF_WIDTH);
    GroupIsUniform(ys, LEAF_WIDTH, i);
    ConcatLength(g, LEAF_WIDTH);
    ConcatStarts(g);
    IndexFirst(Concat(g), LittleEndian(16 * i, INDEX_WIDTH), hashes[16 * i]);
  }

  lemma GroupHead(xs: seq<Bytes>, i: nat)
    requires i < LevelSize(|xs|)
    ensures 16 * i < |xs| && Group(xs, i) != [] && Group(xs, i)[0] == xs[16 * i]
  {}

  lemma IndexFirst(all: Bytes, index: Bytes, hash: Bytes)
    requires |index| == INDEX_WIDTH && |hash| == HASH_WIDTH && |all| >= LEAF_WIDTH && all[..LEAF_WIDTH] == index + hash
    ensures all[..INDEX_WIDTH] == index
  {
    assert all[..INDEX_WIDTH] == all[..LEAF_WIDTH][..INDEX_WIDTH];
  }

  lemma ManyGroup(i: nat)
    requires i < 5
    ensures var ys := EncodeToCalculateRoot(Many());
            && |ys| == 65 && LevelSize(|ys|) == 5 && Chosen(Concat(Group(ys, i))) == Piece(i)
            && |Concat(Group(ys, i))| == (if i < 4 then 640 else 40)
  {
    hide Concat, LittleEndian, Value, Pow256, Piece;
    var ys := EncodeToCalculateRoot(Many());
    assert |Group(ys, i)| == if i < 4 then 16 else 1;
    GroupOfLeaves(Many(), i);
    Pow256IsLarge();
    LittleEndianValue(16 * i, INDEX_WIDTH);
    assert 16 * i / 16 == i;
  }

  lemma InputsOfOneGroup(hash: Bytes -> Bytes, xs: seq<Bytes>)
    requires 1 < |xs| <= MAX_CHILD_COUNT
    ensures Inputs(hash, xs) == {Concat(xs), hash(Concat(xs))}
  {
    LevelOfOneGroup(hash, xs);
    assert Group(xs, 0) == xs;
    hide Concat, Group;
    assert GroupInputs(xs) == {Concat(xs)};
  }

  /** The seven inputs that are hashed for the two blocks. */
  ghost function Input(k: nat): (r: Bytes)
    requires k < 7
  {
    if k < 5 then (ManyGroup(k); Concat(Group(EncodeToCalculateRoot(Many()), k)))
    else if k == 5 then Concat(EncodeToCalculateRoot(Few()))
    else Fill(5)
  }

  lemma InputHash(k: nat)
    requires k < 7
    ensures |Chosen(Input(k))| == HASH_WIDTH && Chosen(Input(k))[0] == k as byte
  {
    hide Concat, Piece, EncodeToCalculateRoot, Many, Group, Value;
    Pieces();
    FewLeaves();
    if k < 5 {
      ManyGroup(k);
    }
  }

  lemma ManyLevel()
    ensures Level(Chosen, EncodeToCalculateRoot(Many())) == [Piece(0), Piece(1), Piece(2), Piece(3), Piece(4)]
  {
    hide Concat, Piece, Chosen, Group, EncodeToCalculateRoot, Many;
    ManyGroup(0);
    ManyGroup(1);
    ManyGroup(2);
    ManyGroup(3);
    ManyGroup(4);
  }

  lemma SevenInputs(x: Bytes) returns (k: nat)
    requires x in Inputs(Chosen, EncodeToCalculateRoot(Few())) + Inputs(Chosen, EncodeToCalculateRoot(Many()))
    ensures k < 7 && x == Input(k)
  {
    var xs, ys := EncodeToCalculateRoot(Few()), EncodeToCalculateRoot(Many());
    var zs := [Piece(0), Piece(1), Piece(2), Piece(3), Piece(4)];
    FewLeaves();
    Pieces();
    ManyLevel();
    ManyGroup(0);
    InputsOfOneGroup(Chosen, xs);
    InputsOfOneGroup(Chosen, zs);
    hide Concat, Piece, Group, EncodeToCalculateRoot, Few, Many;
    assert Chosen(Concat(xs)) == Fill(5);
    if x in GroupInputs(ys) {
      var i :| 0 <= i < LevelSize(|ys|) && x == Concat(Group(ys, i));
      k := i;
    } else if x == Concat(xs) {
      k := 5;
    } else {
      k := 6;
    }
  }

  lemma ChosenDoesNotCollide()
    ensures NoCollision(Chosen,
                        Inputs(Chosen, EncodeToCalculateRoot(Few())) + Inputs(Chosen, EncodeToCalculateRoot(Many())))
  {
    var inputs := Inputs(Chosen, EncodeToCalculateRoot(Few())) + Inputs(Chosen, EncodeToCalculateRoot(Many()));
    hide Chosen, Input, EncodeToCalculateRoot, Inputs;
    forall x | x in inputs ensures |Chosen(x)| == HASH_WIDTH {
      var k := SevenInputs(x);
      InputHash(k);
    }
    forall x, y | x in inputs && y in inputs && Chosen(x) == Chosen(y) ensures x == y {
      var k := SevenInputs(x);
      var l := SevenInputs(y);
      InputHash(k);
      InputHash(l);
    }
  }

  lemma FewMeetMany()
    ensures Meets(Chosen, EncodeToCalculateRoot(Few()), EncodeToCalculateRoot(Many()))
  {
    var ys := EncodeToCalculateRoot(Many());
    FewLeaves();
    Pieces();
    ManyLevel();
    ManyGroup(0);
    hide Concat, Piece, Chosen, EncodeToCalculateRoot, Few, Many;
    assert OneGroup(Chosen, ys) == OneGroup(Chosen, Level(Chosen, ys)) == Level(Chosen, ys);
  }

  /** The exception is real: a hash without a collision on anything hashed for them, and two
      different blocks, of 4 and of 65 transactions, with the same root. */
  lemma MeetingHappens() returns (hash: Bytes -> Bytes, a: seq<Bytes>, b: seq<Bytes>)
    ensures Uniform(a, HASH_WIDTH) && Uniform(b, HASH_WIDTH) && |a| == 4 && |b| == 65
    ensures NoCollision(hash, Inputs(hash, EncodeToCalculateRoot(a)) + Inputs(hash, EncodeToCalculateRoot(b)))
    ensures Root(hash, EncodeToCalculateRoot(a)) == Root(hash, EncodeToCalculateRoot(b))
  {
    hide Chosen, EncodeToCalculateRoot, Inputs, Meets, NoCollision, Root;
    hash, a, b := Chosen, Few(), Many();
    ChosenDoesNotCollide();
    FewMeetMany();
    MeetingSharesTheRoot(hash, EncodeToCalculateRoot(a), EncodeToCalculateRoot(b));
  }
}
