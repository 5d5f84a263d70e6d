/** The serial part of a round keeps the invariant: releasing outdated locks, preparing the
    pools and routing messages between them. */
module DmcSerial {
  import opened Ordering
  import opened LockGraph
  import opened Options
  import opened Dmc
  import opened DmcInvariant
  import opened DmcTurns

  // ----- taking reported keys -----

  function KeySet(contract: string, keys: seq<string>): (r: set<KeyLock>) {
    set k | k in keys :: KeyLock(contract, k)
  }

  /** Keys that are granted are taken. */
  lemma {:induction false} AcquireAllTakes(g: Graph, contract: string, keys: seq<string>, c: int, s: int)
    requires AcquireAll(g, contract, keys, c, s).granted
    ensures Takes(g, AcquireAll(g, contract, keys, c, s).graph, contract, keys, c, s)
    decreases |keys|
  {
    if keys != [] {
      var first := Acquire(g, KeyLock(contract, keys[0]), c, s);
      AcquireAllTakes(first.graph, contract, keys[1..], c, s);
      TakesOneMore(g, first.graph, AcquireAll(first.graph, contract, keys[1..], c, s).graph, contract, keys, c, s);
    }
  }

  /** Reported keys nobody else holds are all granted, and nothing else changes. */
  lemma {:induction false} AcquireAllGrants(g: Graph, contract: string, keys: seq<string>, c: int, s: int)
    requires WellFormed(g)
    requires forall k :: k in KeySet(contract, keys) ==> !HeldByOther(g, k, c)
    ensures var r := AcquireAll(g, contract, keys, c, s);
            r.granted && WellFormed(r.graph) && Takes(g, r.graph, contract, keys, c, s)
    decreases |keys|
  {
    if keys != [] {
      var k := KeyLock(contract, keys[0]);
      assert k in KeySet(contract, keys);
      var first := Acquire(g, k, c, s);
      AcquireKeepsWellFormed(g, k, c, s);
      forall k' | k' in KeySet(contract, keys[1..]) ensures !HeldByOther(first.graph, k', c) {
        assert k' in KeySet(contract, keys);
      }
      AcquireAllGrants(first.graph, contract, keys[1..], c, s);
    }
    AcquireAllTakes(g, contract, keys, c, s);
  }

  lemma TakesOneMore(g: Graph, g1: Graph, g2: Graph, contract: string, keys: seq<string>, c: int, s: int)
    requires keys != [] && !HeldByOther(g, KeyLock(contract, keys[0]), c)
    requires g1 == Acquire(g, KeyLock(contract, keys[0]), c, s).graph && Takes(g1, g2, contract, keys[1..], c, s)
    ensures Takes(g, g2, contract, keys, c, s)
  {
    assert forall k :: k in keys <==> k == keys[0] || k in keys[1..];
    var held := Edge(Key(KeyLock(contract, keys[0])), Context(c), s);
    assert held in g1 && held in g2;
    forall k | k in keys ensures Holds(g2, KeyLock(contract, k), c, s) {
      if k != keys[0] { assert Holds(g2, KeyLock(contract, k), c, s); }
    }
    forall k, f | k in keys ensures !Waits(g2, c, KeyLock(contract, k), f) {
      if k == keys[0] { assert !Waits(g1, c, KeyLock(contract, k), f); }
    }
  }

  /** Taking keys for one context leaves the claims of the others grantable. */
  lemma GrantedLeavesOthers(g: Graph, g': Graph, contract: string, keys: seq<string>, c: int, s: int, m: Message,
                            d: int)
    requires Takes(g, g', contract, keys, c, s)
    requires d != c && Grantable(g, m, d) && Claims(m) !! KeySet(contract, keys)
    ensures Grantable(g', m, d) && (Busy(g', d) ==> Busy(g, d))
  {
    forall k | k in Claims(m) ensures !HeldByOther(g', k, d) {
      assert k !in KeySet(contract, keys);
      if e :| e in g' && e.source == Key(k) && e.target != Context(d) {
        assert false;
      }
    }
  }

  // ----- moving a context between the sets of a pool -----

  /** The place of a context that has been filed under a hint in the pool of a. */
  predicate Fits(hint: Hint, a: string, place: Place) {
    match hint
    case NEED_PREPARE => place == Prep(a)
    case LOCKED => place == Locked(a)
    case NEED_SEND => place == Ready(a)
    case NEED_SCHEDULE_OUT => place == Transit(a)
    case END => place.Done?
  }

  function PlaceOf(hint: Hint, a: string): (r: Place)
    requires hint != END
    ensures Fits(hint, a, r)
  {
    match hint
    case NEED_PREPARE => Prep(a)
    case LOCKED => Locked(a)
    case NEED_SEND => Ready(a)
    case NEED_SCHEDULE_OUT => Transit(a)
  }

  lemma FilePool(p: Pool, a: string, pl: Places, c: int, hint: Hint, place: Place)
    requires PoolOk(p, a, pl) && c in pl && pl[c] == Prep(a) && hint != NEED_PREPARE && Fits(hint, a, place)
    ensures PoolOk(MarkAs(p.(needPrepare := p.needPrepare - {c}), c, hint), a, pl[c := place])
  {
    var p' := MarkAs(p.(needPrepare := p.needPrepare - {c}), c, hint);
    var pl' := pl[c := place];
    assert c in p.needPrepare;
    assert c in p.pending;
    forall x
      ensures x in p'.pending <==> (x in pl' && Home(pl'[x], a)) || x in Leaving(p')
      ensures x in Leaving(p') ==> !(x in pl' && Home(pl'[x], a))
    {
      assert x != c ==> (x in Leaving(p') <==> x in Leaving(p));
    }
  }

  lemma OtherPool(p: Pool, b: string, pl: Places, c: int, place: Place)
    requires PoolOk(p, b, pl) && c in pl
    requires !Home(pl[c], b) && !Home(place, b)
    ensures PoolOk(p, b, pl[c := place])
  {}

  /** Filing a handled context under its hint keeps every pool in order. */
  lemma FileKeepsPools(pools: map<string, Pool>, pl: Places, a: string, c: int, hint: Hint, place: Place)
    requires PoolsOk(pools, pl) && c in pl && pl[c] == Prep(a) && hint != NEED_PREPARE && Fits(hint, a, place)
    ensures a in pools
    ensures var p := pools[a];
            PoolsOk(pools[a := MarkAs(p.(needPrepare := p.needPrepare - {c}), c, hint)], pl[c := place])
  {
    var p := pools[a];
    var pools' := pools[a := MarkAs(p.(needPrepare := p.needPrepare - {c}), c, hint)];
    var pl' := pl[c := place];
    FilePool(p, a, pl, c, hint, place);
    forall b | b in pools' ensures PoolOk(pools'[b], b, pl') {
      if b != a { OtherPool(pools[b], b, pl, c, place); }
    }
  }

  // ----- handling one message -----

  /** Messages that return from a frame have had the locks of that frame released. */
  ghost predicate Released(s: State, pl: Places)
    requires s.execs.Keys == pl.Keys
  {
    forall c, e :: c in pl && Unhandled(pl[c]) && s.execs[c].message.typ in {FINISHED, REVERT} && e in s.locks
        && Touches(e, c)
      ==> e.frame != s.execs[c].message.frame
  }

  /** What handling c may change besides c's own executive: c's locks. */
  ghost predicate OthersKept(s: State, pl: Places, c: int, g': Graph)
    requires s.execs.Keys == pl.Keys
  {
    forall d :: d in pl && d != c && Unhandled(pl[d]) ==>
      Grantable(g', s.execs[d].message, d) && (Busy(g', d) ==> Busy(s.locks, d))
  }

  /** What a context keeps while it is on its way out. */
  ghost predicate OutOk(env: Env, s: State, a: string, c: int, e': Executive, g': Graph)
    requires c in s.execs
  {
    && Claims(e'.message) <= Claims(s.execs[c].message) && Grantable(g', e'.message, c)
    && e'.message.typ != SEND_BACK
    && Dest(env, e') != a && c !in PoolAt(s, Dest(env, e')).pending
  }

  function Filed(s: State, a: string, c: int, e': Executive, g': Graph, hint: Hint): (r: State)
    requires a in s.pools
  {
    var p := s.pools[a];
    SetPool(SetExec(s.(locks := g'), c, e'), a, MarkAs(p.(needPrepare := p.needPrepare - {c}), c, hint))
  }

  lemma FiledGrants(env: Env, s: State, pl: Places, a: string, c: int, e': Executive, g': Graph, hint: Hint)
    requires a in s.pools && s.execs.Keys == pl.Keys && GrantsOk(s, pl)
    requires c in pl && pl[c] == Prep(a) && hint in {NEED_SEND, LOCKED, NEED_SCHEDULE_OUT}
    requires OthersKept(s, pl, c, g') && (hint == NEED_SCHEDULE_OUT ==> OutOk(env, s, a, c, e', g'))
    ensures Filed(s, a, c, e', g', hint).execs.Keys == pl[c := PlaceOf(hint, a)].Keys
    ensures GrantsOk(Filed(s, a, c, e', g', hint), pl[c := PlaceOf(hint, a)])
  {
    var s', pl' := Filed(s, a, c, e', g', hint), pl[c := PlaceOf(hint, a)];
    forall x, y | x in pl' && y in pl' && x != y && Unhandled(pl'[x]) && Unhandled(pl'[y])
      ensures Claims(s'.execs[x].message) !! Claims(s'.execs[y].message)
    {
      assert Unhandled(pl[x]) && Unhandled(pl[y]);
      assert Claims(s.execs[x].message) !! Claims(s.execs[y].message);
    }
  }

  lemma FiledRoutes(env: Env, s: State, pl: Places, a: string, c: int, e': Executive, g': Graph, hint: Hint)
    requires a in s.pools && s.execs.Keys == pl.Keys && RoutesOk(env, s, pl)
    requires c in pl && hint in {NEED_SEND, LOCKED, NEED_SCHEDULE_OUT}
    requires hint == NEED_SCHEDULE_OUT ==> OutOk(env, s, a, c, e', g')
    ensures Filed(s, a, c, e', g', hint).execs.Keys == pl[c := PlaceOf(hint, a)].Keys
    ensures RoutesOk(env, Filed(s, a, c, e', g', hint), pl[c := PlaceOf(hint, a)])
  {
    var s', pl' := Filed(s, a, c, e', g', hint), pl[c := PlaceOf(hint, a)];
    assert forall x :: PoolAt(s', x).pending == PoolAt(s, x).pending;
    forall d | d in pl' ensures RouteOk(env, s', pl', d) {
      if d != c { assert RouteOk(env, s, pl, d); }
    }
  }

  lemma FiledExecs(env: Env, s: State, s': State, pl: Places, c: int, e': Executive, place: Place)
    requires ExecsOk(env, s, pl) && c in pl && s'.execs == s.execs[c := e'] && ExecOk(env, e', place, c)
    ensures ExecsOk(env, s', pl[c := place])
  {
    var pl' := pl[c := place];
    forall d | d in pl' ensures ExecOk(env, s'.execs[d], pl'[d], d) {
      if d != c { assert ExecOk(env, s.execs[d], pl[d], d); }
    }
  }

  lemma FiledResults(env: Env, s: State, pl: Places, c: int, place: Place)
    requires ResultsOk(env, s.results, s.gasUsed, s.written, pl) && c in pl && !pl[c].Done? && !place.Done?
    ensures ResultsOk(env, s.results, s.gasUsed, s.written, pl[c := place])
  {}

  /** Filing a context that is not finished keeps the invariant. */
  lemma FiledKeeps(env: Env, s: State, pl: Places, a: string, c: int, e': Executive, g': Graph, hint: Hint)
    requires Inv(env, s, pl) && c in pl && pl[c] == Prep(a) && hint in {NEED_SEND, LOCKED, NEED_SCHEDULE_OUT}
    requires OthersKept(s, pl, c, g') && (hint == NEED_SCHEDULE_OUT ==> OutOk(env, s, a, c, e', g'))
    requires ExecOk(env, e', PlaceOf(hint, a), c)
    requires WellFormed(g') && EdgesFollowStacks(g', s.execs[c := e'])
    ensures Inv(env, Filed(s, a, c, e', g', hint), pl[c := PlaceOf(hint, a)])
  {
    var place := PlaceOf(hint, a);
    FileKeepsPools(s.pools, pl, a, c, hint, place);
    FiledExecs(env, s, Filed(s, a, c, e', g', hint), pl, c, e', place);
    FiledRoutes(env, s, pl, a, c, e', g', hint);
    FiledGrants(env, s, pl, a, c, e', g', hint);
    FiledResults(env, s, pl, c, place);
  }

  // ----- the five outcomes of handleExecutiveMessage -----

  lemma CreatedIsStable(env: Env, e: Executive)
    requires AwaitsHandling(env, e)
    ensures HandleCreate(env, HandleCreate(env, e)) == HandleCreate(env, e)
    ensures HandleCreate(env, e).message.typ != SEND_BACK
    ensures Dest(env, HandleCreate(env, e)) == Dest(env, e)
    ensures Claims(HandleCreate(env, e).message) == Claims(e.message)
    ensures e.message.typ != SEND_BACK ==> HandleCreate(env, e).callStack == e.callStack
  {}

  /** The facts about a context that prepare is about to handle. */
  lemma AboutToHandle(env: Env, s: State, pl: Places, a: string, c: int)
    requires Inv(env, s, pl) && c in pl && pl[c] == Prep(a)
    ensures a in s.pools && c in s.pools[a].pending && c in s.pools[a].needPrepare && c in s.execs && s.fault.None?
    ensures ExecOk(env, s.execs[c], Prep(a), c) && RouteOk(env, s, pl, c)
    ensures Grantable(s.locks, s.execs[c].message, c)
    ensures s.execs[c].message.typ == SEND_BACK ==> !Busy(s.locks, c)
    ensures WellFormed(s.locks) && EdgesFollowStacks(s.locks, s.execs) && s.execs.Keys == pl.Keys
  {
    assert PoolOk(s.pools[a], a, pl);
  }

  /** Edges keep following the stacks when c's stack loses no frame that c's edges carry. */
  lemma EdgesFollow(g: Graph, g': Graph, execs: map<int, Executive>, c: int, e': Executive)
    requires EdgesFollowStacks(g, execs) && c in execs
    requires forall x, d :: x in g' && Touches(x, d) && d != c ==> x in g
    requires forall x :: x in g' && Touches(x, c) ==> x.frame in e'.callStack
    ensures EdgesFollowStacks(g', execs[c := e'])
  {}

  lemma OthersUntouched(env: Env, s: State, pl: Places, c: int)
    requires Inv(env, s, pl)
    ensures OthersKept(s, pl, c, s.locks)
  {}

  lemma OutKeeps(env: Env, s: State, pl: Places, a: string, c: int)
    requires Inv(env, s, pl) && c in pl && pl[c] == Prep(a) && Dest(env, s.execs[c]) != a
    ensures var s' := PrepareOne(env, s, a, c);
            && Inv(env, s', pl[c := Transit(a)]) && s'.locks == s.locks
            && c in s'.execs && Forwards(env, s.execs[c], s'.execs[c])
  {
    hide Inv;
    AboutToHandle(env, s, pl, a, c);
    var e := s.execs[c];
    var e' := HandleCreate(env, e);
    CreatedIsStable(env, e);
    assert ExecOk(env, e', Transit(a), c);
    forall x | x in s.locks && Touches(x, c) ensures x.frame in e'.callStack {
      assert Busy(s.locks, c);
    }
    EdgesFollow(s.locks, s.locks, s.execs, c, e');
    OthersUntouched(env, s, pl, c);
    FiledKeeps(env, s, pl, a, c, e', s.locks, NEED_SCHEDULE_OUT);
  }

  /** The keys a message reports can be taken without touching anyone else. */
  lemma ClaimsLeaveOthers(env: Env, s: State, pl: Places, a: string, c: int)
    requires Inv(env, s, pl) && c in pl && pl[c] == Prep(a)
    requires s.execs[c].message.typ in {MESSAGE, TXHASH, KEY_LOCK, SEND_BACK}
    ensures var m := HandleCreate(env, s.execs[c]).message;
            var r := AcquireAll(s.locks, m.from, m.keyLocks, m.contextID, m.frame);
            && m.contextID == c && r.granted && WellFormed(r.graph) && OthersKept(s, pl, c, r.graph)
            && Takes(s.locks, r.graph, m.from, m.keyLocks, c, m.frame)
  {
    hide ResultsOk, PoolsOk, RoutesOk, EdgesFollowStacks, RouteOk, Busy, AcquireAll, Takes, HandleCreate;
    AboutToHandle(env, s, pl, a, c);
    CreatedIsStable(env, s.execs[c]);
    var e := s.execs[c];
    if e.message.typ in {MESSAGE, TXHASH, SEND_BACK} { CallTypes(env, e); } else { NothingCreated(env, e); }
    var m := HandleCreate(env, e).message;
    var keys := KeySet(m.from, m.keyLocks);
    assert keys == Claims(e.message);
    AcquireAllGrants(s.locks, m.from, m.keyLocks, c, m.frame);
    var r := AcquireAll(s.locks, m.from, m.keyLocks, c, m.frame);
    forall d | d in pl && d != c && Unhandled(pl[d])
      ensures Grantable(r.graph, s.execs[d].message, d) && (Busy(r.graph, d) ==> Busy(s.locks, d))
    {
      GrantedLeavesOthers(s.locks, r.graph, m.from, m.keyLocks, c, m.frame, s.execs[d].message, d);
    }
  }

  lemma NothingCreated(env: Env, e: Executive)
    requires e.message.typ in {KEY_LOCK, FINISHED, REVERT}
    ensures HandleCreate(env, e) == e
  {}

  /** The edges a message leaves its context with carry frames of its stack. */
  lemma ClaimsFollowStack(env: Env, s: State, pl: Places, a: string, c: int, x: Edge)
    requires Inv(env, s, pl) && c in pl && pl[c] == Prep(a) && Touches(x, c)
    requires var m := HandleCreate(env, s.execs[c]).message; x in s.locks || (m.keyLocks != [] && x.frame == m.frame)
    ensures x.frame in HandleCreate(env, s.execs[c]).callStack
  {
    AboutToHandle(env, s, pl, a, c);
    CreatedIsStable(env, s.execs[c]);
    hide ResultsOk, PoolsOk, RoutesOk, WellFormed;
    var e := s.execs[c];
    if x in s.locks {
      assert Busy(s.locks, c);
    } else {
      assert AtTop(e);
    }
  }

  lemma TakeClaims(env: Env, s: State, pl: Places, a: string, c: int)
    requires Inv(env, s, pl) && c in pl && pl[c] == Prep(a)
    requires s.execs[c].message.typ in {MESSAGE, TXHASH, KEY_LOCK, SEND_BACK}
    ensures var m := HandleCreate(env, s.execs[c]).message;
            var r := AcquireAll(s.locks, m.from, m.keyLocks, m.contextID, m.frame);
            && m.contextID == c && r.granted && WellFormed(r.graph) && OthersKept(s, pl, c, r.graph)
            && Takes(s.locks, r.graph, m.from, m.keyLocks, c, m.frame)
            && (forall x :: x in r.graph && Touches(x, c) ==> x.frame in HandleCreate(env, s.execs[c]).callStack)
  {
    hide WellFormed, OthersKept, AcquireAll, HandleCreate;
    ClaimsLeaveOthers(env, s, pl, a, c);
    var m := HandleCreate(env, s.execs[c]).message;
    var r := AcquireAll(s.locks, m.from, m.keyLocks, m.contextID, m.frame);
    forall x | x in r.graph && Touches(x, c) ensures x.frame in HandleCreate(env, s.execs[c]).callStack {
      ClaimsFollowStack(env, s, pl, a, c, x);
    }
  }

  lemma CallKeeps(env: Env, s: State, pl: Places, a: string, c: int)
    requires Inv(env, s, pl) && c in pl && pl[c] == Prep(a) && Dest(env, s.execs[c]) == a
    requires s.execs[c].message.typ in {MESSAGE, TXHASH, SEND_BACK}
    ensures var m, s' := s.execs[c].message, PrepareOne(env, s, a, c);
            && Inv(env, s', pl[c := Ready(a)])
            && Takes(s.locks, s'.locks, m.from, m.keyLocks, c, m.frame)
            && c in s'.execs && Turns(env, s.execs[c], s'.execs[c]) && s'.execs[c].message.to == a
  {
    hide Inv, PrepareOne, AcquireAll, HandleCreate, Takes;
    AboutToHandle(env, s, pl, a, c);
    CallTypes(env, s.execs[c]);
    TakeClaims(env, s, pl, a, c);
    var e := HandleCreate(env, s.execs[c]);
    var m := e.message;
    var g' := AcquireAll(s.locks, m.from, m.keyLocks, m.contextID, m.frame).graph;
    var e' := Executive(e.callStack + [e.currentSeq], e.currentSeq + 1, m.(frame := e.currentSeq), false);
    PushOk(env, s.execs[c], a, c);
    TakesHolds(s.locks, g', m, c);
    EdgesFollow(s.locks, g', s.execs, c, e');
    FiledKeeps(env, s, pl, a, c, e', g', NEED_SEND);
    CallIsFiled(env, s, a, c);
    CallTurns(env, s.execs[c], e');
  }

  lemma CallTurns(env: Env, e: Executive, e': Executive)
    requires e.message.typ in {MESSAGE, TXHASH, SEND_BACK}
    requires var h := HandleCreate(env, e);
             e' == Executive(h.callStack + [h.currentSeq], h.currentSeq + 1, h.message.(frame := h.currentSeq), false)
    ensures Turns(env, e, e') && e'.message.to == Dest(env, e)
  {}

  lemma CallTypes(env: Env, e: Executive)
    requires e.message.typ in {MESSAGE, TXHASH, SEND_BACK}
    ensures SameContent(e.message, HandleCreate(env, e).message)
    ensures var m, m' := e.message, HandleCreate(env, e).message; m'.keyLocks == m.keyLocks && m'.frame == m.frame
  {}

  lemma CallIsFiled(env: Env, s: State, a: string, c: int)
    requires a in s.pools && c in s.execs && c in s.pools[a].pending && s.fault.None?
    requires ExecOk(env, s.execs[c], Prep(a), c) && Dest(env, s.execs[c]) == a
    requires s.execs[c].message.typ in {MESSAGE, TXHASH, SEND_BACK}
    requires var m := HandleCreate(env, s.execs[c]).message;
             AcquireAll(s.locks, m.from, m.keyLocks, m.contextID, m.frame).granted
    ensures var e := HandleCreate(env, s.execs[c]);
            var m, n := e.message, e.currentSeq;
            var g := AcquireAll(s.locks, m.from, m.keyLocks, m.contextID, m.frame).graph;
            PrepareOne(env, s, a, c)
            == Filed(s, a, c, Executive(e.callStack + [n], n + 1, m.(frame := n), false), g, NEED_SEND)
  {
    hide AcquireAll;
  }

  lemma PushOk(env: Env, e: Executive, a: string, c: int)
    requires ExecOk(env, e, Prep(a), c) && Dest(env, e) == a
    ensures var h := HandleCreate(env, e);
            ExecOk(env, Executive(h.callStack + [h.currentSeq], h.currentSeq + 1,
                                  h.message.(frame := h.currentSeq), false), Ready(a), c)
  {}

  lemma WaitKeeps(env: Env, s: State, pl: Places, a: string, c: int)
    requires Inv(env, s, pl) && c in pl && pl[c] == Prep(a) && s.execs[c].message.typ == KEY_LOCK
             && s.execs[c].message.to == a
    ensures var m, s' := s.execs[c].message, PrepareOne(env, s, a, c);
            && Inv(env, s', pl[c := Locked(a)])
            && Takes(s.locks, s'.locks, m.from, m.keyLocks, c, m.frame)
            && c in s'.execs && s'.execs[c] == s.execs[c] && Turns(env, s.execs[c], s'.execs[c])
  {
    hide Inv, Takes;
    AboutToHandle(env, s, pl, a, c);
    TakeClaims(env, s, pl, a, c);
    var e := s.execs[c];
    var g' := AcquireAll(s.locks, e.message.from, e.message.keyLocks, e.message.contextID, e.message.frame).graph;
    assert s.execs[c := e] == s.execs;
    TakesHolds(s.locks, g', e.message, c);
    EdgesFollow(s.locks, g', s.execs, c, e);
    FiledKeeps(env, s, pl, a, c, e, g', LOCKED);
    assert PrepareOne(env, s, a, c) == Filed(s, a, c, e, g', LOCKED);
  }

  lemma ReleasedFrames(s: State, pl: Places, c: int)
    requires s.execs.Keys == pl.Keys && Released(s, pl) && EdgesFollowStacks(s.locks, s.execs)
    requires c in pl && Unhandled(pl[c]) && s.execs[c].message.typ in {FINISHED, REVERT} && AtTop(s.execs[c])
    ensures var stack := s.execs[c].callStack;
            forall x :: x in s.locks && Touches(x, c) ==> x.frame in stack[..|stack| - 1]
  {
    var stack := s.execs[c].callStack;
    forall x | x in s.locks && Touches(x, c) ensures x.frame in stack[..|stack| - 1] {
      var i :| 0 <= i < |stack| && stack[i] == x.frame;
      assert stack[..|stack| - 1][i] == x.frame;
    }
  }

  lemma ReturnKeeps(env: Env, s: State, pl: Places, a: string, c: int)
    requires Inv(env, s, pl) && Released(s, pl) && c in pl && pl[c] == Prep(a)
    requires s.execs[c].message.typ in {FINISHED, REVERT} && s.execs[c].message.to == a && |s.execs[c].callStack| > 1
    ensures var s' := PrepareOne(env, s, a, c);
            && Inv(env, s', pl[c := Ready(a)]) && s'.locks == s.locks
            && c in s'.execs && Turns(env, s.execs[c], s'.execs[c]) && s'.execs[c].message.to == a
  {
    hide Inv, PrepareOne, Filed, RouteOk, Grantable, Busy, WellFormed, OthersKept;
    AboutToHandle(env, s, pl, a, c);
    var e := s.execs[c];
    var stack := e.callStack[..|e.callStack| - 1];
    var e' := e.(callStack := stack, message := e.message.(frame := stack[|stack| - 1], create := false));
    assert ExecOk(env, e', Ready(a), c);
    ReleasedFrames(s, pl, c);
    EdgesFollow(s.locks, s.locks, s.execs, c, e');
    OthersUntouched(env, s, pl, c);
    FiledKeeps(env, s, pl, a, c, e', s.locks, NEED_SEND);
    ReturnIsFiled(env, s, a, c, e');
  }

  lemma ReturnIsFiled(env: Env, s: State, a: string, c: int, e': Executive)
    requires a in s.pools && c in s.execs && c in s.pools[a].pending && s.fault.None? && !s.execs[c].moved
    requires s.execs[c].message.typ in {FINISHED, REVERT} && s.execs[c].message.to == a && |s.execs[c].callStack| > 1
    requires var e, n := s.execs[c], |s.execs[c].callStack| - 1;
             var m := e.message.(frame := e.callStack[n - 1], create := false);
             e' == e.(callStack := e.callStack[..n], message := m)
    ensures var s' := PrepareOne(env, s, a, c);
            && s' == Filed(s, a, c, e', s.locks, NEED_SEND) && s'.locks == s.locks && c in s'.execs && s'.execs[c] == e'
    ensures Turns(env, s.execs[c], e')
  {}

  lemma {:induction false} GasSumUpdate(results: seq<Option<Receipt>>, i: nat, r: Receipt)
    requires i < |results| && results[i].None?
    ensures GasSum(results[i := Some(r)]) == GasSum(results) + r.gasUsed
    decreases |results|
  {
    var n := |results| - 1;
    var results' := results[i := Some(r)];
    if i < n {
      assert results'[..n] == results[..n][i := Some(r)];
      GasSumUpdate(results[..n], i, r);
    } else {
      assert results'[..n] == results[..n];
    }
  }

  lemma GasAfterFinish(env: Env, s: State, m: Message)
    requires 0 <= m.contextID - env.startContextID < |s.results|
    requires s.results[m.contextID - env.startContextID].None? && s.gasUsed == GasSum(s.results) % WORD
    ensures OnTxFinish(env, s, m).gasUsed == GasSum(OnTxFinish(env, s, m).results) % WORD
  {
    GasSumUpdate(s.results, m.contextID - env.startContextID, MakeReceipt(env, m));
  }

  lemma OneMoreWritten(written: seq<int>, slot: int)
    requires NoDuplicates(written)
    ensures slot !in written ==> NoDuplicates(written + [slot])
    ensures forall i :: i in written + [slot] <==> i in written || i == slot
  {}

  lemma SlotInRange(env: Env, s: State, pl: Places, c: int)
    requires Inv(env, s, pl) && c in pl
    ensures 0 <= c - env.startContextID < |s.results|
  {}

  lemma ReceiptDescribes(env: Env, m: Message)
    ensures Describes(env, m, MakeReceipt(env, m))
  {}

  lemma FinishResults(env: Env, s: State, pl: Places, m: Message, c: int)
    requires ResultsOk(env, s.results, s.gasUsed, s.written, pl) && c in pl && !pl[c].Done? && m.contextID == c
    ensures var s' := OnTxFinish(env, s, m);
            && s'.fault == s.fault
            && ResultsOk(env, s'.results, s'.gasUsed, s'.written, pl[c := Done(MakeReceipt(env, m))])
  {
    hide GasSum, MakeReceipt, NoDuplicates;
    var slot := c - env.startContextID;
    var s' := OnTxFinish(env, s, m);
    GasAfterFinish(env, s, m);
    OneMoreWritten(s.written, slot);
    assert slot !in s.written;
    forall i ensures i in s'.written <==> 0 <= i < |s'.results| && s'.results[i].Some? {
      assert i in s'.written <==> i in s.written || i == slot;
    }
  }

  lemma FinishedGrants(s: State, s': State, pl: Places, c: int, r: Receipt)
    requires s.execs.Keys == pl.Keys && s'.execs.Keys == pl.Keys && GrantsOk(s, pl)
    requires c in pl && s'.locks == s.locks && forall d :: d in pl && d != c ==> s'.execs[d] == s.execs[d]
    ensures s'.execs.Keys == pl[c := Done(r)].Keys && GrantsOk(s', pl[c := Done(r)])
  {
    var pl' := pl[c := Done(r)];
    assert pl'.Keys == pl.Keys;
    forall x, y | x in pl' && y in pl' && x != y && Unhandled(pl'[x]) && Unhandled(pl'[y])
      ensures Claims(s'.execs[x].message) !! Claims(s'.execs[y].message)
    {
      assert Claims(s.execs[x].message) !! Claims(s.execs[y].message);
    }
  }

  lemma FinishedRoutes(env: Env, s: State, s': State, pl: Places, c: int, r: Receipt)
    requires s.execs.Keys == pl.Keys && s'.execs.Keys == pl.Keys && RoutesOk(env, s, pl)
    requires c in pl && forall x :: PoolAt(s', x).pending == PoolAt(s, x).pending
    requires forall d :: d in pl && d != c ==> s'.execs[d] == s.execs[d]
    ensures s'.execs.Keys == pl[c := Done(r)].Keys && RoutesOk(env, s', pl[c := Done(r)])
  {
    var pl' := pl[c := Done(r)];
    assert pl'.Keys == pl.Keys;
    forall d | d in pl' ensures RouteOk(env, s', pl', d) {
      if d != c { assert RouteOk(env, s, pl, d); }
    }
  }

  /** The state after the last frame of c has returned. */
  function Ended(env: Env, s: State, a: string, c: int): (r: State)
    requires a in s.pools && c in s.execs
  {
    var e := s.execs[c];
    var p := s.pools[a];
    SetPool(OnTxFinish(env, SetExec(s, c, e.(callStack := [], moved := true)), e.message), a,
            MarkAs(p.(needPrepare := p.needPrepare - {c}), c, END))
  }

  lemma EndIsEnded(env: Env, s: State, a: string, c: int)
    requires a in s.pools && c in s.execs && c in s.pools[a].pending && s.fault.None?
    requires ExecOk(env, s.execs[c], Prep(a), c)
    requires s.execs[c].message.typ in {FINISHED, REVERT} && s.execs[c].message.to == a && |s.execs[c].callStack| == 1
    ensures PrepareOne(env, s, a, c) == Ended(env, s, a, c)
  {
    assert s.execs[c].callStack[..0] == [];
  }

  lemma EndedKeeps(env: Env, s: State, pl: Places, a: string, c: int)
    requires Inv(env, s, pl) && c in pl && pl[c] == Prep(a)
    requires forall x :: x in s.locks ==> !Touches(x, c)
    ensures a in s.pools
    ensures Inv(env, Ended(env, s, a, c), pl[c := Done(MakeReceipt(env, s.execs[c].message))])
  {
    hide ResultsOk, PoolsOk, GrantsOk, RoutesOk;
    AboutToHandle(env, s, pl, a, c);
    var e := s.execs[c];
    var e' := e.(callStack := [], moved := true);
    var s' := Ended(env, s, a, c);
    var s1 := SetExec(s, c, e');
    FinishResults(env, s1, pl, e.message, c);
    EndedFields(env, s, a, c);
    var r := MakeReceipt(env, e.message);
    assert ResultsOk(env, s'.results, s'.gasUsed, s'.written, pl[c := Done(r)]);
    FileKeepsPools(s.pools, pl, a, c, END, Done(r));
    ReceiptDescribes(env, e.message);
    FiledExecs(env, s, s', pl, c, e', Done(r));
    EdgesFollow(s.locks, s.locks, s.execs, c, e');
    FinishedRoutes(env, s, s', pl, c, r);
    FinishedGrants(s, s', pl, c, r);
  }

  lemma EndedFields(env: Env, s: State, a: string, c: int)
    requires a in s.pools && c in s.execs
    ensures var e := s.execs[c];
            var e' := e.(callStack := [], moved := true);
            var s', s2 := Ended(env, s, a, c), OnTxFinish(env, SetExec(s, c, e'), e.message);
            && s'.execs == s.execs[c := e'] && s'.locks == s.locks && s'.batches == s.batches
            && s'.results == s2.results && s'.gasUsed == s2.gasUsed && s'.written == s2.written && s'.fault == s2.fault
            && s'.pools == Filed(s, a, c, e', s.locks, END).pools
  {}

  /** The transaction of c is finished: its receipt describes the message of its last return. */
  ghost predicate EndEffect(env: Env, s: State, pl: Places, c: int, s': State) {
    && c in s.execs && s.execs[c].message.contextID == c && ReceiptWritten(env, s, s', s.execs[c].message)
    && Inv(env, s', pl[c := Done(s'.results[c - env.startContextID].value)]) && s'.locks == s.locks
    && c in s'.execs && Turns(env, s.execs[c], s'.execs[c])
  }

  lemma EndKeeps(env: Env, s: State, pl: Places, a: string, c: int)
    requires Inv(env, s, pl) && Released(s, pl) && c in pl && pl[c] == Prep(a)
    requires s.execs[c].message.typ in {FINISHED, REVERT} && s.execs[c].message.to == a && |s.execs[c].callStack| == 1
    ensures EndEffect(env, s, pl, c, PrepareOne(env, s, a, c))
  {
    hide Inv, ReceiptWritten, PrepareOne, RouteOk, Grantable, Busy, WellFormed, MakeReceipt, OnTxFinish;
    AboutToHandle(env, s, pl, a, c);
    SlotInRange(env, s, pl, c);
    EndIsEnded(env, s, a, c);
    ReleasedFrames(s, pl, c);
    EndedKeeps(env, s, pl, a, c);
    EndedFields(env, s, a, c);
    EndedWrites(env, s, a, c);
  }

  lemma EndedWrites(env: Env, s: State, a: string, c: int)
    requires a in s.pools && c in s.execs && 0 <= s.execs[c].message.contextID - env.startContextID < |s.results|
    ensures ReceiptWritten(env, s, Ended(env, s, a, c), s.execs[c].message)
    ensures var slot := s.execs[c].message.contextID - env.startContextID;
            Ended(env, s, a, c).results[slot] == Some(MakeReceipt(env, s.execs[c].message))
  {
    hide Describes, MakeReceipt;
    ReceiptDescribes(env, s.execs[c].message);
  }

  // ----- handleExecutiveMessage from any state -----

  function HintFor(e: Executive): (r: Hint) {
    match e.message.typ
    case KEY_LOCK => LOCKED
    case FINISHED | REVERT => if |e.callStack| == 1 then END else NEED_SEND
    case MESSAGE | TXHASH | SEND_BACK => NEED_SEND
  }

  /** The message of c was handled in the pool of a: it is forwarded or has its turn, its keys
      are taken if it is a call or a wait, and its receipt is written if it is the last return. */
  ghost predicate TurnTaken(env: Env, s: State, s': State, hint: Hint, a: string, c: int)
    requires c in s.execs
  {
    && s'.pools == s.pools && s'.execs.Keys == s.execs.Keys
    && (forall d :: d in s.execs && d != c ==> s'.execs[d] == s.execs[d])
    && var e, e', m := s.execs[c], s'.execs[c], s.execs[c].message;
    if e'.message.to != a then
      hint == NEED_SCHEDULE_OUT && Forwards(env, e, e') && s'.locks == s.locks && s'.results == s.results
    else
      && hint == HintFor(e) && Turns(env, e, e')
      && (if m.typ in {FINISHED, REVERT} then s'.locks == s.locks
          else Takes(s.locks, s'.locks, m.from, m.keyLocks, m.contextID, m.frame))
      && (if hint == END then ReceiptWritten(env, s, s', m) else s'.results == s.results)
  }

  ghost predicate ReceiptWritten(env: Env, s: State, s': State, m: Message) {
    var slot := m.contextID - env.startContextID;
    && 0 <= slot < |s.results| == |s'.results| && s'.results[slot].Some? && Describes(env, m, s'.results[slot].value)
    && (forall i :: 0 <= i < |s.results| && i != slot ==> s'.results[i] == s.results[i])
    && s'.gasUsed == (s.gasUsed + s'.results[slot].value.gasUsed) % WORD && s'.written == s.written + [slot]
  }

  lemma FinishWrites(env: Env, s: State, m: Message)
    requires s.fault.None? && OnTxFinish(env, s, m).fault.None?
    ensures ReceiptWritten(env, s, OnTxFinish(env, s, m), m)
  {
    hide Describes, MakeReceipt;
    ReceiptDescribes(env, m);
  }

  lemma CallTaken(env: Env, s: State, a: string, c: int)
    requires c in s.execs && s.fault.None? && !s.execs[c].moved && Dest(env, s.execs[c]) == a
    requires s.execs[c].message.typ in {MESSAGE, TXHASH, SEND_BACK}
    ensures var h := HandleCall(s, c, HandleCreate(env, s.execs[c]));
            h.state.fault.None? ==> TurnTaken(env, s, h.state, h.hint, a, c)
  {
    hide AcquireAll, Takes, HandleCreate;
    var e := HandleCreate(env, s.execs[c]);
    var m := e.message;
    CallTypes(env, s.execs[c]);
    if AcquireAll(s.locks, m.from, m.keyLocks, m.contextID, m.frame).granted {
      AcquireAllTakes(s.locks, m.from, m.keyLocks, m.contextID, m.frame);
      CallTurns(env, s.execs[c], HandleCall(s, c, e).state.execs[c]);
    }
  }

  lemma WaitTaken(env: Env, s: State, a: string, c: int)
    requires c in s.execs && s.fault.None? && s.execs[c].message.typ == KEY_LOCK && s.execs[c].message.to == a
    ensures var h := HandleWait(s, c, s.execs[c]);
            h.state.fault.None? ==> TurnTaken(env, s, h.state, h.hint, a, c)
  {
    hide AcquireAll, Takes;
    var m := s.execs[c].message;
    if AcquireAll(s.locks, m.from, m.keyLocks, m.contextID, m.frame).granted {
      AcquireAllTakes(s.locks, m.from, m.keyLocks, m.contextID, m.frame);
    }
  }

  lemma ReturnTaken(env: Env, s: State, a: string, c: int)
    requires c in s.execs && s.fault.None? && !s.execs[c].moved && s.execs[c].message.to == a
    requires s.execs[c].message.typ in {FINISHED, REVERT}
    ensures var h := HandleReturn(env, s, c, s.execs[c]);
            h.state.fault.None? ==> TurnTaken(env, s, h.state, h.hint, a, c)
  {
    hide MakeReceipt, ReceiptWritten;
    var e := s.execs[c];
    var s1 := SetExec(s, c, e.(callStack := [], moved := true));
    if OnTxFinish(env, s1, e.message).fault.None? {
      FinishWrites(env, s1, e.message);
      SameReceipt(env, s, s1, OnTxFinish(env, s1, e.message), e.message);
    }
  }

  lemma SameReceipt(env: Env, s: State, s1: State, s': State, m: Message)
    requires s1.results == s.results && s1.gasUsed == s.gasUsed && s1.written == s.written
    requires ReceiptWritten(env, s1, s', m)
    ensures ReceiptWritten(env, s, s', m)
  {
    hide Describes;
  }

  /** handleExecutiveMessage raises an exception, or the message takes its turn. */
  lemma HandlingTakesTurn(env: Env, s: State, a: string, c: int)
    requires c in s.execs && s.fault.None? && !s.execs[c].moved
    ensures var h := HandleExecutiveMessage(env, s, a, c);
            h.state.fault.None? ==> TurnTaken(env, s, h.state, h.hint, a, c)
  {
    hide HandleCall, HandleReturn, HandleWait, TurnTaken;
    var e := s.execs[c];
    if Dest(env, e) != a {
      OutTaken(env, s, a, c);
    } else if e.message.typ in {MESSAGE, TXHASH, SEND_BACK} {
      CallTaken(env, s, a, c);
    } else if e.message.typ == KEY_LOCK {
      WaitTaken(env, s, a, c);
    } else {
      ReturnTaken(env, s, a, c);
    }
  }

  lemma OutTaken(env: Env, s: State, a: string, c: int)
    requires c in s.execs && !s.execs[c].moved && Dest(env, s.execs[c]) != a
    ensures TurnTaken(env, s, SetExec(s, c, HandleCreate(env, s.execs[c])), NEED_SCHEDULE_OUT, a, c)
  {}
}
