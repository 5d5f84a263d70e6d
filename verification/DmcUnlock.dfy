/** serialPrepareExecutor after its loop: locked contexts try their key again, and when nobody
    can be sent a deadlocked context is found and reverted. */
module DmcUnlock {
  import opened Ordering
  import opened LockGraph
  import opened Options
  import opened Dmc
  import opened DmcInvariant
  import opened DmcSerial
  import opened DmcPrepare
  import opened DmcPass

  /** No message waits to be handled. */
  ghost predicate Calm(pl: Places) {
    forall c :: c in pl ==> !Unhandled(pl[c])
  }

  ghost predicate SomeReady(pl: Places) {
    exists c :: c in pl && pl[c].Ready?
  }

  /** The context waits for a key that another context holds. */
  ghost predicate Stuck(g: Graph, c: int) {
    exists k, s :: Waits(g, c, k, s) && HeldByOther(g, k, c)
  }

  lemma ReadyPool(p: Pool, a: string, pl: Places, c: int)
    requires PoolOk(p, a, pl) && c in pl && pl[c] == Locked(a)
    ensures PoolOk(MarkAs(p, c, NEED_SEND), a, pl[c := Ready(a)])
  {
    var p', pl' := MarkAs(p, c, NEED_SEND), pl[c := Ready(a)];
    assert Leaving(p') == Leaving(p);
  }

  lemma ReadyKeepsPools(pools: map<string, Pool>, pl: Places, a: string, c: int)
    requires PoolsOk(pools, pl) && c in pl && pl[c] == Locked(a)
    ensures a in pools && PoolsOk(pools[a := MarkAs(pools[a], c, NEED_SEND)], pl[c := Ready(a)])
  {
    var pools', pl' := pools[a := MarkAs(pools[a], c, NEED_SEND)], pl[c := Ready(a)];
    ReadyPool(pools[a], a, pl, c);
    forall b | b in pools' ensures PoolOk(pools'[b], b, pl') {
      if b != a { OtherPool(pools[b], b, pl, c, Ready(a)); }
    }
  }

  /** In a calm state only the pools, the executives and the lock edges matter. */
  lemma CalmInv(env: Env, s: State, pl: Places)
    requires s.fault.None? && PoolsOk(s.pools, pl) && ExecsOk(env, s, pl) && Calm(pl)
    requires WellFormed(s.locks) && EdgesFollowStacks(s.locks, s.execs)
    requires ResultsOk(env, s.results, s.gasUsed, s.written, pl)
    ensures Inv(env, s, pl)
  {}

  lemma LockedFacts(env: Env, s: State, pl: Places, a: string, c: int)
    requires Inv(env, s, pl) && c in pl && pl[c] == Locked(a)
    ensures a in s.pools && c in s.pools[a].hasLocked && c in s.pools[a].pending && c in s.execs && s.fault.None?
    ensures ExecOk(env, s.execs[c], Locked(a), c)
  {
    assert PoolOk(s.pools[a], a, pl);
    assert ExecOk(env, s.execs[c], pl[c], c);
  }

  lemma KeysAgree(env: Env, s: State, pl: Places)
    requires Inv(env, s, pl)
    ensures s.execs.Keys == pl.Keys
  {}

  lemma AcquireFollows(g: Graph, execs: map<int, Executive>, k: KeyLock, c: int, frame: int)
    requires EdgesFollowStacks(g, execs) && c in execs && frame in execs[c].callStack
    ensures EdgesFollowStacks(Acquire(g, k, c, frame).graph, execs)
  {
    var g' := Acquire(g, k, c, frame).graph;
    forall e, d | e in g' && Touches(e, d) ensures d in execs && e.frame in execs[d].callStack {
      if e !in g { assert d == c && e.frame == frame; }
    }
  }

  /** The key a locked message waits for. */
  function Wanted(m: Message): (r: KeyLock) {
    KeyLock(m.from, m.keyLockAcquired)
  }

  /** A retry of the waiting message m of c: it gets its key unless another context holds it,
      and then waits for it no more; otherwise it waits. No other edge comes or goes. */
  ghost predicate Retried(g: Graph, g': Graph, m: Message, c: int, ready: bool) {
    var k := Wanted(m);
    && (ready <==> !HeldByOther(g, k, c))
    && (ready ==> Holds(g', k, c, m.frame) && forall f :: !Waits(g', c, k, f))
    && (!ready ==> Waits(g', c, k, m.frame))
    && (forall x :: x in g' && x !in g ==> x == RetryEdge(m, c, ready))
    && (forall x :: x in g && x !in g' ==> ready && x.source == Context(c) && x.target == Key(k))
  }

  function RetryEdge(m: Message, c: int, ready: bool): (r: Edge) {
    if ready then Edge(Key(Wanted(m)), Context(c), m.frame) else Edge(Context(c), Key(Wanted(m)), m.frame)
  }

  /** A turn of unlockPrepare from any state: the context retries, and is marked to be sent if
      it gets its key. */
  lemma UnlockOneRetries(s: State, a: string, c: int)
    requires s.fault.None? && c in PoolAt(s, a).pending && c in s.execs
    requires !s.execs[c].moved && s.execs[c].message.typ == KEY_LOCK
    ensures var s', m := UnlockOne(s, a, c), s.execs[c].message;
            var ready := !HeldByOther(s.locks, Wanted(m), c);
            && Retried(s.locks, s'.locks, m, c, ready)
            && s' == s.(pools := s'.pools, locks := s'.locks)
            && s'.pools == if ready then s.pools[a := MarkAs(PoolAt(s, a), c, NEED_SEND)] else s.pools
  {}

  /** A retry leads to a place for the context, and it changes only that and the lock graph. */
  lemma UnlockOneKeeps(env: Env, s: State, pl: Places, a: string, c: int) returns (place: Place)
    requires Inv(env, s, pl) && Calm(pl) && c in pl && pl[c] == Locked(a)
    ensures a in s.pools && c in s.execs && place in {Ready(a), Locked(a)}
    ensures var s' := UnlockOne(s, a, c);
            && Inv(env, s', pl[c := place]) && s' == s.(pools := s'.pools, locks := s'.locks)
            && s'.pools == (if place.Ready? then s.pools[a := MarkAs(s.pools[a], c, NEED_SEND)] else s.pools)
            && Retried(s.locks, s'.locks, s.execs[c].message, c, place.Ready?)
  {
    hide PoolsOk, ExecsOk, ResultsOk, GrantsOk, RoutesOk, EdgesFollowStacks, WellFormed, Retried, MarkAs;
    LockedFacts(env, s, pl, a, c);
    KeysAgree(env, s, pl);
    var m := s.execs[c].message;
    var k := KeyLock(m.from, m.keyLockAcquired);
    AcquireKeepsWellFormed(s.locks, k, c, m.frame);
    AcquireFollows(s.locks, s.execs, k, c, m.frame);
    UnlockOneRetries(s, a, c);
    var s' := UnlockOne(s, a, c);
    if !HeldByOther(s.locks, Wanted(m), c) {
      place := Ready(a);
      ReadyKeepsPools(s.pools, pl, a, c);
    } else {
      place := Locked(a);
      assert pl[c := place] == pl;
    }
    RehomedExecs(env, s, s', pl, c, place);
    FiledResults(env, s, pl, c, place);
    CalmInv(env, s', pl[c := place]);
  }

  // ----- unlockPrepare over the pools -----

  ghost predicate OnlyNeedSend(p: Pool, p': Pool) {
    p.needSend <= p'.needSend && p' == p.(needSend := p'.needSend)
  }

  /** The outcome of retrying the locked contexts in cs. */
  ghost predicate UnlockEffect(env: Env, s: State, pl: Places, cs: set<int>, s': State, pl': Places) {
    && Inv(env, s', pl') && Calm(pl') && s' == s.(pools := s'.pools, locks := s'.locks)
    && UnlockPlaces(pl, cs, pl')
    && s'.pools.Keys == s.pools.Keys && (forall b :: b in s.pools ==> OnlyNeedSend(s.pools[b], s'.pools[b]))
    && s.execs.Keys == pl.Keys
    && Answered(s, pl, cs, s'.locks, pl') && OnlyRetries(s, pl, cs, s'.locks, pl') && FirstCome(s, pl, cs, pl')
  }

  ghost predicate UnlockPlaces(pl: Places, cs: set<int>, pl': Places) {
    && pl'.Keys == pl.Keys
    && (forall c :: c in pl && c !in cs ==> pl'[c] == pl[c])
    && (forall c :: c in pl && c in cs ==> pl[c].Locked? && (pl'[c] == pl[c] || pl'[c] == Ready(pl[c].at)))
  }

  /** A context that is ready holds its key alone and does not wait for it; any other waits
      for a key that somebody else holds. */
  ghost predicate Answer(g: Graph, m: Message, c: int, ready: bool) {
    var k := Wanted(m);
    if ready then Holds(g, k, c, m.frame) && !HeldByOther(g, k, c) && forall f :: !Waits(g, c, k, f)
    else Waits(g, c, k, m.frame) && HeldByOther(g, k, c)
  }

  ghost predicate Answered(s: State, pl: Places, cs: set<int>, g': Graph, pl': Places)
    requires pl'.Keys == pl.Keys == s.execs.Keys
  {
    forall c :: c in cs && c in pl ==> Answer(g', s.execs[c].message, c, pl'[c].Ready?)
  }

  /** The edges that came are those of the retries, and those that went are requests for keys
      that were granted. */
  ghost predicate OnlyRetries(s: State, pl: Places, cs: set<int>, g': Graph, pl': Places)
    requires pl'.Keys == pl.Keys == s.execs.Keys
  {
    && (forall x :: x in g' && x !in s.locks ==>
          exists c :: c in cs && c in pl && x == RetryEdge(s.execs[c].message, c, pl'[c].Ready?))
    && (forall x :: x in s.locks && x !in g' ==>
          exists c :: c in cs && c in pl && pl'[c].Ready? && x.source == Context(c)
                      && x.target == Key(Wanted(s.execs[c].message)))
  }

  ghost predicate Precedes(pl: Places, d: int, c: int)
    requires d in pl && c in pl
  {
    pl[d].Locked? && pl[c].Locked? && Ahead(pl[d].at, d, pl[c].at, c)
  }

  /** The DMC lock priority: a context gets its key if nobody else held it before and no
      context ahead of it gets the same key. */
  ghost predicate FirstCome(s: State, pl: Places, cs: set<int>, pl': Places)
    requires pl'.Keys == pl.Keys == s.execs.Keys
  {
    forall c :: c in cs && c in pl ==>
      var k := Wanted(s.execs[c].message);
      (pl'[c].Ready? <==>
        && !HeldByOther(s.locks, k, c)
        && forall d :: d in cs && d in pl && Wanted(s.execs[d].message) == k && Precedes(pl, d, c) ==> !pl'[d].Ready?)
  }

  lemma AnsweredStep(s: State, pl: Places, cs: set<int>, g1: Graph, pl1: Places, c: int, g2: Graph, place: Place)
    requires pl1.Keys == pl.Keys == s.execs.Keys && Answered(s, pl, cs, g1, pl1) && c in pl && c !in cs
    requires Retried(g1, g2, s.execs[c].message, c, place.Ready?)
    ensures pl1[c := place].Keys == pl.Keys && Answered(s, pl, cs + {c}, g2, pl1[c := place])
  {
    var pl2 := pl1[c := place];
    assert pl2.Keys == pl.Keys;
    forall d | d in cs + {c} && d in pl ensures Answer(g2, s.execs[d].message, d, pl2[d].Ready?) {
      if d != c { AnswerStays(g1, g2, s.execs[d].message, d, pl1[d].Ready?, s.execs[c].message, c, place.Ready?); }
      else { OwnAnswer(g1, g2, s.execs[c].message, c, place.Ready?); }
    }
  }

  lemma OwnAnswer(g1: Graph, g2: Graph, m: Message, c: int, ready: bool)
    requires Retried(g1, g2, m, c, ready)
    ensures Answer(g2, m, c, ready)
  {
    var k := Wanted(m);
    if !ready {
      var x :| x in g1 && x.source == Key(k) && x.target != Context(c);
      assert x in g2;
    } else {
      forall x | x in g2 && x.source == Key(k) ensures x.target == Context(c) {
        assert x in g1 ==> x.target == Context(c);
      }
    }
  }

  /** The retry of another context does not change the answer of d. */
  lemma AnswerStays(g1: Graph, g2: Graph, m: Message, d: int, ready: bool, n: Message, c: int, ready': bool)
    requires Retried(g1, g2, n, c, ready') && d != c && Answer(g1, m, d, ready)
    ensures Answer(g2, m, d, ready)
  {
    var k := Wanted(m);
    if ready {
      var held := Edge(Key(k), Context(d), m.frame);
      assert held in g1 && held in g2;
      forall f ensures !Waits(g2, d, k, f) {
        assert !Waits(g1, d, k, f);
      }
      assert HeldByOther(g1, k, c);
      forall x | x in g2 && x.source == Key(k) ensures x.target == Context(d) {
        assert x in g1 ==> x.target == Context(d);
      }
    } else {
      var x :| x in g1 && x.source == Key(k) && x.target != Context(d);
      assert x in g2;
    }
  }

  lemma OnlyRetriesStep(s: State, pl: Places, cs: set<int>, g1: Graph, pl1: Places, c: int, g2: Graph, place: Place)
    requires pl1.Keys == pl.Keys == s.execs.Keys && OnlyRetries(s, pl, cs, g1, pl1) && c in pl && c !in cs
    requires Retried(g1, g2, s.execs[c].message, c, place.Ready?)
    ensures pl1[c := place].Keys == pl.Keys && OnlyRetries(s, pl, cs + {c}, g2, pl1[c := place])
  {
    var pl2, cs2 := pl1[c := place], cs + {c};
    assert pl2.Keys == pl.Keys;
    forall x | x in g2 && x !in s.locks
      ensures exists d :: d in cs2 && d in pl && x == RetryEdge(s.execs[d].message, d, pl2[d].Ready?)
    {
      if x in g1 {
        var d :| d in cs && d in pl && x == RetryEdge(s.execs[d].message, d, pl1[d].Ready?);
        assert d in cs2 && x == RetryEdge(s.execs[d].message, d, pl2[d].Ready?);
      } else {
        assert c in cs2 && x == RetryEdge(s.execs[c].message, c, pl2[c].Ready?);
      }
    }
    forall x | x in s.locks && x !in g2
      ensures exists d :: d in cs2 && d in pl && pl2[d].Ready? && x.source == Context(d)
                          && x.target == Key(Wanted(s.execs[d].message))
    {
      if x in g1 {
        assert c in cs2 && pl2[c].Ready?;
      } else {
        var d :| d in cs && d in pl && pl1[d].Ready? && x.source == Context(d)
                 && x.target == Key(Wanted(s.execs[d].message));
        assert d in cs2 && pl2[d].Ready?;
      }
    }
  }

  /** When c is retried, its key is held by another context if it was before the retries or if
      one of the contexts ahead got it. */
  lemma TakenMeanwhile(s: State, pl: Places, cs: set<int>, g1: Graph, pl1: Places, k: KeyLock, c: int)
    requires pl1.Keys == pl.Keys == s.execs.Keys && c in pl && c !in cs
    requires Answered(s, pl, cs, g1, pl1) && OnlyRetries(s, pl, cs, g1, pl1)
    ensures HeldByOther(g1, k, c) <==>
              HeldByOther(s.locks, k, c)
              || exists d :: d in cs && d in pl && Wanted(s.execs[d].message) == k && pl1[d].Ready?
  {
    if x :| x in g1 && x.source == Key(k) && x.target != Context(c) {
      if x !in s.locks {
        var d :| d in cs && d in pl && x == RetryEdge(s.execs[d].message, d, pl1[d].Ready?);
        assert Wanted(s.execs[d].message) == k && pl1[d].Ready?;
      }
    }
    if x :| x in s.locks && x.source == Key(k) && x.target != Context(c) {
      assert x in g1;
    }
    if d :| d in cs && d in pl && Wanted(s.execs[d].message) == k && pl1[d].Ready? {
      assert Holds(g1, k, d, s.execs[d].message.frame);
      assert Edge(Key(k), Context(d), s.execs[d].message.frame) in g1;
    }
  }

  lemma FirstComeStep(s: State, pl: Places, cs: set<int>, g1: Graph, pl1: Places, c: int, g2: Graph, place: Place)
    requires pl1.Keys == pl.Keys == s.execs.Keys && FirstCome(s, pl, cs, pl1)
    requires c in pl && c !in cs && pl[c].Locked?
    requires Answered(s, pl, cs, g1, pl1) && OnlyRetries(s, pl, cs, g1, pl1)
    requires Retried(g1, g2, s.execs[c].message, c, place.Ready?)
    requires forall d :: d in cs && d in pl ==> Precedes(pl, d, c)
    ensures pl1[c := place].Keys == pl.Keys && FirstCome(s, pl, cs + {c}, pl1[c := place])
  {
    hide Wanted, HeldByOther, Answered, OnlyRetries, Below;
    var pl2, cs2 := pl1[c := place], cs + {c};
    assert pl2.Keys == pl.Keys;
    TakenMeanwhile(s, pl, cs, g1, pl1, Wanted(s.execs[c].message), c);
    forall d | d in cs && d in pl ensures !Precedes(pl, c, d) {
      assert Precedes(pl, d, c);
      if Below(pl[d].at, pl[c].at) { BelowAsymmetric(pl[d].at, pl[c].at); } else { BelowIrreflexive(pl[c].at); }
    }
    BelowIrreflexive(pl[c].at);
    forall d | d in cs2 && d in pl
      ensures var k := Wanted(s.execs[d].message);
              (pl2[d].Ready? <==>
                && !HeldByOther(s.locks, k, d)
                && forall e :: e in cs2 && e in pl && Wanted(s.execs[e].message) == k && Precedes(pl, e, d)
                     ==> !pl2[e].Ready?)
    {
      if d != c {
        assert forall e :: e in cs2 && e in pl && Precedes(pl, e, d) ==> e in cs;
      }
    }
  }

  lemma UnlockPlacesStep(pl: Places, cs: set<int>, pl1: Places, a: string, c: int, place: Place)
    requires UnlockPlaces(pl, cs, pl1) && c in pl && pl[c] == Locked(a) && c !in cs && place in {Ready(a), Locked(a)}
    ensures UnlockPlaces(pl, cs + {c}, pl1[c := place])
  {
    assert pl1[c := place].Keys == pl1.Keys;
  }

  lemma UnlockStep(env: Env, s: State, pl: Places, cs: set<int>, s1: State, pl1: Places, a: string, c: int)
      returns (pl': Places)
    requires UnlockEffect(env, s, pl, cs, s1, pl1) && c in pl && c !in cs && pl[c] == Locked(a)
    requires forall d :: d in cs && d in pl ==> Precedes(pl, d, c)
    ensures UnlockEffect(env, s, pl, cs + {c}, UnlockOne(s1, a, c), pl')
  {
    hide Inv, UnlockOne, Retried, Answered, OnlyRetries, FirstCome, Precedes;
    var place := UnlockOneKeeps(env, s1, pl1, a, c);
    pl' := pl1[c := place];
    UnlockPlacesStep(pl, cs, pl1, a, c, place);
    var s2 := UnlockOne(s1, a, c);
    AnsweredStep(s, pl, cs, s1.locks, pl1, c, s2.locks, place);
    OnlyRetriesStep(s, pl, cs, s1.locks, pl1, c, s2.locks, place);
    FirstComeStep(s, pl, cs, s1.locks, pl1, c, s2.locks, place);
  }

  lemma LowerIdsPrecede(pl: Places, a: string, init: seq<int>, c: int)
    requires StrictlyIncreasing(init + [c])
    requires forall d :: d in init + [c] ==> d in pl && pl[d] == Locked(a)
    ensures c in pl && c !in init && forall d :: d in init ==> d in pl && Precedes(pl, d, c)
  {
    var xs := init + [c];
    assert xs[|init|] == c;
    forall d | d in init ensures d in pl && d < c && Precedes(pl, d, c) {
      var i :| 0 <= i < |init| && init[i] == d;
      assert xs[i] == d && d in xs && c in xs;
    }
  }

  lemma WithOneMore(cs: set<int>, init: seq<int>, c: int)
    ensures cs + (set x | x in init) + {c} == cs + (set x | x in init + [c])
    ensures forall x :: x in init + [c] <==> x in init || x == c
    ensures forall x :: x in cs + (set x | x in init) <==> x in cs || x in init
  {
    var a, b := cs + (set x | x in init) + {c}, cs + (set x | x in init + [c]);
    forall x ensures x in a <==> x in b {
      assert x in init + [c] <==> x in init || x == c;
    }
  }

  lemma LowerPoolsPrecede(pl: Places, init: seq<string>, a: string, c: int)
    requires forall b :: b in init ==> Below(b, a)
    requires c in pl && pl[c] == Locked(a)
    ensures forall d :: d in LockedIn(pl, init) ==> d in pl && Precedes(pl, d, c)
  {}

  lemma {:induction false} UnlockEachKeeps(env: Env, s: State, pl: Places, cs: set<int>, s1: State, pl1: Places,
                                           a: string, xs: seq<int>) returns (pl': Places)
    requires UnlockEffect(env, s, pl, cs, s1, pl1) && StrictlyIncreasing(xs)
    requires forall c :: c in xs ==> c in pl && c !in cs && pl[c] == Locked(a)
    requires forall d, c :: d in cs && d in pl && c in xs ==> Precedes(pl, d, c)
    ensures UnlockEffect(env, s, pl, cs + (set c | c in xs), UnlockEach(s1, a, xs), pl')
    decreases |xs|
  {
    hide UnlockEffect, UnlockOne, Precedes;
    if xs == [] {
      assert cs + (set c | c in xs) == cs;
      pl' := pl1;
    } else {
      var init, c := xs[..|xs| - 1], xs[|xs| - 1];
      assert xs == init + [c];
      WithOneMore(cs, init, c);
      LowerIdsPrecede(pl, a, init, c);
      var pl2 := UnlockEachKeeps(env, s, pl, cs, s1, pl1, a, init);
      pl' := UnlockStep(env, s, pl, cs + (set x | x in init), UnlockEach(s1, a, init), pl2, a, c);
    }
  }

  /** The locked contexts of some of the pools. */
  ghost function LockedIn(pl: Places, addresses: seq<string>): (r: set<int>) {
    set c | c in pl && pl[c].Locked? && pl[c].at in addresses
  }

  /** In a settled pool the locked set holds exactly the locked contexts. */
  lemma LockedSetIsClean(env: Env, s: State, pl: Places, cs: set<int>, s1: State, pl1: Places, a: string)
    requires Inv(env, s, pl) && Calm(pl) && a in s.pools && Settled(s.pools[a]) && UnlockEffect(env, s, pl, cs, s1, pl1)
    ensures forall c :: c in s1.pools[a].hasLocked <==> c in pl && pl[c] == Locked(a)
    ensures Finished(s1.pools[a]) ==> s1.pools[a].hasLocked == {}
  {
    hide ExecsOk, RoutesOk, GrantsOk, ResultsOk, EdgesFollowStacks, UnlockPlaces, Answered, OnlyRetries, FirstCome;
    assert PoolOk(s.pools[a], a, pl);
    assert OnlyNeedSend(s.pools[a], s1.pools[a]);
    assert Leaving(s.pools[a]) == {};
  }

  lemma UnlockNothing(env: Env, s: State, pl: Places)
    requires Inv(env, s, pl) && Calm(pl)
    ensures UnlockEffect(env, s, pl, {}, s, pl)
  {}

  lemma LockedInOneMore(pl: Places, init: seq<string>, a: string, xs: seq<int>)
    requires forall c :: c in xs <==> c in pl && pl[c] == Locked(a)
    ensures LockedIn(pl, init + [a]) == LockedIn(pl, init) + (set c | c in xs)
  {
    assert forall b :: b in init + [a] <==> b in init || b == a;
    assert forall c :: c in xs <==> c in pl && pl[c].Locked? && pl[c].at == a;
  }

  lemma LastIsAbove(init: seq<string>, a: string)
    requires StrictlyAscending(init + [a])
    ensures StrictlyAscending(init) && a !in init && forall b :: b in init ==> Below(b, a)
  {
    var xs := init + [a];
    assert xs[|init|] == a;
    BelowIrreflexive(a);
    forall b | b in init ensures Below(b, a) {
      var i :| 0 <= i < |init| && init[i] == b;
      assert xs[i] == b;
    }
    forall i, j | 0 <= i < j < |init| ensures Below(init[i], init[j]) {
      assert xs[i] == init[i] && xs[j] == init[j];
    }
  }

  lemma {:induction false} UnlockAllKeeps(env: Env, s: State, pl: Places, addresses: seq<string>) returns (pl': Places)
    requires Inv(env, s, pl) && Calm(pl) && StrictlyAscending(addresses)
    requires forall a :: a in addresses ==> a in s.pools && Settled(s.pools[a])
    ensures UnlockEffect(env, s, pl, LockedIn(pl, addresses), UnlockAll(s, addresses), pl')
    decreases |addresses|
  {
    hide Inv, UnlockEffect, UnlockEach, Settled, Below, Precedes;
    if addresses == [] {
      UnlockNothing(env, s, pl);
      assert LockedIn(pl, addresses) == {};
      pl' := pl;
    } else {
      var init, a := addresses[..|addresses| - 1], addresses[|addresses| - 1];
      assert addresses == init + [a];
      assert forall b :: b in addresses <==> b in init || b == a;
      LastIsAbove(init, a);
      var pl1 := UnlockAllKeeps(env, s, pl, init);
      var s1 := UnlockAll(s, init);
      LockedSetIsClean(env, s, pl, LockedIn(pl, init), s1, pl1, a);
      UnlockPools(env, s, pl, LockedIn(pl, init), s1, pl1);
      var xs := SortInts(s1.pools[a].hasLocked);
      LockedInOneMore(pl, init, a, xs);
      if Finished(s1.pools[a]) {
        pl' := pl1;
        assert LockedIn(pl, init) + (set c | c in xs) == LockedIn(pl, init);
      } else {
        forall c | c in xs ensures forall d :: d in LockedIn(pl, init) ==> d in pl && Precedes(pl, d, c) {
          LowerPoolsPrecede(pl, init, a, c);
        }
        pl' := UnlockEachKeeps(env, s, pl, LockedIn(pl, init), s1, pl1, a, xs);
      }
    }
  }

  lemma UnlockPools(env: Env, s: State, pl: Places, cs: set<int>, s1: State, pl1: Places)
    requires UnlockEffect(env, s, pl, cs, s1, pl1)
    ensures s1.pools.Keys == s.pools.Keys
  {}
}
