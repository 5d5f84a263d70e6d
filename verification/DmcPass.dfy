/** The do-while loop of serialPrepareExecutor: it keeps the invariant, ends after at most two
    turns, and leaves every unfinished context in one pool, to be sent or locked. */
module DmcPass {
  import opened Ordering
  import opened LockGraph
  import opened Options
  import opened Dmc
  import opened DmcInvariant
  import opened DmcTurns
  import opened DmcSerial
  import opened DmcPrepare

  // ----- releaseOutdatedLock -----

  /** The edge belongs to a frame that one of the contexts returns from. */
  ghost predicate Outdated(s: State, cs: set<int>, x: Edge) {
    exists c :: c in cs && c in s.execs && Touches(x, c) && s.execs[c].message.typ in {FINISHED, REVERT}
                && x.frame == s.execs[c].message.frame
  }

  /** Dropping edges of the lock graph keeps the invariant. */
  lemma FewerLocks(env: Env, s: State, pl: Places, g': Graph)
    requires Inv(env, s, pl) && g' <= s.locks
    ensures Inv(env, s.(locks := g'), pl)
  {
    var s' := s.(locks := g');
    assert WellFormed(g');
    forall c | c in pl && Unhandled(pl[c]) ensures Grantable(g', s'.execs[c].message, c) {
      assert Grantable(s.locks, s.execs[c].message, c);
    }
    forall c | c in pl ensures RouteOk(env, s', pl, c) {
      assert RouteOk(env, s, pl, c);
    }
    forall c, d | c in pl && d in pl && c != d && Unhandled(pl[c]) && Unhandled(pl[d])
      ensures Claims(s'.execs[c].message) !! Claims(s'.execs[d].message)
    {
      assert Claims(s.execs[c].message) !! Claims(s.execs[d].message);
    }
  }

  /** The outcome of releasing some of the waiting contexts. */
  ghost predicate ReleaseEffect(env: Env, s: State, pl: Places, cs: set<int>, s': State) {
    && Inv(env, s', pl) && s' == s.(locks := s'.locks)
    && s.execs.Keys == pl.Keys
    && forall x :: x in s'.locks <==> x in s.locks && !Outdated(s, cs, x)
  }

  lemma OutdatedStep(s: State, cs: set<int>, c: int)
    requires c in s.execs
    ensures forall x :: Outdated(s, cs + {c}, x) <==> Outdated(s, cs, x) || Outdated(s, {c}, x)
  {
    forall x ensures Outdated(s, cs + {c}, x) <==> Outdated(s, cs, x) || Outdated(s, {c}, x) {
      if Outdated(s, cs, x) {
        var d :| d in cs && d in s.execs && Touches(x, d) && s.execs[d].message.typ in {FINISHED, REVERT}
                 && x.frame == s.execs[d].message.frame;
        assert d in cs + {c};
      }
      if Outdated(s, {c}, x) { assert c in cs + {c}; }
    }
  }

  lemma PrepIsThere(env: Env, s: State, pl: Places, a: string, c: int)
    requires Inv(env, s, pl) && c in pl && pl[c] == Prep(a)
    ensures c in s.execs && !s.execs[c].moved && s.execs[c].message.contextID == c
  {
    hide Inv, Grantable, Busy, RouteOk;
    AboutToHandle(env, s, pl, a, c);
  }

  lemma ReleaseStep(env: Env, s: State, pl: Places, cs: set<int>, s1: State, a: string, c: int)
    requires ReleaseEffect(env, s, pl, cs, s1) && c in pl && pl[c] == Prep(a)
    ensures ReleaseEffect(env, s, pl, cs + {c}, ReleaseOne(s1, a, c))
  {
    hide Inv, ExecOk, RouteOk, Grantable, Busy, WellFormed, EdgesFollowStacks;
    AboutToHandle(env, s1, pl, a, c);
    PrepIsThere(env, s1, pl, a, c);
    var s2 := ReleaseOne(s1, a, c);
    assert s2 == s1.(locks := s2.locks);
    FewerLocks(env, s1, pl, s2.locks);
    OutdatedStep(s, cs, c);
  }

  lemma {:induction false} ReleaseEachKeeps(env: Env, s: State, pl: Places, cs: set<int>, s1: State, a: string,
                                            xs: seq<int>)
    requires ReleaseEffect(env, s, pl, cs, s1) && forall c :: c in xs ==> c in pl && pl[c] == Prep(a)
    ensures ReleaseEffect(env, s, pl, cs + (set c | c in xs), ReleaseEach(s1, a, xs))
    decreases |xs|
  {
    hide ReleaseEffect, ReleaseOne;
    if xs == [] {
      assert cs + (set c | c in xs) == cs;
    } else {
      var init, c := xs[..|xs| - 1], xs[|xs| - 1];
      assert xs == init + [c];
      ReleaseEachKeeps(env, s, pl, cs, s1, a, init);
      ReleaseStep(env, s, pl, cs + (set x | x in init), ReleaseEach(s1, a, init), a, c);
      assert cs + (set x | x in init) + {c} == cs + (set x | x in xs);
    }
  }

  /** The contexts that some pool still has to prepare. */
  ghost function Unprepared(s: State): (r: set<int>) {
    set a, c | a in s.pools && c in s.pools[a].needPrepare :: c
  }

  /** The contexts waiting to be prepared in some of the pools. */
  ghost function Waiting(pl: Places, addresses: seq<string>): (r: set<int>) {
    set c | c in pl && pl[c].Prep? && pl[c].at in addresses
  }

  lemma ReleasedWaiting(env: Env, s: State, pl: Places, cs: set<int>, s1: State, a: string)
    requires ReleaseEffect(env, s, pl, cs, s1) && a in s.pools
    ensures forall c :: c in PoolAt(s1, a).needPrepare <==> c in pl && pl[c] == Prep(a)
  {
    assert PoolOk(s1.pools[a], a, pl);
  }

  lemma ReleaseNothing(env: Env, s: State, pl: Places)
    requires Inv(env, s, pl)
    ensures ReleaseEffect(env, s, pl, {}, s)
  {
    assert s.(locks := s.locks) == s;
  }

  lemma {:induction false} ReleaseAllKeeps(env: Env, s: State, pl: Places, addresses: seq<string>)
    requires Inv(env, s, pl) && forall a :: a in addresses ==> a in s.pools
    ensures ReleaseEffect(env, s, pl, Waiting(pl, addresses), ReleaseAll(s, addresses))
    decreases |addresses|
  {
    hide Inv, ReleaseEffect, ReleaseEach;
    if addresses == [] {
      ReleaseNothing(env, s, pl);
      assert Waiting(pl, addresses) == {};
    } else {
      var init, a := addresses[..|addresses| - 1], addresses[|addresses| - 1];
      assert addresses == init + [a];
      ReleaseAllKeeps(env, s, pl, init);
      var s1 := ReleaseAll(s, init);
      ReleasedWaiting(env, s, pl, Waiting(pl, init), s1, a);
      var xs := SortInts(PoolAt(s1, a).needPrepare);
      ReleaseEachKeeps(env, s, pl, Waiting(pl, init), s1, a, xs);
      assert forall b :: b in addresses <==> b in init || b == a;
      assert forall c :: c in xs <==> c in pl && pl[c].Prep? && pl[c].at == a;
      assert Waiting(pl, init) + (set c | c in xs) == Waiting(pl, addresses);
    }
  }

  /** releaseOutdatedLock on every executor drops exactly the edges of the frames that the
      unprepared messages return from. */
  lemma ReleaseAllReleases(env: Env, s: State, pl: Places)
    requires Inv(env, s, pl) && NoTransit(pl)
    ensures var s' := ReleaseAll(s, SortStrings(s.pools.Keys));
            && Inv(env, s', pl) && s'.execs.Keys == pl.Keys && Released(s', pl)
            && s' == s.(locks := s'.locks)
            && (forall x :: x in s'.locks <==> x in s.locks && !Outdated(s, Unprepared(s), x))
            && Progress(env, s, pl, s', pl)
  {
    hide Inv, Progress, ReleaseAll;
    var addresses := SortStrings(s.pools.Keys);
    UnpreparedIsWaiting(env, s, pl);
    ReleaseAllKeeps(env, s, pl, addresses);
    var s' := ReleaseAll(s, addresses);
    LocksFacts(env, s, pl);
    ReleaseProgress(env, s, pl, s');
    LocksFacts(env, s', pl);
    forall c, e | c in pl && Unhandled(pl[c]) && s'.execs[c].message.typ in {FINISHED, REVERT} && e in s'.locks
        && Touches(e, c)
      ensures e.frame != s'.execs[c].message.frame
    {
      assert c in Unprepared(s);
    }
  }

  lemma LocksFacts(env: Env, s: State, pl: Places)
    requires Inv(env, s, pl)
    ensures WellFormed(s.locks) && s.execs.Keys == pl.Keys
  {}

  lemma ReleaseProgress(env: Env, s: State, pl: Places, s': State)
    requires WellFormed(s.locks) && s.execs.Keys == pl.Keys && s'.execs == s.execs
    requires forall c :: c in Unprepared(s) ==> c in pl && pl[c].Prep?
    requires forall x :: x in s'.locks <==> x in s.locks && !Outdated(s, Unprepared(s), x)
    ensures Progress(env, s, pl, s', pl)
  {
    forall c | c in pl && !Unhandled(pl[c]) ensures KeepsEdges(s.locks, s'.locks, c) {
      forall x | x in s.locks && Touches(x, c) ensures x in s'.locks {
        assert !Outdated(s, Unprepared(s), x);
      }
    }
  }

  lemma UnpreparedIsWaiting(env: Env, s: State, pl: Places)
    requires Inv(env, s, pl) && NoTransit(pl)
    ensures Unprepared(s) == Waiting(pl, SortStrings(s.pools.Keys))
    ensures forall c :: c in Unprepared(s) <==> c in pl && Unhandled(pl[c])
  {
    hide ExecsOk, RoutesOk, GrantsOk, ResultsOk, EdgesFollowStacks, WellFormed;
    forall c ensures c in Unprepared(s) <==> c in pl && Unhandled(pl[c]) {
      if c in Unprepared(s) {
        var a :| a in s.pools && c in s.pools[a].needPrepare;
        assert PoolOk(s.pools[a], a, pl);
      }
      if c in pl && Unhandled(pl[c]) {
        var a := pl[c].at;
        assert PoolOk(s.pools[a], a, pl);
        assert c in s.pools[a].needPrepare;
      }
    }
    forall c | c in pl && Unhandled(pl[c]) ensures pl[c].at in SortStrings(s.pools.Keys) {
      assert pl[c].at in s.pools.Keys;
    }
  }

  // ----- one turn of the loop -----

  /** The contexts that wait in a pool other than that of their destination. */
  ghost function MisplacedSet(env: Env, s: State): (r: set<int>) {
    set c | c in s.execs && exists a :: a in s.pools && c in s.pools[a].needPrepare && Dest(env, s.execs[c]) != a
  }

  /** Contexts outside the pools still to be prepared are at their destination. */
  ghost predicate AtHome(env: Env, s: State, pl: Places, rest: seq<string>) {
    s.execs.Keys == pl.Keys && forall c :: c in pl && pl[c].Prep? && pl[c].at !in rest ==>
                                 Dest(env, s.execs[c]) == pl[c].at
  }

  /** Without departures only the prepared pools have changed, and they are settled. */
  ghost predicate Quiet(s: State, prepared: seq<string>, s': State) {
    && s'.pools.Keys == s.pools.Keys
    && forall b :: b in s.pools ==> if b in prepared then Settled(s'.pools[b]) else s'.pools[b] == s.pools[b]
  }

  /** The outcome of preparing a prefix of the executors. */
  ghost predicate PassEffect(env: Env, s: State, pl: Places, prepared: seq<string>, rest: seq<string>,
                             r: Prepared, pl': Places) {
    && Inv(env, r.state, pl') && NoTransit(pl') && r.state.execs.Keys == pl'.Keys && Released(r.state, pl')
    && Progress(env, s, pl, r.state, pl')
    && s.pools.Keys <= r.state.pools.Keys
    && AtHome(env, r.state, pl', rest)
    && (!r.scheduledOut ==> Quiet(s, prepared, r.state))
    && (AtHome(env, s, pl, []) ==> !r.scheduledOut && AtHome(env, r.state, pl', []))
  }

  lemma AtHomeStep(env: Env, s: State, pl: Places, a: string, rest: seq<string>, r: Prepared, pl': Places)
    requires AtHome(env, s, pl, [a] + rest) && PlacesEffect(env, s, pl, a, r, pl')
    ensures AtHome(env, r.state, pl', rest)
    ensures AtHome(env, s, pl, []) ==> !r.scheduledOut && AtHome(env, r.state, pl', [])
  {
    hide Dest;
    assert forall b :: b in [a] + rest <==> b == a || b in rest;
  }

  lemma QuietStep(s: State, s1: State, prepared: seq<string>, a: string, r: Prepared)
    requires Quiet(s, prepared, s1) && a in s.pools && PoolsEffect(s1, a, r) && !r.scheduledOut
    ensures Quiet(s, prepared + [a], r.state)
  {
    assert forall b :: b in prepared + [a] <==> b in prepared || b == a;
  }

  lemma {:induction false} PrepareAllKeeps(env: Env, s: State, pl: Places, prepared: seq<string>, rest: seq<string>)
    returns (pl': Places)
    requires Inv(env, s, pl) && s.execs.Keys == pl.Keys && Released(s, pl) && NoTransit(pl)
    requires AtHome(env, s, pl, prepared + rest)
    requires forall a :: a in prepared + rest ==> a in s.pools
    ensures PassEffect(env, s, pl, prepared, rest, PrepareAll(env, s, prepared), pl')
    decreases |prepared|
  {
    hide Inv, Released, Prepare, AtHome, Quiet, Progress;
    if prepared == [] {
      assert [] + rest == rest;
      PassNothing(env, s, pl, rest);
      pl' := pl;
    } else {
      var init, a := prepared[..|prepared| - 1], prepared[|prepared| - 1];
      assert prepared + rest == init + ([a] + rest);
      var pl1 := PrepareAllKeeps(env, s, pl, init, [a] + rest);
      var before := PrepareAll(env, s, init);
      assert a in prepared + rest;
      pl' := PrepareKeeps(env, before.state, pl1, a);
      var r := Prepare(env, before.state, a);
      ProgressOn(env, s, pl, before.state, pl1, r.state, pl');
      AtHomeStep(env, before.state, pl1, a, rest, r, pl');
      if !before.scheduledOut && !r.scheduledOut {
        QuietStep(s, before.state, init, a, r);
        assert prepared == init + [a];
      }
    }
  }

  lemma PassNothing(env: Env, s: State, pl: Places, rest: seq<string>)
    requires Inv(env, s, pl) && s.execs.Keys == pl.Keys && Released(s, pl) && NoTransit(pl) && AtHome(env, s, pl, rest)
    ensures PassEffect(env, s, pl, [], rest, Prepared(s, false), pl)
  {
    hide Inv, Released, AtHome;
    NoProgress(env, s, pl, s, pl);
  }

  /** One turn of the do-while loop. */
  lemma PassKeeps(env: Env, s: State, pl: Places) returns (pl': Places)
    requires Inv(env, s, pl) && NoTransit(pl)
    ensures var r := Pass(env, s);
            && Inv(env, r.state, pl') && NoTransit(pl') && Progress(env, s, pl, r.state, pl')
            && AtHome(env, r.state, pl', [])
            && (AtHome(env, s, pl, []) ==> !r.scheduledOut)
            && (!r.scheduledOut ==> forall a :: a in r.state.pools ==> Settled(r.state.pools[a]))
  {
    hide Inv, Released, PrepareAll, ReleaseAll, Progress;
    var addresses := SortStrings(s.pools.Keys);
    ReleaseAllReleases(env, s, pl);
    var s1 := ReleaseAll(s, addresses);
    EverywhereAtHome(env, s1, pl, addresses);
    assert addresses + [] == addresses;
    pl' := PrepareAllKeeps(env, s1, pl, addresses, []);
    ProgressOn(env, s, pl, s1, pl, Pass(env, s).state, pl');
  }

  lemma EverywhereAtHome(env: Env, s: State, pl: Places, addresses: seq<string>)
    requires Inv(env, s, pl) && forall a :: a in s.pools ==> a in addresses
    ensures AtHome(env, s, pl, addresses)
  {}
}
