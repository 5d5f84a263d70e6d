/** One turn of the do-while loop of serialPrepareExecutor: every pool is released, prepared
    and its departing messages routed. */
module DmcPrepare {
  import opened Ordering
  import opened LockGraph
  import opened Options
  import opened Dmc
  import opened DmcInvariant
  import opened DmcTurns
  import opened DmcSerial

  // ----- the first loop of prepare -----

  /** What one handled message leaves alone. */
  ghost predicate OnlyTouches(s: State, s': State, a: string, c: int) {
    && s'.pools.Keys == s.pools.Keys && (forall b :: b in s.pools && b != a ==> s'.pools[b] == s.pools[b])
    && s'.execs.Keys == s.execs.Keys && (forall d :: d in s.execs && d != c ==> s'.execs[d] == s.execs[d])
  }

  /** Handling a message of c changes no pool and no other executive. */
  ghost predicate TouchesOne(s: State, h: Handled, c: int) {
    && h.state.pools == s.pools && h.state.execs.Keys == s.execs.Keys + {c}
    && (forall d :: d in s.execs && d != c ==> h.state.execs[d] == s.execs[d])
    && h.hint in {NEED_SEND, LOCKED, END}
  }

  lemma CallTouches(s: State, c: int, e: Executive)
    ensures TouchesOne(s, HandleCall(s, c, e), c)
  {
    hide AcquireAll;
  }

  lemma ReturnTouches(env: Env, s: State, c: int, e: Executive)
    ensures TouchesOne(s, HandleReturn(env, s, c, e), c)
  {
    hide MakeReceipt;
  }

  lemma WaitTouches(s: State, c: int, e: Executive)
    ensures TouchesOne(s, HandleWait(s, c, e), c)
  {
    hide AcquireAll;
  }

  lemma HandleTouches(env: Env, s: State, a: string, c: int)
    requires c in s.execs
    ensures var h := HandleExecutiveMessage(env, s, a, c);
            && h.state.pools == s.pools && h.state.execs.Keys == s.execs.Keys
            && (forall d :: d in s.execs && d != c ==> h.state.execs[d] == s.execs[d])
            && h.hint != NEED_PREPARE
            && (!s.execs[c].moved ==> (h.hint == NEED_SCHEDULE_OUT <==> Dest(env, s.execs[c]) != a))
            && (h.hint == NEED_SCHEDULE_OUT ==> h.state.execs[c] == HandleCreate(env, s.execs[c]))
  {
    hide HandleCall, HandleReturn, HandleWait, HandleCreate;
    var e := HandleCreate(env, s.execs[c]);
    CallTouches(s, c, e);
    ReturnTouches(env, s, c, e);
    WaitTouches(s, c, e);
    assert s.execs.Keys + {c} == s.execs.Keys;
  }

  /** What one turn of the first loop of prepare changes. */
  lemma PrepareOneTouches(env: Env, s: State, a: string, c: int)
    requires a in s.pools && c in s.execs && c in s.pools[a].pending && s.fault.None? && !s.execs[c].moved
    ensures var s' := PrepareOne(env, s, a, c);
            && OnlyTouches(s, s', a, c)
            && s'.pools[a].needPrepare == s.pools[a].needPrepare - {c}
            && s'.pools[a].needScheduleOut
               == s.pools[a].needScheduleOut + (if Dest(env, s.execs[c]) != a then {c} else {})
            && (Dest(env, s.execs[c]) != a ==> s'.execs[c] == HandleCreate(env, s.execs[c]))
  {
    HandleTouches(env, s, a, c);
  }

  lemma ReleasedKept(env: Env, s: State, s': State, pl: Places, c: int, place: Place)
    requires s.execs.Keys == pl.Keys && s'.execs.Keys == pl.Keys && Released(s, pl) && c in pl
    requires forall d :: d in pl && d != c ==> s'.execs[d] == s.execs[d]
    requires OthersEdges(s.locks, s'.locks, c)
    requires Unhandled(place)
             ==> Unhandled(pl[c]) && s'.locks <= s.locks && s'.execs[c] == HandleCreate(env, s.execs[c])
    ensures s'.execs.Keys == pl[c := place].Keys && Released(s', pl[c := place])
  {
    assert pl[c := place].Keys == pl.Keys;
    forall d, x | d in pl && d != c && x in s'.locks && Touches(x, d) ensures x in s.locks {
      assert KeepsEdges(s'.locks, s.locks, d);
    }
  }

  /** The places a handled context can be filed at. */
  predicate Filing(place: Place, a: string) {
    place.Done? || place in {Ready(a), Locked(a), Transit(a)}
  }

  /** The outcome of handling one message, with the place of its context. */
  ghost predicate FiledAs(env: Env, s: State, pl: Places, a: string, c: int, s': State, place: Place)
    requires s.execs.Keys == pl.Keys && c in pl
  {
    && Filing(place, a) && (place == Transit(a) <==> Dest(env, s.execs[c]) != a)
    && Inv(env, s', pl[c := place])
    && c in s'.execs && ProgressOf(env, s, pl, s', pl[c := place], c)
    && OthersEdges(s.locks, s'.locks, c) && (place.Transit? ==> s'.locks == s.locks)
  }

  lemma KnownContext(env: Env, s: State, pl: Places, c: int)
    requires Inv(env, s, pl) && c in pl
    ensures s.execs.Keys == pl.Keys && c in s.execs
  {}

  lemma NoNewTarget(env: Env, e: Executive)
    ensures e.message.typ in {FINISHED, REVERT, KEY_LOCK} ==> Dest(env, e) == e.message.to
  {}

  lemma ReturnHasFrame(env: Env, s: State, pl: Places, a: string, c: int)
    requires Inv(env, s, pl) && c in pl && pl[c] == Prep(a) && s.execs[c].message.typ in {FINISHED, REVERT}
    ensures |s.execs[c].callStack| >= 1
  {
    AboutToHandle(env, s, pl, a, c);
  }

  lemma ReturnFiles(env: Env, s: State, pl: Places, a: string, c: int) returns (place: Place)
    requires Inv(env, s, pl) && Released(s, pl) && c in pl && pl[c] == Prep(a) && Dest(env, s.execs[c]) == a
    requires s.execs[c].message.typ in {FINISHED, REVERT}
    ensures FiledAs(env, s, pl, a, c, PrepareOne(env, s, a, c), place)
  {
    hide Inv, Released, PrepareOne, Turns, Forwards, OthersEdges, HoldsClaims, Describes, Dest, Touches;
    KnownContext(env, s, pl, c);
    NoNewTarget(env, s.execs[c]);
    NothingTaken(s.locks, c);
    ReturnClaimsNothing(s.locks, s.execs[c].message, c);
    ReturnHasFrame(env, s, pl, a, c);
    if |s.execs[c].callStack| == 1 {
      EndKeeps(env, s, pl, a, c);
      place := Done(PrepareOne(env, s, a, c).results[c - env.startContextID].value);
    } else {
      ReturnKeeps(env, s, pl, a, c);
      place := Ready(a);
    }
  }

  lemma TakeFiles(env: Env, s: State, pl: Places, a: string, c: int) returns (place: Place)
    requires Inv(env, s, pl) && c in pl && pl[c] == Prep(a) && Dest(env, s.execs[c]) == a
    requires s.execs[c].message.typ in {MESSAGE, TXHASH, SEND_BACK, KEY_LOCK}
    ensures FiledAs(env, s, pl, a, c, PrepareOne(env, s, a, c), place)
  {
    hide Inv, PrepareOne, Takes, Turns, Forwards, OthersEdges, HoldsClaims, Dest, Claims, Touches;
    KnownContext(env, s, pl, c);
    NoNewTarget(env, s.execs[c]);
    if s.execs[c].message.typ == KEY_LOCK {
      WaitKeeps(env, s, pl, a, c);
      place := Locked(a);
    } else {
      CallKeeps(env, s, pl, a, c);
      place := Ready(a);
    }
    TakesHolds(s.locks, PrepareOne(env, s, a, c).locks, s.execs[c].message, c);
  }

  lemma OutFiles(env: Env, s: State, pl: Places, a: string, c: int)
    requires Inv(env, s, pl) && c in pl && pl[c] == Prep(a) && Dest(env, s.execs[c]) != a
    ensures FiledAs(env, s, pl, a, c, PrepareOne(env, s, a, c), Transit(a))
  {
    hide Inv, PrepareOne, Turns, Forwards, OthersEdges, Dest;
    KnownContext(env, s, pl, c);
    NothingTaken(s.locks, c);
    OutKeeps(env, s, pl, a, c);
  }

  /** Handling one message keeps the invariant and files the context under the right hint. */
  lemma PrepareOneKeeps(env: Env, s: State, pl: Places, a: string, c: int) returns (place: Place)
    requires Inv(env, s, pl) && Released(s, pl) && c in pl && pl[c] == Prep(a)
    ensures Filing(place, a) && (place == Transit(a) <==> Dest(env, s.execs[c]) != a)
    ensures Inv(env, PrepareOne(env, s, a, c), pl[c := place])
    ensures Released(PrepareOne(env, s, a, c), pl[c := place])
    ensures OnlyTouches(s, PrepareOne(env, s, a, c), a, c)
    ensures Progress(env, s, pl, PrepareOne(env, s, a, c), pl[c := place])
  {
    hide Inv, Released, PrepareOne, ProgressOf, Progress, Dest, Grantable, HandleCreate, AwaitsHandling;
    hide OthersEdges, WellFormed, EdgesFollowStacks, Busy, RouteOk, StackOk;
    AboutToHandle(env, s, pl, a, c);
    PrepareOneTouches(env, s, a, c);
    if Dest(env, s.execs[c]) != a {
      OutFiles(env, s, pl, a, c);
      place := Transit(a);
    } else if s.execs[c].message.typ in {FINISHED, REVERT} {
      place := ReturnFiles(env, s, pl, a, c);
    } else {
      place := TakeFiles(env, s, pl, a, c);
    }
    OneProgresses(env, s, pl, PrepareOne(env, s, a, c), c, place);
    ReleasedKept(env, s, PrepareOne(env, s, a, c), pl, c, place);
  }

  /** What the first loop of prepare does to the places. */
  ghost predicate Handles(env: Env, s: State, pl: Places, pl': Places, a: string, cs: seq<int>)
    requires s.execs.Keys == pl.Keys
  {
    && pl'.Keys == pl.Keys
    && (forall c :: c in pl && c !in cs ==> pl'[c] == pl[c])
    && (forall c :: c in cs && c in pl ==> Filing(pl'[c], a))
    && (forall c :: c in cs && c in pl ==> (pl'[c] == Transit(a) <==> Dest(env, s.execs[c]) != a))
  }

  /** The pools and executives that the first loop of prepare leaves alone. */
  ghost predicate LeavesOthers(env: Env, s: State, s': State, a: string, cs: seq<int>) {
    && a in s.pools && s'.pools.Keys == s.pools.Keys
       && (forall b :: b in s.pools && b != a ==> s'.pools[b] == s.pools[b])
    && s'.execs.Keys == s.execs.Keys && (forall d :: d in s.execs && d !in cs ==> s'.execs[d] == s.execs[d])
    && s'.pools[a].needPrepare == s.pools[a].needPrepare - (set c | c in cs)
    && s'.pools[a].needScheduleOut
       == s.pools[a].needScheduleOut + (set c | c in cs && c in s.execs && Dest(env, s.execs[c]) != a)
  }

  lemma LeavesOthersStep(env: Env, s: State, s1: State, s2: State, a: string, cs: seq<int>, c: int)
    requires LeavesOthers(env, s, s1, a, cs) && OnlyTouches(s1, s2, a, c) && c !in cs && c in s.execs
    requires s2.pools[a].needPrepare == s1.pools[a].needPrepare - {c}
    requires s2.pools[a].needScheduleOut
             == s1.pools[a].needScheduleOut + (if Dest(env, s1.execs[c]) != a then {c} else {})
    ensures LeavesOthers(env, s, s2, a, cs + [c])
  {
    var cs' := cs + [c];
    assert forall x :: x in cs' <==> x in cs || x == c;
    assert (set x | x in cs') == (set x | x in cs) + {c};
    assert s1.execs[c] == s.execs[c];
  }

  lemma HandlesStep(env: Env, s: State, s1: State, pl: Places, pl1: Places, a: string, cs: seq<int>, c: int,
                    place: Place)
    requires s.execs.Keys == pl.Keys == pl1.Keys && Handles(env, s, pl, pl1, a, cs) && c !in cs && c in pl
    requires Filing(place, a)
    requires c in s1.execs && s1.execs[c] == s.execs[c] && (place == Transit(a) <==> Dest(env, s1.execs[c]) != a)
    ensures Handles(env, s, pl, pl1[c := place], a, cs + [c])
  {
    assert forall x :: x in cs + [c] <==> x in cs || x == c;
    assert pl1[c := place].Keys == pl1.Keys;
  }

  /** The outcome of the first loop of prepare on the contexts handled so far. */
  ghost predicate HandledSoFar(env: Env, s: State, pl: Places, a: string, cs: seq<int>, s': State, pl': Places)
  {
    && Inv(env, s', pl') && Released(s', pl') && Progress(env, s, pl, s', pl')
    && s.execs.Keys == pl.Keys && Handles(env, s, pl, pl', a, cs) && LeavesOthers(env, s, s', a, cs)
  }

  lemma HandledStep(env: Env, s: State, pl: Places, a: string, cs: seq<int>, s1: State, pl1: Places, c: int)
      returns (pl': Places)
    requires HandledSoFar(env, s, pl, a, cs, s1, pl1) && c !in cs && c in pl && pl[c] == Prep(a)
    ensures HandledSoFar(env, s, pl, a, cs + [c], PrepareOne(env, s1, a, c), pl')
  {
    hide Inv, Released, PrepareOne, Progress, Dest, Grantable, AwaitsHandling, WellFormed, EdgesFollowStacks, Busy;
    hide RouteOk, StackOk;
    assert c in pl1 && pl1[c] == Prep(a);
    AboutToHandle(env, s1, pl1, a, c);
    var place := PrepareOneKeeps(env, s1, pl1, a, c);
    PrepareOneTouches(env, s1, a, c);
    LeavesOthersStep(env, s, s1, PrepareOne(env, s1, a, c), a, cs, c);
    HandlesStep(env, s, s1, pl, pl1, a, cs, c, place);
    pl' := pl1[c := place];
    ProgressOn(env, s, pl, s1, pl1, PrepareOne(env, s1, a, c), pl');
  }

  lemma HandledNothing(env: Env, s: State, pl: Places, a: string)
    requires Inv(env, s, pl) && Released(s, pl) && a in s.pools
    ensures HandledSoFar(env, s, pl, a, [], s, pl)
  {
    NoProgress(env, s, pl, s, pl);
  }

  /** The first loop of prepare keeps the invariant. */
  lemma {:induction false} PrepareEachKeeps(env: Env, s: State, pl: Places, a: string, cs: seq<int>)
      returns (pl': Places)
    requires Inv(env, s, pl) && Released(s, pl) && a in s.pools
    requires NoDuplicates(cs) && forall c :: c in cs ==> c in pl && pl[c] == Prep(a)
    ensures HandledSoFar(env, s, pl, a, cs, PrepareEach(env, s, a, cs), pl')
    decreases |cs|
  {
    hide Inv, Released, PrepareOne, HandledSoFar;
    if cs == [] {
      pl' := pl;
      HandledNothing(env, s, pl, a);
    } else {
      var init, c := cs[..|cs| - 1], cs[|cs| - 1];
      assert cs == init + [c];
      var pl1 := PrepareEachKeeps(env, s, pl, a, init);
      pl' := HandledStep(env, s, pl, a, init, PrepareEach(env, s, a, init), pl1, c);
    }
  }

  // ----- the second loop of prepare -----

  lemma ArrivePool(p: Pool, d: string, pl: Places, c: int)
    requires PoolOk(p, d, pl) && c in pl && pl[c].Transit? && c !in p.pending
    ensures PoolOk(Add(p, c), d, pl[c := Prep(d)])
  {
    var p', pl' := Add(p, c), pl[c := Prep(d)];
    forall x
      ensures x in p'.pending <==> (x in pl' && Home(pl'[x], d)) || x in Leaving(p')
      ensures x in Leaving(p') ==> !(x in pl' && Home(pl'[x], d))
    {
      assert Leaving(p') == Leaving(p);
    }
  }

  lemma ArriveKeepsPools(pools: map<string, Pool>, pl: Places, d: string, p: Pool, c: int)
    requires PoolsOk(pools, pl) && c in pl && pl[c].Transit? && c !in p.pending
    requires p == if d in pools then pools[d] else EMPTY_POOL
    ensures PoolsOk(pools[d := Add(p, c)], pl[c := Prep(d)])
  {
    var pools', pl' := pools[d := Add(p, c)], pl[c := Prep(d)];
    assert PoolOk(p, d, pl);
    ArrivePool(p, d, pl, c);
    forall b | b in pools' ensures PoolOk(pools'[b], b, pl') {
      if b != d { OtherPool(pools[b], b, pl, c, Prep(d)); }
    }
  }

  lemma ScheduleRoutes(env: Env, s: State, pl: Places, a: string, c: int)
    requires s.execs.Keys == pl.Keys && RoutesOk(env, s, pl) && c in pl && pl[c] == Transit(a)
    requires !s.execs[c].moved && HandleCreate(env, s.execs[c]) == s.execs[c]
    ensures var d := s.execs[c].message.to;
            ScheduleExecutive(s, c).execs.Keys == pl[c := Prep(d)].Keys
                && RoutesOk(env, ScheduleExecutive(s, c), pl[c := Prep(d)])
  {
    var d := s.execs[c].message.to;
    var s', pl' := ScheduleExecutive(s, c), pl[c := Prep(d)];
    assert pl'.Keys == pl.Keys;
    forall x | x in pl' ensures RouteOk(env, s', pl', x) {
      assert RouteOk(env, s, pl, x);
      if x != c {
        assert forall b :: x in PoolAt(s', b).pending ==> x in PoolAt(s, b).pending;
      }
    }
  }

  lemma RehomedGrants(s: State, s': State, pl: Places, c: int, place: Place)
    requires s.execs.Keys == pl.Keys && GrantsOk(s, pl) && s'.execs == s.execs && s'.locks == s.locks
    requires c in pl && (Unhandled(place) ==> Unhandled(pl[c]))
    ensures s'.execs.Keys == pl[c := place].Keys && GrantsOk(s', pl[c := place])
  {
    var pl' := pl[c := place];
    assert pl'.Keys == pl.Keys;
    forall x, y | x in pl' && y in pl' && x != y && Unhandled(pl'[x]) && Unhandled(pl'[y])
      ensures Claims(s'.execs[x].message) !! Claims(s'.execs[y].message)
    {
      assert Claims(s.execs[x].message) !! Claims(s.execs[y].message);
    }
  }

  lemma RehomedExecs(env: Env, s: State, s': State, pl: Places, c: int, place: Place)
    requires ExecsOk(env, s, pl) && s'.execs == s.execs && c in pl && ExecOk(env, s.execs[c], place, c)
    ensures ExecsOk(env, s', pl[c := place])
  {}

  /** A context that arrives in the pool of its destination is at home there. */
  lemma ScheduledTo(env: Env, s: State, pl: Places, a: string, c: int)
    requires Inv(env, s, pl) && c in pl && pl[c] == Transit(a)
    ensures c in s.execs && !s.execs[c].moved && s.execs[c].message.to != a
            && Dest(env, s.execs[c]) == s.execs[c].message.to
    ensures RouteOk(env, s, pl, c)
  {
    hide PoolsOk, ResultsOk, GrantsOk, EdgesFollowStacks;
    assert ExecOk(env, s.execs[c], pl[c], c);
  }

  lemma ScheduleOneKeeps(env: Env, s: State, pl: Places, a: string, c: int)
    requires Inv(env, s, pl) && Released(s, pl) && c in pl && pl[c] == Transit(a) && c in PoolAt(s, a).pending
    ensures var d := s.execs[c].message.to;
            && d != a && Dest(env, s.execs[c]) == d
            && ScheduleOne(s, a, c) == SetPool(s, d, Add(PoolAt(s, d), c))
            && Inv(env, ScheduleOne(s, a, c), pl[c := Prep(d)]) && Released(ScheduleOne(s, a, c), pl[c := Prep(d)])
  {
    hide PoolsOk, ResultsOk, GrantsOk, RoutesOk, EdgesFollowStacks;
    var d := s.execs[c].message.to;
    ScheduledTo(env, s, pl, a, c);
    var s', pl' := ScheduleOne(s, a, c), pl[c := Prep(d)];
    ArriveKeepsPools(s.pools, pl, d, PoolAt(s, d), c);
    ScheduleRoutes(env, s, pl, a, c);
    RehomedGrants(s, s', pl, c, Prep(d));
    RehomedExecs(env, s, s', pl, c, Prep(d));
    FiledResults(env, s, pl, c, Prep(d));
  }

  /** A pool that other contracts' messages have arrived in. */
  ghost predicate Grew(p: Pool, p': Pool) {
    && p.pending <= p'.pending && p.needPrepare <= p'.needPrepare && p'.hasLocked == p.hasLocked
    && p'.needSend == p.needSend && p'.needScheduleOut == p.needScheduleOut && p'.needRemove == p.needRemove
  }

  ghost predicate OnlyArrivals(s: State, s': State, a: string) {
    && s.pools.Keys <= s'.pools.Keys
    && forall b :: b in s'.pools && b != a ==> Grew(PoolAt(s, b), s'.pools[b])
  }

  /** The outcome of the second loop of prepare on the contexts routed so far. */
  ghost predicate RoutedSoFar(env: Env, s: State, pl: Places, a: string, cs: seq<int>, s': State, pl': Places) {
    Inv(env, s', pl') && Released(s', pl') && RouteEffect(env, s, pl, a, cs, s', pl')
  }

  ghost predicate RouteEffect(env: Env, s: State, pl: Places, a: string, cs: seq<int>, s': State, pl': Places) {
    && s'.execs == s.execs && s'.locks == s.locks && pl'.Keys == pl.Keys == s.execs.Keys
    && PoolAt(s', a) == PoolAt(s, a)
    && OnlyArrivals(s, s', a) && (cs == [] ==> s' == s)
    && (forall c :: c in pl && c !in cs ==> pl'[c] == pl[c])
    && (forall c :: c in cs && c in pl ==>
          pl'[c] == Prep(s.execs[c].message.to) && Dest(env, s.execs[c]) == s.execs[c].message.to)
  }

  lemma ArrivalsStep(s: State, s1: State, a: string, d: string, c: int)
    requires OnlyArrivals(s, s1, a) && d != a
    ensures OnlyArrivals(s, SetPool(s1, d, Add(PoolAt(s1, d), c)), a)
    ensures PoolAt(SetPool(s1, d, Add(PoolAt(s1, d), c)), a) == PoolAt(s1, a)
  {
    assert Grew(PoolAt(s, d), PoolAt(s1, d));
  }

  lemma RoutedStep(env: Env, s: State, pl: Places, a: string, cs: seq<int>, s1: State, pl1: Places, c: int)
    requires RoutedSoFar(env, s, pl, a, cs, s1, pl1) && c !in cs && c in pl && pl[c] == Transit(a)
    requires c in PoolAt(s, a).pending
    ensures RoutedSoFar(env, s, pl, a, cs + [c], ScheduleOne(s1, a, c), pl1[c := Prep(s.execs[c].message.to)])
  {
    hide Inv;
    var d := s.execs[c].message.to;
    assert pl1[c] == Transit(a) && c in PoolAt(s1, a).pending;
    ScheduleOneKeeps(env, s1, pl1, a, c);
    ArrivalsStep(s, s1, a, d, c);
    PlacesStep(pl, pl1, c, Prep(d), cs);
  }

  lemma PlacesStep(pl: Places, pl1: Places, c: int, place: Place, cs: seq<int>)
    requires pl1.Keys == pl.Keys && c in pl && c !in cs
    requires forall x :: x in pl && x !in cs ==> pl1[x] == pl[x]
    ensures var pl2 := pl1[c := place];
            && pl2.Keys == pl.Keys && (forall x :: x in cs + [c] <==> x in cs || x == c)
            && (forall x :: x in pl && x !in cs + [c] ==> pl2[x] == pl[x])
            && (forall x :: x in cs && x in pl ==> pl2[x] == pl1[x]) && pl2[c] == place
  {}

  lemma {:induction false} ScheduleEachKeeps(env: Env, s: State, pl: Places, a: string, cs: seq<int>)
      returns (pl': Places)
    requires Inv(env, s, pl) && Released(s, pl) && NoDuplicates(cs)
    requires forall c :: c in cs ==> c in pl && pl[c] == Transit(a) && c in PoolAt(s, a).pending
    ensures RoutedSoFar(env, s, pl, a, cs, ScheduleEach(s, a, cs), pl')
    decreases |cs|
  {
    if cs == [] {
      pl' := pl;
    } else {
      var init, c := cs[..|cs| - 1], cs[|cs| - 1];
      assert cs == init + [c];
      var pl1 := ScheduleEachKeeps(env, s, pl, a, init);
      RoutedStep(env, s, pl, a, init, ScheduleEach(s, a, init), pl1, c);
      pl' := pl1[c := Prep(s.execs[c].message.to)];
    }
  }

  // ----- refresh -----

  lemma RefreshPool(p: Pool, a: string, pl: Places)
    requires PoolOk(p, a, pl)
    ensures PoolOk(Refresh(p), a, pl)
  {}

  /** refresh forgets the contexts that have left and cleans the locked set. */
  lemma RefreshPools(pools: map<string, Pool>, pl: Places, a: string)
    requires PoolsOk(pools, pl) && a in pools
    ensures PoolsOk(pools[a := Refresh(pools[a])], pl)
  {
    hide PoolOk, Refresh;
    RefreshPool(pools[a], a, pl);
  }

  lemma RefreshKeeps(env: Env, s: State, pl: Places, a: string)
    requires Inv(env, s, pl) && a in s.pools
    ensures Inv(env, RefreshAt(s, a), pl)
  {
    hide ExecOk, ResultsOk, Dest, Claims, Grantable, Busy, PoolsOk;
    RefreshPools(s.pools, pl, a);
    var s' := RefreshAt(s, a);
    forall c | c in pl ensures RouteOk(env, s', pl, c) {
      assert RouteOk(env, s, pl, c);
    }
  }

  // ----- prepare as a whole -----

  /** A pool with nothing left to prepare or to forget. */
  predicate Settled(p: Pool) {
    p.needPrepare == {} && Leaving(p) == {} && p.hasLocked !! p.needSend
  }

  ghost predicate Misplaced(env: Env, s: State, pl: Places, c: int)
    requires s.execs.Keys == pl.Keys
  {
    c in pl && pl[c].Prep? && Dest(env, s.execs[c]) != pl[c].at
  }

  /** The effect of prepare on one pool and on what arrives in the others. */
  ghost predicate PoolsEffect(s: State, a: string, r: Prepared) {
    && OnlyArrivals(s, r.state, a) && a in r.state.pools && Settled(r.state.pools[a])
    && (!r.scheduledOut ==> r.state.pools.Keys == s.pools.Keys
                            && forall b :: b in s.pools && b != a ==> r.state.pools[b] == s.pools[b])
  }

  /** The contexts prepare leaves to be prepared: arrivals at their destination, and those
      of the other pools. */
  ghost predicate PlacesEffect(env: Env, s: State, pl: Places, a: string, r: Prepared, pl': Places) {
    && s.execs.Keys == pl.Keys == pl'.Keys == r.state.execs.Keys
    && (r.scheduledOut ==> exists c :: Misplaced(env, s, pl, c) && pl[c] == Prep(a))
    && (forall c :: c in pl' && pl'[c].Prep? ==>
          Dest(env, r.state.execs[c]) == pl'[c].at
          || (pl[c] == pl'[c] && pl[c] != Prep(a) && r.state.execs[c] == s.execs[c]))
  }

  ghost predicate PrepareEffect(env: Env, s: State, pl: Places, a: string, r: Prepared, pl': Places) {
    PoolsEffect(s, a, r) && PlacesEffect(env, s, pl, a, r, pl')
  }

  /** The effect of the first loop of prepare: who stays, who departs. */
  ghost predicate HandleEffect(env: Env, s: State, pl: Places, a: string, s2: State, pl2: Places) {
    HandlePools(s, a, s2) && HandlePlaces(env, s, pl, a, s2, pl2, s2.pools[a].needScheduleOut)
  }

  ghost predicate HandlePools(s: State, a: string, s2: State) {
    && a in s.pools && s2.pools.Keys == s.pools.Keys
       && (forall b :: b in s.pools && b != a ==> s2.pools[b] == s.pools[b])
    && s2.pools[a].needPrepare == {}
  }

  ghost predicate HandlePlaces(env: Env, s: State, pl: Places, a: string, s2: State, pl2: Places, out: set<int>) {
    && s.execs.Keys == pl.Keys == pl2.Keys == s2.execs.Keys
    && (forall c :: c in pl ==> (pl2[c].Transit? <==> c in out))
    && (forall c :: c in pl && pl2[c].Transit? ==> pl2[c] == Transit(a))
    && (forall c :: c in out ==> Misplaced(env, s, pl, c) && pl[c] == Prep(a))
    && (forall c :: c in pl && pl2[c].Prep? ==> pl2[c] == pl[c] && pl[c] != Prep(a) && s2.execs[c] == s.execs[c])
  }

  lemma HandleAllKeeps(env: Env, s: State, pl: Places, a: string) returns (pl': Places)
    requires Inv(env, s, pl) && Released(s, pl) && NoTransit(pl) && a in s.pools
    ensures var s2 := HandleAll(env, s, a);
            && Inv(env, s2, pl') && s2.execs.Keys == pl'.Keys && Released(s2, pl')
            && HandleEffect(env, s, pl, a, s2, pl') && Progress(env, s, pl, s2, pl')
  {
    hide Inv, Released, Dest, HandleEffect, PrepareEach, ProgressOf;
    RefreshFacts(env, s, pl, a);
    var s1 := RefreshAt(s, a);
    var cs := SortInts(s1.pools[a].needPrepare);
    pl' := PrepareEachKeeps(env, s1, pl, a, cs);
    HandleEffectHolds(env, s, s1, pl, a, cs, PrepareEach(env, s1, a, cs), pl');
    NoProgress(env, s, pl, s1, pl);
    ProgressOn(env, s, pl, s1, pl, PrepareEach(env, s1, a, cs), pl');
  }

  lemma HandleEffectHolds(env: Env, s: State, s1: State, pl: Places, a: string, cs: seq<int>, s2: State, pl2: Places)
    requires a in s.pools && s1 == RefreshAt(s, a) && s.execs.Keys == pl.Keys && NoTransit(pl)
    requires cs == SortInts(s1.pools[a].needPrepare)
    requires forall c :: c in s1.pools[a].needPrepare <==> c in pl && pl[c] == Prep(a)
    requires Handles(env, s1, pl, pl2, a, cs) && LeavesOthers(env, s1, s2, a, cs)
    ensures HandleEffect(env, s, pl, a, s2, pl2)
  {
    hide Dest, HandlePlaces, Handles, RefreshAt;
    OnlyRefreshed(s, a);
    SameElements((set c | c in cs), s1.pools[a].needPrepare);
    SameHandles(env, s, s1, pl, pl2, a, cs);
    HandlePlacesHold(env, s, pl, a, cs, s2, pl2, s2.pools[a].needScheduleOut);
  }

  lemma OnlyRefreshed(s: State, a: string)
    requires a in s.pools
    ensures var s1 := RefreshAt(s, a);
            && s1.pools.Keys == s.pools.Keys && s1.pools[a].needScheduleOut == {} && s1.execs == s.execs
            && forall b :: b in s.pools && b != a ==> s1.pools[b] == s.pools[b]
  {}

  lemma SameHandles(env: Env, s: State, s1: State, pl: Places, pl2: Places, a: string, cs: seq<int>)
    requires s.execs.Keys == pl.Keys && s1.execs == s.execs && Handles(env, s1, pl, pl2, a, cs)
    ensures Handles(env, s, pl, pl2, a, cs)
  {}

  lemma HandlePlacesHold(env: Env, s: State, pl: Places, a: string, cs: seq<int>, s2: State, pl2: Places, out: set<int>)
    requires s.execs.Keys == pl.Keys == s2.execs.Keys && NoTransit(pl) && Handles(env, s, pl, pl2, a, cs)
    requires forall c :: c in cs <==> c in pl && pl[c] == Prep(a)
    requires forall c :: c in out <==> c in cs && c in s.execs && Dest(env, s.execs[c]) != a
    requires forall d :: d in s.execs && d !in cs ==> s2.execs[d] == s.execs[d]
    ensures HandlePlaces(env, s, pl, a, s2, pl2, out)
  {
    hide Dest;
  }

  lemma RefreshFacts(env: Env, s: State, pl: Places, a: string)
    requires Inv(env, s, pl) && Released(s, pl) && a in s.pools
    ensures var s1 := RefreshAt(s, a);
            && Inv(env, s1, pl) && s.execs.Keys == pl.Keys && Released(s1, pl)
            && (forall c :: c in s1.pools[a].needPrepare <==> c in pl && pl[c] == Prep(a))
  {
    RefreshKeeps(env, s, pl, a);
  }

  lemma SettledAfterRefresh(p: Pool, a: string, pl: Places)
    requires PoolOk(p, a, pl) && p.needPrepare == {}
    ensures Settled(Refresh(p))
  {}

  lemma PendingOut(env: Env, s: State, pl: Places, a: string)
    requires Inv(env, s, pl) && a in s.pools
    ensures s.execs.Keys == pl.Keys
    ensures forall c :: c in s.pools[a].needScheduleOut ==> c in s.pools[a].pending
  {
    assert PoolOk(s.pools[a], a, pl);
    assert forall c :: c in s.pools[a].needScheduleOut ==> c in Leaving(s.pools[a]);
  }

  lemma PoolOf(env: Env, s: State, pl: Places, a: string)
    requires Inv(env, s, pl) && a in s.pools
    ensures PoolOk(s.pools[a], a, pl)
  {}

  lemma PoolsEffectHolds(s: State, a: string, s2: State, s3: State)
    requires HandlePools(s, a, s2) && PoolAt(s3, a) == PoolAt(s2, a) && OnlyArrivals(s2, s3, a)
    requires Settled(Refresh(PoolAt(s3, a))) && (s2.pools[a].needScheduleOut == {} ==> s3 == s2)
    ensures PoolsEffect(s, a, Prepared(RefreshAt(s3, a), s2.pools[a].needScheduleOut != {}))
  {
    hide Settled;
    var s' := RefreshAt(s3, a);
    forall b | b in s'.pools && b != a ensures Grew(PoolAt(s, b), s'.pools[b]) {
      assert s'.pools[b] == s3.pools[b] && PoolAt(s, b) == PoolAt(s2, b);
    }
  }

  lemma PlacesEffectHolds(env: Env, s: State, pl: Places, a: string, s2: State, pl2: Places, out: set<int>,
                          cs: seq<int>, s3: State, s': State, pl': Places)
    requires HandlePlaces(env, s, pl, a, s2, pl2, out) && cs == SortInts(out)
    requires RouteEffect(env, s2, pl2, a, cs, s3, pl') && s'.execs == s3.execs
    ensures NoTransit(pl') && PlacesEffect(env, s, pl, a, Prepared(s', out != {}), pl')
  {
    hide Dest, OnlyArrivals, Misplaced;
    if out != {} {
      Inhabited(out);
      var c :| c in out;
      assert Misplaced(env, s, pl, c);
    }
  }

  /** DmcExecutor::prepare keeps the invariant and settles its pool. */
  lemma PrepareKeeps(env: Env, s: State, pl: Places, a: string) returns (pl': Places)
    requires Inv(env, s, pl) && Released(s, pl) && NoTransit(pl) && a in s.pools
    ensures Inv(env, Prepare(env, s, a).state, pl') && Released(Prepare(env, s, a).state, pl') && NoTransit(pl')
    ensures PrepareEffect(env, s, pl, a, Prepare(env, s, a), pl')
    ensures Progress(env, s, pl, Prepare(env, s, a).state, pl')
  {
    hide Inv, Released, HandleAll, ScheduleEach, Progress;
    var pl2 := HandleAllKeeps(env, s, pl, a);
    var s2 := HandleAll(env, s, a);
    var cs := SortInts(s2.pools[a].needScheduleOut);
    PendingOut(env, s2, pl2, a);
    pl' := ScheduleEachKeeps(env, s2, pl2, a, cs);
    var s3 := ScheduleEach(s2, a, cs);
    RefreshFacts(env, s3, pl', a);
    PoolOf(env, s3, pl', a);
    SettledAfterRefresh(s3.pools[a], a, pl');
    PoolsEffectHolds(s, a, s2, s3);
    PlacesEffectHolds(env, s, pl, a, s2, pl2, s2.pools[a].needScheduleOut, cs, s3, RefreshAt(s3, a), pl');
    NoProgress(env, s2, pl2, RefreshAt(s3, a), pl');
    ProgressOn(env, s, pl, s2, pl2, RefreshAt(s3, a), pl');
  }
}
