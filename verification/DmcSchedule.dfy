/** serialPrepareExecutor as a whole: it always succeeds from a state of the invariant, it
    partitions the unfinished contexts, and if any is left it leaves something to send. */
module DmcSchedule {
  import opened Ordering
  import opened LockGraph
  import opened Options
  import opened Dmc
  import opened DmcInvariant
  import opened DmcTurns
  import opened DmcSerial
  import opened DmcPrepare
  import opened DmcPass
  import opened DmcUnlock

  // ----- the do-while loop -----

  /** Every departure empties the set of misplaced contexts: the loop terminates. */
  lemma LoopStep(env: Env, s: State)
    requires Invariant(env, s)
    ensures Invariant(env, Pass(env, s).state)
    ensures Pass(env, s).scheduledOut ==> MisplacedSet(env, s) != {} && MisplacedSet(env, Pass(env, s).state) == {}
  {
    hide Inv, Pass, AtHome;
    var pl: Places :| Inv(env, s, pl) && NoTransit(pl);
    var pl' := PassKeeps(env, s, pl);
    MisplacedIsNotHome(env, s, pl);
    MisplacedIsNotHome(env, Pass(env, s).state, pl');
  }

  lemma MisplacedIsNotHome(env: Env, s: State, pl: Places)
    requires Inv(env, s, pl)
    ensures MisplacedSet(env, s) == {} <==> AtHome(env, s, pl, [])
  {
    hide Dest;
    if MisplacedSet(env, s) == {} {
      forall c | c in pl && pl[c].Prep? ensures Dest(env, s.execs[c]) == pl[c].at {
        var a := pl[c].at;
        assert PoolOk(s.pools[a], a, pl);
        assert c !in MisplacedSet(env, s);
      }
    } else {
      Inhabited(MisplacedSet(env, s));
      var c :| c in MisplacedSet(env, s);
      var a :| a in s.pools && c in s.pools[a].needPrepare && Dest(env, s.execs[c]) != a;
      assert PoolOk(s.pools[a], a, pl);
    }
  }

  /** The do-while loop of serialPrepareExecutor. */
  ghost function SerialLoop(env: Env, s: State): (r: State)
    requires Invariant(env, s)
    decreases |MisplacedSet(env, s)|
  {
    LoopStep(env, s);
    var turn := Pass(env, s);
    if turn.scheduledOut then SerialLoop(env, turn.state) else turn.state
  }

  /** The loop turns at most twice, because each executive moves at most once. */
  lemma AtMostTwoTurns(env: Env, s: State)
    requires Invariant(env, s)
    ensures Pass(env, s).scheduledOut ==> !Pass(env, Pass(env, s).state).scheduledOut
  {
    hide Pass;
    LoopStep(env, s);
    LoopStep(env, Pass(env, s).state);
  }

  /** What holds when the loop exits. */
  ghost predicate LoopDone(env: Env, s: State, pl: Places) {
    && Inv(env, s, pl) && NoTransit(pl) && Calm(pl)
    && forall a :: a in s.pools ==> Settled(s.pools[a])
  }

  lemma SettledIsCalm(env: Env, s: State, pl: Places)
    requires Inv(env, s, pl) && NoTransit(pl) && forall a :: a in s.pools ==> Settled(s.pools[a])
    ensures LoopDone(env, s, pl)
  {
    forall c | c in pl && !pl[c].Done? ensures !pl[c].Prep? {
      var a := pl[c].at;
      assert PoolOk(s.pools[a], a, pl);
      assert c !in s.pools[a].needPrepare by { assert Settled(s.pools[a]); }
    }
  }

  /** The loop keeps the invariant, settles every pool, and handles every message once. */
  lemma {:induction false} SerialLoopKeeps(env: Env, s: State, pl: Places) returns (pl': Places)
    requires Invariant(env, s) && Inv(env, s, pl) && NoTransit(pl)
    ensures LoopDone(env, SerialLoop(env, s), pl') && Progress(env, s, pl, SerialLoop(env, s), pl')
    decreases |MisplacedSet(env, s)|
  {
    hide Inv, Pass, LoopDone, Progress, MisplacedSet;
    LoopStep(env, s);
    var turn := Pass(env, s);
    var pl1 := PassKeeps(env, s, pl);
    if turn.scheduledOut {
      pl' := SerialLoopKeeps(env, turn.state, pl1);
      ProgressOn(env, s, pl, turn.state, pl1, SerialLoop(env, s), pl');
    } else {
      pl' := pl1;
      SettledIsCalm(env, turn.state, pl');
    }
  }

  // ----- deadlock -----

  /** All unfinished contexts are locked. */
  ghost function LockedSet(pl: Places): (r: set<int>) {
    set c | c in pl && pl[c].Locked?
  }

  lemma NothingReadyIn(p: Pool, a: string, pl: Places, c: int)
    requires PoolOk(p, a, pl) && (Finished(p) || p.needSend == {}) && c in pl
    ensures pl[c] != Ready(a)
  {
    assert c !in p.needSend || c !in p.pending;
  }

  lemma NothingReady(env: Env, s: State, pl: Places)
    requires Inv(env, s, pl) && NeedDetectDeadlock(s)
    ensures !SomeReady(pl)
  {
    forall c | c in pl && !pl[c].Done? ensures !pl[c].Ready? {
      var a := pl[c].at;
      NothingReadyIn(s.pools[a], a, pl, c);
    }
  }

  lemma SomeLocked(env: Env, s: State, pl: Places)
    requires Inv(env, s, pl) && Calm(pl) && !SomeReady(pl) && NeedDetectDeadlock(s)
    requires forall a :: a in s.pools ==> Leaving(s.pools[a]) == {}
    ensures LockedSet(pl) != {}
  {
    var a :| a in s.pools && !Finished(s.pools[a]);
    assert PoolOk(s.pools[a], a, pl);
    Inhabited(s.pools[a].pending);
    Inhabited(s.pools[a].hasLocked);
    assert s.pools[a].pending != {};
    var c :| c in s.pools[a].pending;
    assert Home(pl[c], a);
    assert c in LockedSet(pl);
  }

  /** The owner of a key is an unfinished context; when none can be sent, it is locked. */
  lemma OwnerIsLocked(env: Env, s: State, pl: Places, o: int, e: Edge)
    requires Inv(env, s, pl) && Calm(pl) && !SomeReady(pl) && e in s.locks && Touches(e, o)
    ensures o in LockedSet(pl)
  {
    assert o in s.execs && e.frame in s.execs[o].callStack;
    assert ExecOk(env, s.execs[o], pl[o], o);
  }

  lemma StuckIsBlocked(env: Env, s: State, pl: Places, c: int)
    requires Inv(env, s, pl) && Calm(pl) && !SomeReady(pl) && Stuck(s.locks, c)
    ensures Blocked(s.locks, LockedSet(pl), c)
  {
    var k, f :| Waits(s.locks, c, k, f) && HeldByOther(s.locks, k, c);
    var e :| e in s.locks && e.source == Key(k) && e.target != Context(c);
    assert e.target.Context?;
    var o := e.target.id;
    OwnerIsLocked(env, s, pl, o, e);
    assert Holds(s.locks, k, o, e.frame);
  }

  /** Deadlock completeness: when no unfinished executor has anything to send, some locked
      context holds a key and reaches a cycle of waits. */
  lemma DeadlockExists(env: Env, s: State, pl: Places) returns (victim: int)
    requires Inv(env, s, pl) && Calm(pl) && NeedDetectDeadlock(s)
    requires forall a :: a in s.pools ==> Leaving(s.pools[a]) == {}
    requires SomeReady(pl) || forall c :: c in LockedSet(pl) ==> Stuck(s.locks, c)
    ensures victim in pl && pl[victim].Locked? && Deadlocked(s.locks, victim)
  {
    hide Inv, Stuck;
    NothingReady(env, s, pl);
    SomeLocked(env, s, pl);
    forall c | c in LockedSet(pl) ensures Blocked(s.locks, LockedSet(pl), c) {
      StuckIsBlocked(env, s, pl, c);
    }
    victim := BlockedSetHasVictim(s.locks, LockedSet(pl));
  }

  /** The context is locked and deadlocked, and no locked context ahead of it is deadlocked. */
  ghost predicate FirstDeadlocked(s: State, addresses: seq<string>, a: string, c: int) {
    && a in addresses && c in PoolAt(s, a).hasLocked && Deadlocked(s.locks, c)
    && (forall b, d :: b in addresses && d in PoolAt(s, b).hasLocked && Ahead(b, d, a, c) ==> !Deadlocked(s.locks, d))
  }

  /** Every locked context is pending and has an executive. */
  ghost predicate LockedIsPending(s: State, a: string) {
    forall c :: c in PoolAt(s, a).hasLocked ==> c in PoolAt(s, a).pending && c in s.execs
  }

  /** The first context of the pool that is locked, not forgotten and deadlocked. */
  ghost predicate FirstDeadlockedIn(s: State, a: string, c: int) {
    var p := PoolAt(s, a);
    && c in p.hasLocked && c in p.pending && c in s.execs && Deadlocked(s.locks, c)
    && (forall d :: d in p.hasLocked && d < c && d in p.pending && d in s.execs ==> !Deadlocked(s.locks, d))
  }

  ghost predicate NoneDeadlockedIn(s: State, a: string) {
    var p := PoolAt(s, a);
    forall c :: c in p.hasLocked && c in p.pending && c in s.execs ==> !Deadlocked(s.locks, c)
  }

  /** The search of detectLockAndRevert finds that context, or there is none. */
  lemma FirstVictimFound(s: State, a: string)
    ensures var r := FirstVictim(s, a, SortInts(PoolAt(s, a).hasLocked));
            if r.Some? then FirstDeadlockedIn(s, a, r.value) else NoneDeadlockedIn(s, a)
  {
    hide Deadlocked;
    var cs := SortInts(PoolAt(s, a).hasLocked);
    FirstVictimIsFirst(s, a, cs);
    assert forall c :: c in PoolAt(s, a).hasLocked ==> c in cs;
  }

  lemma {:induction false} FirstVictimIsFirst(s: State, a: string, cs: seq<int>)
    requires StrictlyIncreasing(cs)
    ensures var r := FirstVictim(s, a, cs);
            r.Some? ==> forall c :: c in cs && c < r.value && c in PoolAt(s, a).pending && c in s.execs ==>
                          !Deadlocked(s.locks, c)
    decreases |cs|
  {
    hide Deadlocked;
    if cs != [] {
      assert forall c :: c in cs <==> c == cs[0] || c in cs[1..];
      FirstVictimIsFirst(s, a, cs[1..]);
      assert forall c :: c in cs[1..] ==> cs[0] < c;
    }
  }

  /** The detection loop reverts the first deadlocked context if some pool has one. */
  lemma {:induction false} DetectFinds(s: State, addresses: seq<string>, a: string, c: int)
      returns (b: string, victim: int)
    requires StrictlyAscending(addresses) && forall x :: x in addresses ==> LockedIsPending(s, x)
    requires a in addresses && c in PoolAt(s, a).hasLocked && Deadlocked(s.locks, c)
    ensures FirstDeadlocked(s, addresses, b, victim) && victim in s.execs
    ensures DetectAndRevert(s, addresses) == RevertVictim(s, b, victim)
    decreases |addresses|
  {
    hide Deadlocked, Below, StrictlyAscending, FirstDeadlocked;
    var head, rest := addresses[0], addresses[1..];
    var xs := SortInts(PoolAt(s, head).hasLocked);
    var first := FirstVictim(s, head, xs);
    HeadIsBelow(addresses);
    assert LockedIsPending(s, head);
    if first.Some? {
      b, victim := head, first.value;
      FirstVictimIsFirst(s, head, xs);
      FirstInHead(s, addresses, victim);
    } else {
      assert forall d :: d in PoolAt(s, head).hasLocked ==> d in xs;
      assert a == head || a in rest;
      b, victim := DetectFinds(s, rest, a, c);
      FirstInRest(s, addresses, b, victim);
    }
  }

  lemma FirstInRest(s: State, addresses: seq<string>, a: string, c: int)
    requires addresses != [] && FirstDeadlocked(s, addresses[1..], a, c)
    requires forall d :: d in PoolAt(s, addresses[0]).hasLocked ==> !Deadlocked(s.locks, d)
    ensures FirstDeadlocked(s, addresses, a, c)
  {
    hide Deadlocked, Below;
    forall b, d | b in addresses && d in PoolAt(s, b).hasLocked && Ahead(b, d, a, c) ensures !Deadlocked(s.locks, d) {
      assert b == addresses[0] || b in addresses[1..];
    }
  }

  lemma HeadIsBelow(addresses: seq<string>)
    requires StrictlyAscending(addresses) && addresses != []
    ensures StrictlyAscending(addresses[1..])
    ensures forall x :: x in addresses <==> x == addresses[0] || x in addresses[1..]
    ensures forall x :: x in addresses[1..] ==> Below(addresses[0], x) && !Below(x, addresses[0]) && x != addresses[0]
  {
    assert addresses == [addresses[0]] + addresses[1..];
    forall x | x in addresses[1..]
      ensures Below(addresses[0], x) && !Below(x, addresses[0]) && x != addresses[0]
    {
      var i :| 0 <= i < |addresses[1..]| && addresses[1..][i] == x;
      assert addresses[i + 1] == x;
      BelowAsymmetric(addresses[0], x);
    }
  }

  lemma FirstInHead(s: State, addresses: seq<string>, c: int)
    requires addresses != [] && c in PoolAt(s, addresses[0]).hasLocked && Deadlocked(s.locks, c)
    requires forall x :: x in addresses[1..] ==> !Below(x, addresses[0]) && x != addresses[0]
    requires forall d :: d in PoolAt(s, addresses[0]).hasLocked && d < c ==> !Deadlocked(s.locks, d)
    ensures FirstDeadlocked(s, addresses, addresses[0], c)
  {
    hide Deadlocked, Below;
    forall b, d | b in addresses && d in PoolAt(s, b).hasLocked && Ahead(b, d, addresses[0], c)
      ensures !Deadlocked(s.locks, d)
    {
      BelowIrreflexive(addresses[0]);
      assert b in addresses[1..] || b == addresses[0];
    }
  }

  /** The message of c has become a revert that is to be sent, and nothing else has changed. */
  ghost predicate Reverted(s: State, s': State, a: string, c: int) {
    && s' == s.(pools := s'.pools, execs := s'.execs)
    && s'.pools == s.pools[a := PoolAt(s, a).(needSend := PoolAt(s, a).needSend + {c})]
    && c in s.execs && s'.execs.Keys == s.execs.Keys
    && (forall d :: d in s.execs && d != c ==> s'.execs[d] == s.execs[d])
    && var e, e' := s.execs[c], s'.execs[c];
    && e'.callStack == e.callStack && e'.currentSeq == e.currentSeq && !e.moved && !e'.moved
    && e'.message.typ == REVERT && !e'.message.create && e'.message.keyLocks == []
    && SameContent(e.message, e'.message) && e'.message.frame == e.message.frame && e'.message.to == e.message.to
  }

  lemma RevertReverts(s: State, a: string, c: int)
    requires c in s.execs && !s.execs[c].moved
    ensures Reverted(s, RevertVictim(s, a, c), a, c)
  {}

  lemma VictimIsReverted(env: Env, s: State, pl: Places, a: string, c: int)
    requires Inv(env, s, pl) && c in pl && pl[c] == Locked(a)
    ensures a in s.pools && c in s.execs && s.execs[c].message.typ == KEY_LOCK
    ensures Reverted(s, RevertVictim(s, a, c), a, c)
  {
    hide Inv, Reverted, RevertVictim;
    LockedFacts(env, s, pl, a, c);
    RevertReverts(s, a, c);
  }

  /** There is something left to do and no pool has anything to send. */
  ghost predicate Stalled(s: State) {
    && (exists a :: a in s.pools && s.pools[a].pending != {})
    && (forall a :: a in s.pools ==> s.pools[a].needSend == {})
  }

  /** A stall is broken by reverting the first deadlocked context; otherwise nothing happens. */
  ghost predicate StallBroken(s: State, s': State) {
    if Stalled(s) then
      exists a, c :: FirstDeadlocked(s, SortStrings(s.pools.Keys), a, c) && a in s.pools
                     && Reverted(s, s', a, c) && s.execs[c].message.typ == KEY_LOCK
    else s' == s
  }

  lemma DetectionIsStall(env: Env, s: State, pl: Places)
    requires Inv(env, s, pl)
    ensures NeedDetectDeadlock(s) <==> Stalled(s)
  {
    hide ExecsOk, RoutesOk, GrantsOk, ResultsOk, EdgesFollowStacks, WellFormed;
    forall a | a in s.pools
      ensures s.pools[a].needSend != {} ==> s.pools[a].pending != {}
      ensures Finished(s.pools[a]) <==> s.pools[a].pending == {}
    {
      assert PoolOk(s.pools[a], a, pl);
      Inhabited(s.pools[a].needSend);
      Inhabited(s.pools[a].hasLocked);
    }
  }

  /** Turning the victim's wait into a revert keeps the invariant. */
  lemma RevertKeeps(env: Env, s: State, pl: Places, a: string, c: int)
    requires Inv(env, s, pl) && Calm(pl) && c in pl && pl[c] == Locked(a)
    ensures Inv(env, RevertVictim(s, a, c), pl[c := Ready(a)])
  {
    hide PoolsOk, ExecsOk, ResultsOk, GrantsOk, RoutesOk, WellFormed;
    LockedFacts(env, s, pl, a, c);
    KeysAgree(env, s, pl);
    ReadyKeepsPools(s.pools, pl, a, c);
    FiledResults(env, s, pl, c, Ready(a));
    var s', pl' := RevertVictim(s, a, c), pl[c := Ready(a)];
    FiledExecs(env, s, s', pl, c, s'.execs[c], Ready(a));
    CalmInv(env, s', pl');
  }

  // ----- serialPrepareExecutor -----

  /** The state a round is sent from: nothing to prepare or to forget, and something to
      send unless every context has finished. */
  ghost predicate Scheduled(env: Env, s: State, pl: Places) {
    && Inv(env, s, pl) && Calm(pl)
    && (forall a :: a in s.pools ==> Leaving(s.pools[a]) == {})
    && (SomeReady(pl) || forall c :: c in pl ==> pl[c].Done?)
  }

  lemma LockedIsEverything(s: State, pl: Places)
    requires PoolsOk(s.pools, pl)
    ensures LockedIn(pl, SortStrings(s.pools.Keys)) == LockedSet(pl)
  {
    var addresses := SortStrings(s.pools.Keys);
    forall c | c in LockedSet(pl) ensures c in LockedIn(pl, addresses) {
      assert pl[c].at in s.pools.Keys;
      assert pl[c].at in addresses;
    }
  }

  lemma PoolsAfterUnlock(env: Env, s: State, pl: Places, cs: set<int>, s1: State, pl1: Places)
    requires LoopDone(env, s, pl) && UnlockEffect(env, s, pl, cs, s1, pl1) && cs == LockedSet(pl)
    ensures s1.pools.Keys == s.pools.Keys && forall a :: a in s1.pools ==> Leaving(s1.pools[a]) == {}
    ensures forall c :: c in LockedSet(pl1) ==> Stuck(s1.locks, c)
    ensures Inv(env, s1, pl1) && Calm(pl1)
  {
    hide Inv, OnlyRetries, FirstCome, HeldByOther;
    forall c | c in LockedSet(pl1) ensures Stuck(s1.locks, c) {
      assert c in cs;
      assert Waits(s1.locks, c, Wanted(s.execs[c].message), s.execs[c].message.frame);
    }
    forall a | a in s1.pools ensures Leaving(s1.pools[a]) == {} {
      assert OnlyNeedSend(s.pools[a], s1.pools[a]) && Settled(s.pools[a]);
    }
  }

  lemma AllDoneOrReady(env: Env, s: State, pl: Places)
    requires Inv(env, s, pl) && Calm(pl) && !NeedDetectDeadlock(s)
    ensures SomeReady(pl) || forall c :: c in pl ==> pl[c].Done?
  {
    hide ExecsOk, RoutesOk, GrantsOk, ResultsOk, EdgesFollowStacks, WellFormed;
    if c :| c in pl && !pl[c].Done? {
      var a := pl[c].at;
      assert PoolOk(s.pools[a], a, pl);
      assert c in s.pools[a].pending;
      assert !Finished(s.pools[a]);
      var b :| b in s.pools && !Finished(s.pools[b]) && s.pools[b].needSend != {};
      Inhabited(s.pools[b].needSend);
      var d :| d in s.pools[b].needSend;
      assert PoolOk(s.pools[b], b, pl);
    }
  }

  /** When nobody can be sent, a victim is found and can be sent. */
  lemma DetectKeeps(env: Env, s: State, pl: Places, addresses: seq<string>) returns (pl': Places)
    requires Inv(env, s, pl) && Calm(pl) && NeedDetectDeadlock(s)
    requires forall a :: a in s.pools ==> Leaving(s.pools[a]) == {}
    requires SomeReady(pl) || forall c :: c in LockedSet(pl) ==> Stuck(s.locks, c)
    requires addresses == SortStrings(s.pools.Keys)
    ensures Scheduled(env, DetectAndRevert(s, addresses), pl') && StallBroken(s, DetectAndRevert(s, addresses))
  {
    hide Inv, DetectAndRevert, Stuck, NeedDetectDeadlock, FirstDeadlocked, Reverted, Stalled, RevertVictim, Scheduled;
    var b, c := VictimFound(env, s, pl, addresses);
    VictimIsReverted(env, s, pl, b, c);
    DetectionIsStall(env, s, pl);
    pl' := pl[c := Ready(b)];
    RevertedIsScheduled(env, s, pl, b, c);
  }

  lemma RevertedIsScheduled(env: Env, s: State, pl: Places, a: string, c: int)
    requires Inv(env, s, pl) && Calm(pl) && c in pl && pl[c] == Locked(a)
    requires forall b :: b in s.pools ==> Leaving(s.pools[b]) == {}
    ensures c in s.execs && Scheduled(env, RevertVictim(s, a, c), pl[c := Ready(a)])
  {
    hide Inv;
    LockedFacts(env, s, pl, a, c);
    RevertKeeps(env, s, pl, a, c);
    assert pl[c := Ready(a)][c].Ready?;
  }

  lemma VictimFound(env: Env, s: State, pl: Places, addresses: seq<string>) returns (b: string, c: int)
    requires Inv(env, s, pl) && Calm(pl) && NeedDetectDeadlock(s)
    requires forall a :: a in s.pools ==> Leaving(s.pools[a]) == {}
    requires SomeReady(pl) || forall c :: c in LockedSet(pl) ==> Stuck(s.locks, c)
    requires addresses == SortStrings(s.pools.Keys)
    ensures FirstDeadlocked(s, addresses, b, c) && c in pl && pl[c] == Locked(b)
    ensures c in s.execs && DetectAndRevert(s, addresses) == RevertVictim(s, b, c)
  {
    hide Inv, DetectAndRevert, Deadlocked, Stuck, NeedDetectDeadlock, FirstDeadlocked, StrictlyAscending, SomeReady;
    var v := DeadlockExists(env, s, pl);
    var a := pl[v].at;
    LockedFacts(env, s, pl, a, v);
    LockedArePending(env, s, pl, addresses);
    assert a in s.pools.Keys;
    b, c := DetectFinds(s, addresses, a, v);
    FirstIsLocked(s, addresses, b, c);
    assert b in s.pools.Keys;
    VictimIsLocked(env, s, pl, b, c);
  }

  lemma FirstIsLocked(s: State, addresses: seq<string>, a: string, c: int)
    requires FirstDeadlocked(s, addresses, a, c)
    ensures a in addresses && c in PoolAt(s, a).hasLocked
  {
    hide Deadlocked, Below;
  }

  lemma LockedArePending(env: Env, s: State, pl: Places, addresses: seq<string>)
    requires Inv(env, s, pl) && addresses == SortStrings(s.pools.Keys)
    requires forall a :: a in s.pools ==> Leaving(s.pools[a]) == {}
    ensures forall x :: x in addresses ==> LockedIsPending(s, x)
  {
    hide ExecOk, RoutesOk, GrantsOk, ResultsOk, EdgesFollowStacks, WellFormed;
    forall x | x in addresses ensures LockedIsPending(s, x) {
      assert x in s.pools.Keys;
      assert PoolOk(s.pools[x], x, pl);
    }
  }

  /** unlockPrepare on every pool retries all the locked contexts. */
  lemma UnlockTakesEffect(env: Env, s: State, pl: Places) returns (pl': Places)
    requires LoopDone(env, s, pl)
    ensures UnlockEffect(env, s, pl, LockedSet(pl), UnlockAll(s, SortStrings(s.pools.Keys)), pl')
  {
    hide Inv, UnlockAll, Settled, PoolsOk, UnlockEffect;
    PoolsHold(env, s, pl);
    LockedIsEverything(s, pl);
    pl' := UnlockAllKeeps(env, s, pl, SortStrings(s.pools.Keys));
  }

  /** The second half of serialPrepareExecutor never raises "no deadlock detected". */
  lemma HandleLockedKeeps(env: Env, s: State, pl: Places) returns (pl': Places)
    requires LoopDone(env, s, pl)
    ensures Scheduled(env, HandleLocked(s), pl')
    ensures StallBroken(UnlockAll(s, SortStrings(s.pools.Keys)), HandleLocked(s))
  {
    hide Inv, UnlockAll, DetectAndRevert, Stuck, NeedDetectDeadlock, Settled, PoolsOk, Scheduled, UnlockEffect;
    hide FirstDeadlocked, Reverted, Stalled;
    var addresses := SortStrings(s.pools.Keys);
    var pl1 := UnlockTakesEffect(env, s, pl);
    var s1 := UnlockAll(s, addresses);
    PoolsAfterUnlock(env, s, pl, LockedSet(pl), s1, pl1);
    if NeedDetectDeadlock(s1) {
      pl' := DetectKeeps(env, s1, pl1, addresses);
    } else {
      pl' := pl1;
      SendKeeps(env, s1, pl1);
      DetectionIsStall(env, s1, pl1);
    }
  }

  lemma SendKeeps(env: Env, s: State, pl: Places)
    requires Inv(env, s, pl) && Calm(pl) && !NeedDetectDeadlock(s)
    requires forall a :: a in s.pools ==> Leaving(s.pools[a]) == {}
    ensures Scheduled(env, s, pl)
  {
    AllDoneOrReady(env, s, pl);
  }

  lemma PoolsHold(env: Env, s: State, pl: Places)
    requires Inv(env, s, pl)
    ensures PoolsOk(s.pools, pl)
  {}

  lemma VictimIsLocked(env: Env, s: State, pl: Places, a: string, c: int)
    requires Inv(env, s, pl) && Calm(pl) && NeedDetectDeadlock(s) && a in s.pools && c in s.pools[a].hasLocked
    requires Leaving(s.pools[a]) == {}
    ensures c in pl && pl[c] == Locked(a)
  {
    hide ExecsOk, RoutesOk, GrantsOk, ResultsOk, EdgesFollowStacks, WellFormed;
    NothingReady(env, s, pl);
    assert PoolOk(s.pools[a], a, pl);
  }

  /** serialPrepareExecutor. */
  ghost function SerialPrepare(env: Env, s: State): (r: State)
    requires Invariant(env, s)
  {
    HandleLocked(SerialLoop(env, s))
  }

  /** serialPrepareExecutor succeeds from every state of the invariant: no exception, no
      failed assertion, and a message to send unless the block is finished. */
  lemma SerialPrepareKeeps(env: Env, s: State) returns (pl: Places)
    requires Invariant(env, s)
    ensures Scheduled(env, SerialPrepare(env, s), pl)
  {
    hide LoopDone, HandleLocked, SerialLoop, Scheduled, Inv, Progress, StallBroken;
    var pl0: Places :| Inv(env, s, pl0) && NoTransit(pl0);
    var pl1 := SerialLoopKeeps(env, s, pl0);
    pl := HandleLockedKeeps(env, SerialLoop(env, s), pl1);
  }
}
