/** The theorems about the scheduler, over every run of a block. */
module DmcTheorems {
  import opened Ordering
  import opened LockGraph
  import opened Options
  import opened Dmc
  import opened DmcInvariant
  import opened DmcTurns
  import opened DmcPrepare
  import opened DmcPass
  import opened DmcUnlock
  import opened DmcSchedule
  import opened DmcRound
  import opened DmcConfluence
  import opened DmcJoin
  import opened DmcRoundInvariant
  import opened DmcExchange
  import opened DmcRun
  import opened DmcStacks
  import opened DmcContract

  // ----- runs -----

  /** A DMC round from s: prepare serially, then any legal interleaving of go calls and
      callbacks until the continuation runs, with executors that keep their contract. */
  ghost predicate RoundBy(env: Env, s: State, events: seq<Event>, s': State)
    requires Invariant(env, s)
  {
    var p := SerialPrepare(env, s);
    && p.pools != map[] && EnvOk(env, p) && Legal(env, p, events)
    && Play(env, p, events).callbackExecuted && Play(env, p, events).decisions == [NextRound]
    && s' == Play(env, p, events).state
  }

  /** A step of a block: serialPrepareExecutor alone, as BlockExecutive::prepare calls it, or
      a whole round. SerialPrepare is only defined under the invariant, which its loop needs to
      end; RunKeepsInvariant shows that the premise is met at every step of a run. */
  ghost predicate Steps(env: Env, s: State, s': State) {
    Invariant(env, s) ==> s' == SerialPrepare(env, s) || exists events :: RoundBy(env, s, events, s')
  }

  ghost predicate IsRun(env: Env, tr: seq<State>) {
    && tr != [] && (exists msgs, outputs :: Starts(env, msgs, outputs, tr[0]))
    && forall i, j :: 0 <= i < |tr| - 1 && j == i + 1 ==> Steps(env, tr[i], tr[j])
  }

  lemma RoundByKeeps(env: Env, s: State, events: seq<Event>, s': State)
    requires Invariant(env, s) && RoundBy(env, s, events, s')
    ensures Invariant(env, s') && s' == RoundResult(env, SerialPrepare(env, s)) && !AllFinished(SerialPrepare(env, s))
  {
    hide Inv, Scheduled, Legal, Play, EnvOk, SerialPrepare, RoundResult, Sendable, Answers;
    var p := SerialPrepare(env, s);
    var pl := SerialPrepareKeeps(env, s);
    ScheduledIsSendable(env, p, pl);
    AnswersHold(env, p);
    RoundIsDeterministic(env, p, events);
    var pl' := RoundKeeps(env, p, pl);
  }

  /** With executors that keep their contract a round can always be played to its end. */
  lemma RoundExists(env: Env, s: State) returns (events: seq<Event>)
    requires Invariant(env, s) && EnvOk(env, SerialPrepare(env, s))
    requires SerialPrepare(env, s).pools != map[] && !AllFinished(SerialPrepare(env, s))
    ensures RoundBy(env, s, events, RoundResult(env, SerialPrepare(env, s)))
  {
    hide Inv, Scheduled, EnvOk, SerialPrepare, RoundResult, Sendable, Answers, Invariant;
    var p := SerialPrepare(env, s);
    var pl := SerialPrepareKeeps(env, s);
    ScheduledIsSendable(env, p, pl);
    AnswersHold(env, p);
    events := RoundCompletes(env, p, []);
    RoundIsDeterministic(env, p, events);
  }

  /** Such runs exist: with executors that just return, every unfinished state has a next one. */
  lemma RunsGoOn(env: Env, s: State) returns (s': State)
    requires Invariant(env, s) && env.run == ReturnAll
    requires SerialPrepare(env, s).pools != map[] && !AllFinished(SerialPrepare(env, s))
    ensures Steps(env, s, s') && s' == RoundResult(env, SerialPrepare(env, s))
  {
    hide Scheduled, EnvOk, SerialPrepare, RoundResult, Invariant, RoundBy, ReturnAll;
    var pl := SerialPrepareKeeps(env, s);
    ContractCanBeMet(env, SerialPrepare(env, s), pl);
    assert env.(run := ReturnAll) == env;
    s' := RoundResult(env, SerialPrepare(env, s));
    var events := RoundExists(env, s);
  }

  lemma AnswersHold(env: Env, s: State)
    requires EnvOk(env, s)
    ensures Answers(env, s)
  {}

  lemma ScheduledInvariant(env: Env, s: State, pl: Places)
    requires Scheduled(env, s, pl)
    ensures Invariant(env, s)
  {
    hide Inv;
    assert Inv(env, s, pl) && NoTransit(pl);
  }

  lemma StepKeeps(env: Env, s: State, s': State)
    requires Invariant(env, s) && Steps(env, s, s')
    ensures Invariant(env, s')
  {
    hide Invariant, Scheduled, SerialPrepare, RoundBy;
    if s' == SerialPrepare(env, s) {
      var pl := SerialPrepareKeeps(env, s);
      ScheduledInvariant(env, s', pl);
    } else {
      var events :| RoundBy(env, s, events, s');
      RoundByKeeps(env, s, events, s');
    }
  }

  /** Every state of every run satisfies the invariant. */
  lemma {:induction false} RunKeepsInvariant(env: Env, tr: seq<State>, i: nat)
    requires IsRun(env, tr) && i < |tr|
    ensures Invariant(env, tr[i])
    decreases i
  {
    hide Invariant, Steps, Starts;
    if i == 0 {
      var msgs, outputs :| Starts(env, msgs, outputs, tr[0]);
      StartKeeps(env, msgs, outputs, tr[0]);
    } else {
      RunKeepsInvariant(env, tr, i - 1);
      assert Steps(env, tr[i - 1], tr[i]);
      StepKeeps(env, tr[i - 1], tr[i]);
    }
  }

  // ----- safety -----

  /** The context's transaction has its receipt. */
  predicate HasReceipt(env: Env, s: State, c: int) {
    0 <= c - env.startContextID < |s.results| && s.results[c - env.startContextID].Some?
  }

  /** What holds between rounds, in terms of the state alone. */
  ghost predicate Safe(env: Env, s: State) {
    && s.fault.None?
    && WellFormed(s.locks)
    && (forall e, c :: e in s.locks && Touches(e, c) ==>
          c in s.execs && e.frame in s.execs[c].callStack && !HasReceipt(env, s, c))
    && (forall c :: c in s.execs ==> StackOk(s.execs[c]))
    && s.gasUsed == GasSum(s.results) % WORD
    && NoDuplicates(s.written) && (forall i :: i in s.written <==> 0 <= i < |s.results| && s.results[i].Some?)
  }

  lemma InvariantIsSafe(env: Env, s: State)
    requires Invariant(env, s)
    ensures Safe(env, s)
  {
    var pl: Places :| Inv(env, s, pl) && NoTransit(pl);
    forall e, c | e in s.locks && Touches(e, c)
      ensures c in s.execs && e.frame in s.execs[c].callStack && !HasReceipt(env, s, c)
    {
      assert ExecOk(env, s.execs[c], pl[c], c);
    }
    forall c | c in s.execs ensures StackOk(s.execs[c]) {
      assert ExecOk(env, s.execs[c], pl[c], c);
    }
  }

  /** Over every run: no exception and no failed assertion; keys have one owner and nobody
      waits for a key it holds; lock edges carry frames still on their context's stack, so
      every owner is an unfinished transaction; call stacks are strictly increasing and below
      currentSeq; gas used is the sum over the receipts; no result slot is written twice. */
  lemma RunIsSafe(env: Env, tr: seq<State>, i: nat)
    requires IsRun(env, tr) && i < |tr|
    ensures Safe(env, tr[i])
  {
    hide Invariant, Safe;
    RunKeepsInvariant(env, tr, i);
    InvariantIsSafe(env, tr[i]);
  }

  /** What serialPrepareExecutor hands to the parallel part. */
  ghost predicate ReadyToSend(env: Env, p: State) {
    && p.fault.None?
    && (forall a, c :: a in p.pools && c in p.pools[a].needSend ==>
          c in p.execs && !p.execs[c].moved && AtTop(p.execs[c]) && p.execs[c].message.to == a)
    && (AllFinished(p) || exists a :: a in p.pools && p.pools[a].needSend != {})
  }

  lemma ScheduledIsReady(env: Env, p: State, pl: Places)
    requires Scheduled(env, p, pl)
    ensures ReadyToSend(env, p)
  {
    hide Inv;
    NoFault(env, p, pl);
    forall a, c | a in p.pools && c in p.pools[a].needSend
      ensures c in p.execs && !p.execs[c].moved && AtTop(p.execs[c]) && p.execs[c].message.to == a
    {
      ReadyIsExec(env, p, pl, a, c);
    }
    if c :| c in pl && pl[c].Ready? {
      ReadyInPool(env, p, pl, c);
    } else {
      DoneIsFinished(env, p, pl);
    }
  }

  lemma ReadyInPool(env: Env, p: State, pl: Places, c: int)
    requires Inv(env, p, pl) && c in pl && pl[c].Ready?
    ensures exists a :: a in p.pools && p.pools[a].needSend != {}
  {
    var a := pl[c].at;
    assert PoolOk(p.pools[a], a, pl);
    assert c in p.pools[a].needSend;
  }

  lemma DoneIsFinished(env: Env, p: State, pl: Places)
    requires Inv(env, p, pl) && forall c :: c in pl ==> pl[c].Done?
    requires forall a :: a in p.pools ==> Leaving(p.pools[a]) == {}
    ensures AllFinished(p)
  {
    forall a | a in p.pools ensures Finished(p.pools[a]) {
      assert PoolOk(p.pools[a], a, pl);
      Inhabited(p.pools[a].pending);
      Inhabited(p.pools[a].hasLocked);
    }
  }

  /** Deadlock completeness and progress over every run: serialPrepareExecutor succeeds, the
      "no deadlock detected" exception included, every message it hands over carries the
      frame on top of its stack to the contract it is for, and unless all executors are
      finished at least one message is sent. */
  lemma EveryRoundSends(env: Env, tr: seq<State>, i: nat)
    requires IsRun(env, tr) && i < |tr|
    ensures Invariant(env, tr[i]) && ReadyToSend(env, SerialPrepare(env, tr[i]))
  {
    hide Invariant, Scheduled, ReadyToSend, SerialPrepare;
    RunKeepsInvariant(env, tr, i);
    var pl := SerialPrepareKeeps(env, tr[i]);
    ScheduledIsReady(env, SerialPrepare(env, tr[i]), pl);
  }

  /** The pools when the do-while loop of serialPrepareExecutor exits. */
  ghost predicate Partitioned(env: Env, s: State) {
    && (forall a :: a in s.pools ==>
          && s.pools[a].needPrepare == {} && s.pools[a].needScheduleOut == {} && s.pools[a].needRemove == {}
          && s.pools[a].pending == s.pools[a].needSend + s.pools[a].hasLocked
          && s.pools[a].needSend !! s.pools[a].hasLocked)
    && (forall a, b :: a in s.pools && b in s.pools && a != b ==> s.pools[a].pending * s.pools[b].pending == {})
    && (forall c :: c in s.execs ==> (!HasReceipt(env, s, c) <==> exists a :: a in s.pools && c in s.pools[a].pending))
    && (forall a, c :: a in s.pools && c in s.pools[a].hasLocked ==> c in s.execs && s.execs[c].message.typ == KEY_LOCK)
  }

  lemma LoopDonePool(env: Env, s: State, pl: Places, a: string)
    requires LoopDone(env, s, pl) && a in s.pools
    ensures s.pools[a].needPrepare == {} && s.pools[a].needScheduleOut == {} && s.pools[a].needRemove == {}
    ensures forall c :: c in s.pools[a].pending <==> c in s.pools[a].needSend || c in s.pools[a].hasLocked
    ensures s.pools[a].needSend !! s.pools[a].hasLocked
    ensures forall c :: c in s.pools[a].pending <==> c in pl && Home(pl[c], a)
    ensures forall c :: c in s.pools[a].hasLocked ==>
              c in pl && pl[c] == Locked(a) && c in s.execs && s.execs[c].message.typ == KEY_LOCK
  {
    hide RoutesOk, GrantsOk, ResultsOk, EdgesFollowStacks, WellFormed;
    var p := s.pools[a];
    assert Settled(p);
    assert PoolOk(p, a, pl);
    assert p.needScheduleOut <= Leaving(p) && p.needRemove <= Leaving(p);
    forall c | c in p.hasLocked
      ensures c in pl && pl[c] == Locked(a) && c in s.execs && s.execs[c].message.typ == KEY_LOCK
    {
      assert c in p.pending && c !in Leaving(p);
      assert Home(pl[c], a) && c !in p.needPrepare && c !in p.needSend;
      assert ExecOk(env, s.execs[c], pl[c], c);
    }
  }

  lemma LoopDoneContext(env: Env, s: State, pl: Places, c: int)
    requires LoopDone(env, s, pl) && c in s.execs
    ensures c in pl && (HasReceipt(env, s, c) <==> pl[c].Done?)
    ensures pl[c].Done? || (pl[c].at in s.pools && Home(pl[c], pl[c].at))
  {
    hide ExecOk, RoutesOk, GrantsOk, EdgesFollowStacks, WellFormed, PoolOk, GasSum, Settled;
    assert c in s.execs.Keys;
  }

  lemma LoopDoneIsPartitioned(env: Env, s: State, pl: Places)
    requires LoopDone(env, s, pl)
    ensures Partitioned(env, s)
  {
    hide LoopDone;
    forall a | a in s.pools
      ensures s.pools[a].needPrepare == {} && s.pools[a].needScheduleOut == {} && s.pools[a].needRemove == {}
      ensures s.pools[a].pending == s.pools[a].needSend + s.pools[a].hasLocked
              && s.pools[a].needSend !! s.pools[a].hasLocked
    {
      LoopDonePool(env, s, pl, a);
      SameElements(s.pools[a].pending, s.pools[a].needSend + s.pools[a].hasLocked);
    }
    forall a, b | a in s.pools && b in s.pools && a != b ensures s.pools[a].pending * s.pools[b].pending == {} {
      LoopDonePool(env, s, pl, a);
      LoopDonePool(env, s, pl, b);
      NothingInCommon(s.pools[a].pending, s.pools[b].pending);
    }
    forall c | c in s.execs ensures !HasReceipt(env, s, c) <==> exists a :: a in s.pools && c in s.pools[a].pending {
      LoopDoneContext(env, s, pl, c);
      if a :| a in s.pools && c in s.pools[a].pending { LoopDonePool(env, s, pl, a); }
      if !pl[c].Done? { LoopDonePool(env, s, pl, pl[c].at); }
    }
    forall a, c | a in s.pools && c in s.pools[a].hasLocked ensures c in s.execs && s.execs[c].message.typ == KEY_LOCK {
      LoopDonePool(env, s, pl, a);
    }
  }

  /** Pool partition over every run: when the loop exits every unfinished context is in one
      pool, either to be sent or locked on a key, and no other hint is left. */
  lemma PoolsArePartitioned(env: Env, tr: seq<State>, i: nat)
    requires IsRun(env, tr) && i < |tr|
    ensures Invariant(env, tr[i]) && Partitioned(env, SerialLoop(env, tr[i]))
  {
    hide Inv, LoopDone, Partitioned, SerialLoop, Progress, IsRun;
    RunKeepsInvariant(env, tr, i);
    var pl0: Places :| Inv(env, tr[i], pl0) && NoTransit(pl0);
    var pl := SerialLoopKeeps(env, tr[i], pl0);
    LoopDoneIsPartitioned(env, SerialLoop(env, tr[i]), pl);
  }

  // ----- every round -----

  /** Over every run: a round sends each executor one batch with the messages of its pool in
      the order of their contexts, each with the keys of the contract that others hold, and the
      outputs replace those messages and go to the pools of the contracts they are for. */
  lemma EveryRoundExchanges(env: Env, tr: seq<State>, i: nat)
    requires IsRun(env, tr) && i + 1 < |tr|
    ensures Invariant(env, tr[i])
    ensures tr[i + 1] == SerialPrepare(env, tr[i]) || Exchanges(env, SerialPrepare(env, tr[i]), tr[i + 1])
  {
    hide Invariant, SerialPrepare, RoundResult, Exchanges, Starts, Legal, Play, Sendable, Answers, Scheduled;
    RunKeepsInvariant(env, tr, i);
    var j := i + 1;
    assert Steps(env, tr[i], tr[j]);
    if tr[j] != SerialPrepare(env, tr[i]) {
      var events :| RoundBy(env, tr[i], events, tr[j]);
      RoundByExchanges(env, tr[i], events, tr[j]);
    }
  }

  lemma RoundByExchanges(env: Env, s: State, events: seq<Event>, s': State)
    requires Invariant(env, s) && RoundBy(env, s, events, s')
    ensures Exchanges(env, SerialPrepare(env, s), s')
  {
    hide Inv, Invariant, Legal, Play, EnvOk, SerialPrepare, RoundResult, Sendable, Answers, Exchanges;
    RoundByKeeps(env, s, events, s');
    var p := SerialPrepare(env, s);
    var pl := SerialPrepareKeeps(env, s);
    ScheduledIsSendable(env, p, pl);
    AnswersHold(env, p);
    RoundExchanges(env, p, pl);
  }

  // ----- every message is handled -----

  /** The set of its pool that a handled message is in, or the receipt it has become. */
  ghost predicate FiledIn(env: Env, s: State, e: Executive, to: string, c: int) {
    match e.message.typ
    case KEY_LOCK => to in s.pools && c in s.pools[to].hasLocked
    case FINISHED | REVERT =>
      if |e.callStack| == 1 then HasReceipt(env, s, c) else to in s.pools && c in s.pools[to].needSend
    case MESSAGE | TXHASH | SEND_BACK => to in s.pools && c in s.pools[to].needSend
  }

  /** What the loop does to every transaction. */
  ghost predicate AllHandled(env: Env, s: State, s': State) {
    && s'.execs.Keys == s.execs.Keys
    && (forall c :: c in s.execs && c in Unprepared(s) ==>
          && Turns(env, s.execs[c], s'.execs[c])
          && FiledIn(env, s', s.execs[c], s'.execs[c].message.to, c)
          && HoldsClaims(s'.locks, s.execs[c].message, c))
    && (forall c :: c in s.execs && c !in Unprepared(s) ==>
          s'.execs[c] == s.execs[c] && KeepsEdges(s.locks, s'.locks, c))
  }

  lemma DoneHasReceipt(env: Env, s: State, pl: Places, c: int)
    requires Inv(env, s, pl) && c in pl && pl[c].Done?
    ensures HasReceipt(env, s, c)
  {
    hide PoolsOk, ExecsOk, RoutesOk, GrantsOk, EdgesFollowStacks, WellFormed, GasSum, NoDuplicates;
  }

  lemma InItsSet(pools: map<string, Pool>, pl: Places, c: int)
    requires PoolsOk(pools, pl) && c in pl && !pl[c].Done?
    ensures pl[c].at in pools
    ensures pl[c].Locked? ==> c in pools[pl[c].at].hasLocked
    ensures pl[c].Ready? ==> c in pools[pl[c].at].needSend
  {
    assert PoolOk(pools[pl[c].at], pl[c].at, pl);
  }

  lemma FiledThere(env: Env, s: State, pl: Places, e: Executive, to: string, c: int)
    requires Inv(env, s, pl) && c in pl && Lands(e, to, pl[c])
    ensures FiledIn(env, s, e, to, c)
  {
    hide Inv;
    if pl[c].Done? {
      DoneHasReceipt(env, s, pl, c);
    } else {
      PoolsHold(env, s, pl);
      InItsSet(s.pools, pl, c);
    }
  }

  lemma ProgressIsHandling(env: Env, s: State, pl: Places, s': State, pl': Places)
    requires Inv(env, s, pl) && NoTransit(pl) && LoopDone(env, s', pl') && Progress(env, s, pl, s', pl')
    ensures AllHandled(env, s, s')
  {
    hide Inv, Turns, Forwards, HoldsClaims, KeepsEdges, Lands, FiledIn;
    UnpreparedIsWaiting(env, s, pl);
    forall c | c in s.execs && c in Unprepared(s)
      ensures Turns(env, s.execs[c], s'.execs[c])
      ensures FiledIn(env, s', s.execs[c], s'.execs[c].message.to, c)
      ensures HoldsClaims(s'.locks, s.execs[c].message, c)
    {
      assert ProgressOf(env, s, pl, s', pl', c);
      FiledThere(env, s', pl', s.execs[c], s'.execs[c].message.to, c);
    }
    forall c | c in s.execs && c !in Unprepared(s)
      ensures s'.execs[c] == s.execs[c] && KeepsEdges(s.locks, s'.locks, c)
    {
      assert ProgressOf(env, s, pl, s', pl', c);
    }
  }

  /** Over every run: the do-while loop handles every message that waits to be prepared once,
      at the contract it is for, and afterwards its context holds the keys the message reports;
      it leaves the other transactions and their lock edges alone. */
  lemma EveryMessageIsHandled(env: Env, tr: seq<State>, i: nat)
    requires IsRun(env, tr) && i < |tr|
    ensures Invariant(env, tr[i]) && AllHandled(env, tr[i], SerialLoop(env, tr[i]))
  {
    hide Inv, LoopDone, AllHandled, SerialLoop, Progress, IsRun;
    RunKeepsInvariant(env, tr, i);
    var pl0: Places :| Inv(env, tr[i], pl0) && NoTransit(pl0);
    var pl := SerialLoopKeeps(env, tr[i], pl0);
    ProgressIsHandling(env, tr[i], pl0, SerialLoop(env, tr[i]), pl);
  }

  // ----- locked contexts -----

  predicate LockedAt(s: State, a: string, c: int) {
    a in s.pools && c in s.pools[a].hasLocked
  }

  /** What a locked context gets: its key, if nobody held it and no locked context ahead gets
      it, and otherwise a wait for a key that somebody else holds. */
  ghost predicate RetryOf(s: State, s': State, a: string, c: int)
    requires c in s.execs
  {
    var m := s.execs[c].message;
    var k := Wanted(m);
    && Answer(s'.locks, m, c, Sends(s', a, c))
    && (Sends(s', a, c) <==>
          && !HeldByOther(s.locks, k, c)
          && forall b, d :: LockedAt(s, b, d) && d in s.execs && Wanted(s.execs[d].message) == k && Ahead(b, d, a, c)
               ==> !Sends(s', b, d))
  }

  /** What unlockPrepare does on all the pools. */
  ghost predicate AllRetried(s: State, s': State) {
    && s' == s.(pools := s'.pools, locks := s'.locks) && s'.pools.Keys == s.pools.Keys
    && (forall a :: a in s.pools ==> OnlyNeedSend(s.pools[a], s'.pools[a]))
    && (forall a, c :: Sends(s', a, c) && !Sends(s, a, c) ==> LockedAt(s, a, c))
    && (forall a, c :: LockedAt(s, a, c) ==> c in s.execs && RetryOf(s, s', a, c))
    && (forall x :: x in s'.locks && x !in s.locks ==>
          exists a, c :: LockedAt(s, a, c) && c in s.execs && x == RetryEdge(s.execs[c].message, c, Sends(s', a, c)))
    && (forall x :: x in s.locks && x !in s'.locks ==>
          exists a, c :: LockedAt(s, a, c) && c in s.execs && Sends(s', a, c) && x.source == Context(c)
                         && x.target == Key(Wanted(s.execs[c].message)))
  }

  /** The sets of the pools show the places. */
  ghost predicate Shown(s: State, pl: Places, s': State, pl': Places) {
    && (forall a, c :: LockedAt(s, a, c) <==> c in pl && pl[c] == Locked(a))
    && (forall a, c :: Sends(s, a, c) <==> c in pl && pl[c] == Ready(a))
    && (forall a, c :: Sends(s', a, c) <==> c in pl' && pl'[c] == Ready(a))
  }

  lemma PlacesAreShown(env: Env, s: State, pl: Places, s': State, pl': Places)
    requires LoopDone(env, s, pl) && Inv(env, s', pl')
    ensures Shown(s, pl, s', pl')
  {
    hide Inv, Settled;
    PoolsHold(env, s, pl);
    PoolsHold(env, s', pl');
    SendsAreReady(s, pl);
    SendsAreReady(s', pl');
    hide PoolOk;
    forall a, c ensures LockedAt(s, a, c) <==> c in pl && pl[c] == Locked(a) {
      if a in s.pools {
        LoopDonePool(env, s, pl, a);
      }
      if c in pl && pl[c] == Locked(a) {
        InItsSet(s.pools, pl, c);
      }
    }
  }

  lemma SendsAreReady(s: State, pl: Places)
    requires PoolsOk(s.pools, pl)
    ensures forall a, c :: Sends(s, a, c) <==> c in pl && pl[c] == Ready(a)
  {
    forall a, c ensures Sends(s, a, c) <==> c in pl && pl[c] == Ready(a) {
      if a in s.pools { assert PoolOk(s.pools[a], a, pl); }
    }
  }

  lemma RetryIsShown(env: Env, s: State, pl: Places, s': State, pl': Places, a: string, c: int)
    requires UnlockEffect(env, s, pl, LockedSet(pl), s', pl') && Shown(s, pl, s', pl')
    requires c in pl && pl[c] == Locked(a)
    ensures c in s.execs && RetryOf(s, s', a, c)
  {
    hide Inv, HeldByOther, Wanted, Below, OnlyRetries;
    var k := Wanted(s.execs[c].message);
    assert c in LockedSet(pl) && (pl'[c].Ready? <==> Sends(s', a, c));
    if pl'[c].Ready? {
      forall b, d | LockedAt(s, b, d) && d in s.execs && Wanted(s.execs[d].message) == k && Ahead(b, d, a, c)
        ensures !Sends(s', b, d)
      {
        assert d in LockedSet(pl) && Precedes(pl, d, c);
      }
    } else if !HeldByOther(s.locks, k, c) {
      var d :| d in LockedSet(pl) && d in pl && Wanted(s.execs[d].message) == k && Precedes(pl, d, c) && pl'[d].Ready?;
      assert LockedAt(s, pl[d].at, d) && Sends(s', pl[d].at, d);
    }
  }

  lemma EdgesAreShown(env: Env, s: State, pl: Places, s': State, pl': Places)
    requires UnlockEffect(env, s, pl, LockedSet(pl), s', pl') && Shown(s, pl, s', pl')
    ensures forall x :: x in s'.locks && x !in s.locks ==>
              exists a, c :: LockedAt(s, a, c) && c in s.execs && x == RetryEdge(s.execs[c].message, c, Sends(s', a, c))
    ensures forall x :: x in s.locks && x !in s'.locks ==>
              exists a, c :: LockedAt(s, a, c) && c in s.execs && Sends(s', a, c) && x.source == Context(c)
                             && x.target == Key(Wanted(s.execs[c].message))
  {
    hide Inv, HeldByOther, Wanted, FirstCome, Answered, RetryEdge;
    forall x | x in s'.locks && x !in s.locks
      ensures exists a, c :: LockedAt(s, a, c) && c in s.execs
                             && x == RetryEdge(s.execs[c].message, c, Sends(s', a, c))
    {
      var c :| c in LockedSet(pl) && c in pl && x == RetryEdge(s.execs[c].message, c, pl'[c].Ready?);
      assert LockedAt(s, pl[c].at, c) && (pl'[c].Ready? <==> Sends(s', pl[c].at, c));
    }
    forall x | x in s.locks && x !in s'.locks
      ensures exists a, c :: LockedAt(s, a, c) && c in s.execs && Sends(s', a, c) && x.source == Context(c)
                             && x.target == Key(Wanted(s.execs[c].message))
    {
      var c :| c in LockedSet(pl) && c in pl && pl'[c].Ready? && x.source == Context(c)
               && x.target == Key(Wanted(s.execs[c].message));
      assert LockedAt(s, pl[c].at, c) && Sends(s', pl[c].at, c);
    }
  }

  lemma EffectIsRetry(env: Env, s: State, pl: Places, s': State, pl': Places)
    requires LoopDone(env, s, pl) && UnlockEffect(env, s, pl, LockedSet(pl), s', pl')
    ensures AllRetried(s, s')
  {
    hide Inv, RetryOf, OnlyRetries, FirstCome, Answered, RetryEdge, LockedAt, Sends;
    PlacesAreShown(env, s, pl, s', pl');
    EdgesAreShown(env, s, pl, s', pl');
    forall a, c | LockedAt(s, a, c) ensures c in s.execs && RetryOf(s, s', a, c) {
      RetryIsShown(env, s, pl, s', pl', a, c);
    }
  }

  /** Over every run: unlockPrepare gives each locked context its key or leaves it waiting, in
      the order of the DMC lock priority; and when there is still nothing to send, exactly one
      context changes, the first deadlocked one: its wait becomes a revert that is sent. */
  lemma LockedContextsRetry(env: Env, tr: seq<State>, i: nat)
    requires IsRun(env, tr) && i < |tr|
    ensures Invariant(env, tr[i])
    ensures var s := SerialLoop(env, tr[i]);
            var s' := UnlockAll(s, SortStrings(s.pools.Keys));
            AllRetried(s, s') && StallBroken(s', SerialPrepare(env, tr[i]))
  {
    hide Inv, LoopDone, AllRetried, StallBroken, SerialLoop, Progress, IsRun, UnlockEffect, UnlockAll, HandleLocked;
    hide Settled, PoolsOk;
    RunKeepsInvariant(env, tr, i);
    var pl0: Places :| Inv(env, tr[i], pl0) && NoTransit(pl0);
    var pl := SerialLoopKeeps(env, tr[i], pl0);
    var s := SerialLoop(env, tr[i]);
    var pl2 := HandleLockedKeeps(env, s, pl);
    var pl1 := UnlockTakesEffect(env, s, pl);
    EffectIsRetry(env, s, pl, UnlockAll(s, SortStrings(s.pools.Keys)), pl1);
  }

  // ----- conservation -----

  /** Every receipt describes the message of its own transaction. */
  ghost predicate ReceiptsDescribe(env: Env, s: State) {
    forall c :: c in s.execs && HasReceipt(env, s, c) ==>
      Describes(env, s.execs[c].message, s.results[c - env.startContextID].value)
  }

  lemma InvDescribes(env: Env, s: State, pl: Places)
    requires Inv(env, s, pl)
    ensures ReceiptsDescribe(env, s)
  {
    hide Inv, Describes;
    forall c | c in s.execs && HasReceipt(env, s, c)
      ensures Describes(env, s.execs[c].message, s.results[c - env.startContextID].value)
    {
      DoneDescribes(env, s, pl, c);
    }
  }

  lemma DoneDescribes(env: Env, s: State, pl: Places, c: int)
    requires Inv(env, s, pl) && c in s.execs && HasReceipt(env, s, c)
    ensures Describes(env, s.execs[c].message, s.results[c - env.startContextID].value)
  {
    hide PoolsOk, RoutesOk, GrantsOk, EdgesFollowStacks, WellFormed, Describes, StackOk, GasSum, NoDuplicates;
    assert c in pl.Keys;
    assert ExecOk(env, s.execs[c], pl[c], c);
  }

  /** When every executor is finished each transaction has one receipt in its own slot that
      describes its last message, every slot was written once, the gas is the sum over all
      receipts, and no lock is left. */
  ghost predicate Complete(env: Env, s: State) {
    && (forall c :: c in s.execs <==> 0 <= c - env.startContextID < |s.results|)
    && (forall i :: 0 <= i < |s.results| ==> s.results[i].Some?)
    && NoDuplicates(s.written) && (forall i :: i in s.written <==> 0 <= i < |s.results|)
    && ReceiptsDescribe(env, s)
    && s.gasUsed == GasSum(s.results) % WORD
    && s.locks == {}
  }

  lemma AllDone(env: Env, s: State, pl: Places)
    requires Scheduled(env, s, pl) && AllFinished(s)
    ensures forall c :: c in pl ==> pl[c].Done?
  {
    hide Inv;
    forall c | c in pl ensures pl[c].Done? {
      if !pl[c].Done? {
        PendingAtHome(env, s, pl, c);
        assert false;
      }
    }
  }

  lemma OwnerIsLive(env: Env, s: State, pl: Places, e: Edge) returns (c: int)
    requires Inv(env, s, pl) && e in s.locks
    ensures c in pl && !pl[c].Done?
  {
    assert e.source.Key? != e.target.Key?;
    c := if e.source.Context? then e.source.id else e.target.id;
    assert Touches(e, c);
    assert ExecOk(env, s.execs[c], pl[c], c);
  }

  lemma ReceiptsOf(env: Env, s: State, pl: Places)
    requires Inv(env, s, pl) && forall c :: c in pl ==> pl[c].Done?
    ensures forall i :: 0 <= i < |s.results| ==> s.results[i].Some?
    ensures forall c :: c in s.execs <==> 0 <= c - env.startContextID < |s.results|
    ensures NoDuplicates(s.written) && (forall i :: i in s.written <==> 0 <= i < |s.results|)
    ensures s.gasUsed == GasSum(s.results) % WORD
  {
    forall i | 0 <= i < |s.results| ensures s.results[i].Some? {
      var c := env.startContextID + i;
      assert c in pl && s.results[c - env.startContextID].Some?;
    }
  }

  lemma AllFinishedIsComplete(env: Env, s: State, pl: Places)
    requires Scheduled(env, s, pl) && AllFinished(s)
    ensures Complete(env, s)
  {
    hide Inv;
    AllDone(env, s, pl);
    ReceiptsOf(env, s, pl);
    InvDescribes(env, s, pl);
    forall e | e in s.locks ensures false {
      var c := OwnerIsLive(env, s, pl, e);
    }
  }

  lemma PendingAtHome(env: Env, s: State, pl: Places, c: int)
    requires Inv(env, s, pl) && NoTransit(pl) && c in pl && !pl[c].Done?
    ensures pl[c].at in s.pools && c in s.pools[pl[c].at].pending
  {
    var a := pl[c].at;
    assert PoolOk(s.pools[a], a, pl);
  }

  /** Conservation over every run. */
  lemma FinishedBlockIsComplete(env: Env, tr: seq<State>, i: nat)
    requires IsRun(env, tr) && i < |tr|
    ensures Invariant(env, tr[i])
            && (AllFinished(SerialPrepare(env, tr[i])) ==> Complete(env, SerialPrepare(env, tr[i])))
  {
    hide Invariant, Scheduled, Complete, SerialPrepare;
    RunKeepsInvariant(env, tr, i);
    var pl := SerialPrepareKeeps(env, tr[i]);
    if AllFinished(SerialPrepare(env, tr[i])) {
      AllFinishedIsComplete(env, SerialPrepare(env, tr[i]), pl);
    }
  }

  // ----- receipts -----

  /** Every receipt that p has and s has not describes the message that s holds for it. */
  ghost predicate ReceiptsTell(env: Env, s: State, p: State) {
    forall c :: c in s.execs && !HasReceipt(env, s, c) && HasReceipt(env, p, c) ==>
      Describes(env, s.execs[c].message, p.results[c - env.startContextID].value)
  }

  lemma CarriedReceipts(env: Env, s: State, p: State)
    requires Carries(s, p) && ReceiptsDescribe(env, p)
    ensures ReceiptsTell(env, s, p)
  {
    hide RecordGrows, StackEvolves;
    forall c | c in s.execs && !HasReceipt(env, s, c) && HasReceipt(env, p, c)
      ensures Describes(env, s.execs[c].message, p.results[c - env.startContextID].value)
    {
      assert SameContent(s.execs[c].message, p.execs[c].message);
    }
  }

  /** Over every run: a receipt written by serialPrepareExecutor describes the message that the
      executor of the transaction returned last, the one the state before it holds. */
  lemma ReceiptsTellTheOutcome(env: Env, tr: seq<State>, i: nat)
    requires IsRun(env, tr) && i < |tr|
    ensures Invariant(env, tr[i]) && ReceiptsTell(env, tr[i], SerialPrepare(env, tr[i]))
  {
    hide Invariant, SerialPrepare, Inv, Carries, ReceiptsDescribe, ReceiptsTell;
    RunKeepsInvariant(env, tr, i);
    var p := SerialPrepare(env, tr[i]);
    var pl := SerialPrepareKeeps(env, tr[i]);
    InvDescribes(env, p, pl);
    SerialPrepareCarries(env, tr[i]);
    CarriedReceipts(env, tr[i], p);
  }

  /** Over every run: every receipt describes its transaction and is never changed. */
  lemma ReceiptsAreFinal(env: Env, tr: seq<State>, i: nat, j: nat, c: int)
    requires IsRun(env, tr) && i <= j < |tr| && HasReceipt(env, tr[i], c)
    ensures HasReceipt(env, tr[j], c)
    ensures tr[j].results[c - env.startContextID] == tr[i].results[c - env.startContextID]
    ensures c in tr[j].execs
    ensures Describes(env, tr[j].execs[c].message, tr[i].results[c - env.startContextID].value)
  {
    hide IsRun, Inv, Safe, Evolves, ReceiptsDescribe;
    var slot := c - env.startContextID;
    RunIsSafe(env, tr, i);
    RunIsSafe(env, tr, j);
    FramesAreNeverReused(env, tr, i, j);
    RunKeepsInvariant(env, tr, j);
    var pl: Places :| Inv(env, tr[j], pl) && NoTransit(pl);
    WrittenOnce(env, tr[i], tr[j], slot);
    SlotHasContext(env, tr[j], pl, c);
    DoneDescribes(env, tr[j], pl, c);
  }

  lemma SlotHasContext(env: Env, s: State, pl: Places, c: int)
    requires Inv(env, s, pl) && 0 <= c - env.startContextID < |s.results|
    ensures c in s.execs
  {
    assert c in pl;
  }

  lemma WrittenOnce(env: Env, s: State, s': State, slot: int)
    requires Safe(env, s) && Safe(env, s') && Evolves(s, s') && 0 <= slot < |s.results| && s.results[slot].Some?
    ensures |s'.results| == |s.results| && s'.results[slot] == s.results[slot]
  {
    hide StackEvolves, GasSum, WellFormed;
    assert slot in s.written;
    var k :| 0 <= k < |s.written| && s.written[k] == slot;
    assert s'.written[k] == slot;
  }

  // ----- frames are never reused -----

  lemma StepEvolves(env: Env, s: State, s': State)
    requires Invariant(env, s) && Steps(env, s, s')
    ensures Evolves(s, s')
  {
    hide Invariant, Evolves, SerialPrepare, RoundBy, RoundResult;
    SerialPrepareCarries(env, s);
    if s' != SerialPrepare(env, s) {
      var events :| RoundBy(env, s, events, s');
      RoundByKeeps(env, s, events, s');
      RoundEvolves(env, SerialPrepare(env, s));
      EvolvesTransitive(s, SerialPrepare(env, s), s');
    }
  }

  /** Over every run: a frame on a call stack was already there, or carries a number that had
      not been given out before. */
  lemma {:induction false} FramesAreNeverReused(env: Env, tr: seq<State>, i: nat, j: nat)
    requires IsRun(env, tr) && i <= j < |tr|
    ensures Evolves(tr[i], tr[j])
    decreases j - i
  {
    hide Invariant, Steps, Evolves;
    if i == j {
      EvolvesToItself(tr[i]);
    } else {
      FramesAreNeverReused(env, tr, i, j - 1);
      RunKeepsInvariant(env, tr, j - 1);
      assert Steps(env, tr[j - 1], tr[j]);
      StepEvolves(env, tr[j - 1], tr[j]);
      EvolvesTransitive(tr[i], tr[j - 1], tr[j]);
    }
  }

  // ----- determinism -----

  /** A block executed in rounds, with the interleaving of each round. */
  ghost predicate Execution(env: Env, tr: seq<State>, schedules: seq<seq<Event>>) {
    && |tr| == |schedules| + 1 && Invariant(env, tr[0])
    && forall i, j :: 0 <= i < |schedules| && j == i + 1 ==>
         (Invariant(env, tr[i]) ==> RoundBy(env, tr[i], schedules[i], tr[j]))
  }

  /** The block ends here: after the next preparation all executors are finished. */
  ghost predicate Ends(env: Env, s: State) {
    Invariant(env, s) ==> AllFinished(SerialPrepare(env, s))
  }

  lemma {:induction false} ExecutionKeeps(env: Env, tr: seq<State>, schedules: seq<seq<Event>>, i: nat)
    requires Execution(env, tr, schedules) && i < |tr|
    ensures Invariant(env, tr[i])
    ensures i < |schedules| ==> tr[i + 1] == RoundResult(env, SerialPrepare(env, tr[i])) && !Ends(env, tr[i])
    decreases i
  {
    hide Invariant, RoundBy, SerialPrepare, RoundResult, AllFinished;
    if i > 0 {
      ExecutionKeeps(env, tr, schedules, i - 1);
      RoundByKeeps(env, tr[i - 1], schedules[i - 1], tr[i]);
    }
    if i < |schedules| {
      var j := i + 1;
      RoundByKeeps(env, tr[i], schedules[i], tr[j]);
    }
  }

  lemma {:induction false} SameStates(env: Env, tr: seq<State>, schedules: seq<seq<Event>>,
                                      tr': seq<State>, schedules': seq<seq<Event>>, i: nat)
    requires Execution(env, tr, schedules) && Execution(env, tr', schedules') && tr[0] == tr'[0]
    requires i < |tr| && i < |tr'|
    ensures tr[i] == tr'[i]
    decreases i
  {
    hide Invariant, RoundBy, SerialPrepare, RoundResult, Execution, Ends;
    if i > 0 {
      SameStates(env, tr, schedules, tr', schedules', i - 1);
      ExecutionLength(env, tr, schedules);
      ExecutionLength(env, tr', schedules');
      ExecutionKeeps(env, tr, schedules, i - 1);
      ExecutionKeeps(env, tr', schedules', i - 1);
    }
  }

  lemma ExecutionLength(env: Env, tr: seq<State>, schedules: seq<seq<Event>>)
    requires Execution(env, tr, schedules)
    ensures |tr| == |schedules| + 1
  {
    hide Invariant, RoundBy;
  }

  /** Determinism: two executions of the same block by the same executors, whatever the
      interleavings of their rounds, go through the same states, and if both have run to the
      end they take the same number of rounds. */
  lemma BlockIsDeterministic(env: Env, tr: seq<State>, schedules: seq<seq<Event>>,
                             tr': seq<State>, schedules': seq<seq<Event>>)
    requires Execution(env, tr, schedules) && Execution(env, tr', schedules') && tr[0] == tr'[0]
    ensures forall i :: 0 <= i < |tr| && i < |tr'| ==> tr[i] == tr'[i]
    ensures Ends(env, tr[|tr| - 1]) && Ends(env, tr'[|tr'| - 1]) ==> tr == tr'
  {
    hide Execution, Ends, SerialPrepare, RoundResult, Invariant;
    ExecutionLength(env, tr, schedules);
    ExecutionLength(env, tr', schedules');
    forall i | 0 <= i < |tr| && i < |tr'| ensures tr[i] == tr'[i] {
      SameStates(env, tr, schedules, tr', schedules', i);
    }
    if Ends(env, tr[|tr| - 1]) && Ends(env, tr'[|tr'| - 1]) {
      if |tr| < |tr'| {
        ExecutionKeeps(env, tr', schedules', |tr| - 1);
        assert false;
      } else if |tr'| < |tr| {
        ExecutionKeeps(env, tr, schedules, |tr'| - 1);
        assert false;
      }
    }
  }
}
