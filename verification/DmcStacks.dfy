/** What happens over time: sequence numbers only grow, a frame that appears on a call stack
    has a number that was never used before, a result slot changes only by being written, and
    the serial part of a round leaves what a message carries alone. */
module DmcStacks {
  import opened Ordering
  import opened LockGraph
  import opened Options
  import opened Dmc
  import opened DmcInvariant
  import opened DmcTurns
  import opened DmcPass
  import opened DmcSchedule
  import opened DmcRound

  /** Later frames are old ones or new numbers. */
  ghost predicate StackEvolves(e: Executive, e': Executive) {
    e.currentSeq <= e'.currentSeq && forall f :: f in e'.callStack ==> f in e.callStack || e.currentSeq <= f
  }

  /** The record of written slots grows, and every slot that changed is among the new ones. */
  ghost predicate RecordGrows(s: State, s': State) {
    && |s'.results| == |s.results| && |s.written| <= |s'.written|
    && (forall j :: 0 <= j < |s.written| ==> s'.written[j] == s.written[j])
    && (forall i :: 0 <= i < |s.results| && s'.results[i] != s.results[i] ==>
          exists j :: |s.written| <= j < |s'.written| && s'.written[j] == i)
  }

  ghost predicate Evolves(s: State, s': State) {
    && RecordGrows(s, s')
    && forall c :: c in s.execs ==> c in s'.execs && StackEvolves(s.execs[c], s'.execs[c])
  }

  lemma RecordGrowsOn(s: State, s1: State, s2: State)
    requires RecordGrows(s, s1) && RecordGrows(s1, s2)
    ensures RecordGrows(s, s2)
  {
    forall i | 0 <= i < |s.results| && s2.results[i] != s.results[i]
      ensures exists j :: |s.written| <= j < |s2.written| && s2.written[j] == i
    {
      if s2.results[i] == s1.results[i] {
        var j :| |s.written| <= j < |s1.written| && s1.written[j] == i;
        assert s2.written[j] == i;
      }
    }
  }

  lemma EvolvesTransitive(s: State, s1: State, s2: State)
    requires Evolves(s, s1) && Evolves(s1, s2)
    ensures Evolves(s, s2)
  {
    RecordGrowsOn(s, s1, s2);
    hide RecordGrows;
    forall c | c in s.execs ensures c in s2.execs && StackEvolves(s.execs[c], s2.execs[c]) {
      assert StackEvolves(s.execs[c], s1.execs[c]) && StackEvolves(s1.execs[c], s2.execs[c]);
    }
  }

  lemma EvolvesToItself(s: State)
    ensures Evolves(s, s)
  {}

  /** The state evolves and no message changes its content. */
  ghost predicate Carries(s: State, s': State) {
    && Evolves(s, s')
    && forall c :: c in s.execs && c in s'.execs ==> SameContent(s.execs[c].message, s'.execs[c].message)
  }

  lemma CarriesTransitive(s: State, s1: State, s2: State)
    requires Carries(s, s1) && Carries(s1, s2)
    ensures Carries(s, s2)
  {
    EvolvesTransitive(s, s1, s2);
    hide RecordGrows, StackEvolves;
    forall c | c in s.execs ensures c in s2.execs && SameContent(s.execs[c].message, s2.execs[c].message) {
      assert SameContent(s.execs[c].message, s1.execs[c].message);
    }
  }

  predicate Untouched(s: State, s': State) {
    s'.execs == s.execs && s'.results == s.results && s'.written == s.written
  }

  lemma SameRecords(s: State, s': State)
    requires Untouched(s, s')
    ensures Carries(s, s')
  {}

  lemma CallCarries(s: State, c: int, e: Executive)
    requires c in s.execs && StackEvolves(s.execs[c], e) && SameContent(s.execs[c].message, e.message)
    ensures Carries(s, HandleCall(s, c, e).state)
  {
    hide AcquireAll;
    var e' := Executive(e.callStack + [e.currentSeq], e.currentSeq + 1, e.message.(frame := e.currentSeq), false);
    assert StackEvolves(s.execs[c], e');
  }

  lemma FinishGrows(env: Env, s: State, m: Message)
    ensures RecordGrows(s, OnTxFinish(env, s, m))
  {
    hide MakeReceipt;
    var s' := OnTxFinish(env, s, m);
    var slot := m.contextID - env.startContextID;
    if 0 <= slot < |s.results| {
      assert s'.written[|s.written|] == slot;
    }
  }

  lemma ReturnCarries(env: Env, s: State, c: int, e: Executive)
    requires c in s.execs && StackEvolves(s.execs[c], e) && SameContent(s.execs[c].message, e.message)
    ensures Carries(s, HandleReturn(env, s, c, e).state)
  {
    hide MakeReceipt;
    FinishGrows(env, SetExec(s, c, e.(callStack := [], moved := true)), e.message);
  }

  lemma WaitCarries(s: State, c: int, e: Executive)
    requires c in s.execs && StackEvolves(s.execs[c], e) && SameContent(s.execs[c].message, e.message)
    ensures Carries(s, HandleWait(s, c, e).state)
  {
    hide AcquireAll;
  }

  lemma HandleCarries(env: Env, s: State, a: string, c: int)
    requires c in s.execs
    ensures Carries(s, HandleExecutiveMessage(env, s, a, c).state)
  {
    hide HandleCall, HandleReturn, HandleWait;
    var e := HandleCreate(env, s.execs[c]);
    assert StackEvolves(s.execs[c], e);
    CallCarries(s, c, e);
    ReturnCarries(env, s, c, e);
    WaitCarries(s, c, e);
  }

  lemma PrepareOneCarries(env: Env, s: State, a: string, c: int)
    ensures Carries(s, PrepareOne(env, s, a, c))
  {
    if c in s.execs {
      HandleCarries(env, s, a, c);
    }
  }

  lemma {:induction false} PrepareEachCarries(env: Env, s: State, a: string, cs: seq<int>)
    ensures Carries(s, PrepareEach(env, s, a, cs))
    decreases |cs|
  {
    hide Carries, PrepareOne;
    if cs == [] {
      SameRecords(s, s);
    } else {
      var init := cs[..|cs| - 1];
      PrepareEachCarries(env, s, a, init);
      PrepareOneCarries(env, PrepareEach(env, s, a, init), a, cs[|cs| - 1]);
      CarriesTransitive(s, PrepareEach(env, s, a, init), PrepareEach(env, s, a, cs));
    }
  }

  lemma {:induction false} ScheduleEachSame(s: State, a: string, cs: seq<int>)
    ensures Untouched(s, ScheduleEach(s, a, cs))
    decreases |cs|
  {
    if cs != [] { ScheduleEachSame(s, a, cs[..|cs| - 1]); }
  }

  lemma PrepareCarries(env: Env, s: State, a: string)
    ensures Carries(s, Prepare(env, s, a).state)
  {
    hide Carries, PrepareEach, ScheduleEach;
    var s1 := RefreshAt(s, a);
    SameRecords(s, s1);
    PrepareEachCarries(env, s1, a, SortInts(PoolAt(s1, a).needPrepare));
    var s2 := HandleAll(env, s, a);
    CarriesTransitive(s, s1, s2);
    ScheduleEachSame(s2, a, SortInts(PoolAt(s2, a).needScheduleOut));
    SameRecords(s2, Prepare(env, s, a).state);
    CarriesTransitive(s, s2, Prepare(env, s, a).state);
  }

  lemma {:induction false} ReleaseEachSame(s: State, a: string, cs: seq<int>)
    ensures Untouched(s, ReleaseEach(s, a, cs))
    decreases |cs|
  {
    if cs != [] { ReleaseEachSame(s, a, cs[..|cs| - 1]); }
  }

  lemma {:induction false} ReleaseAllSame(s: State, addresses: seq<string>)
    ensures Untouched(s, ReleaseAll(s, addresses))
    decreases |addresses|
  {
    hide ReleaseEach;
    if addresses != [] {
      var s1 := ReleaseAll(s, addresses[..|addresses| - 1]);
      ReleaseAllSame(s, addresses[..|addresses| - 1]);
      ReleaseEachSame(s1, addresses[|addresses| - 1], SortInts(PoolAt(s1, addresses[|addresses| - 1]).needPrepare));
    }
  }

  lemma {:induction false} PrepareAllCarries(env: Env, s: State, addresses: seq<string>)
    ensures Carries(s, PrepareAll(env, s, addresses).state)
    decreases |addresses|
  {
    hide Carries, Prepare;
    if addresses == [] {
      SameRecords(s, s);
    } else {
      var before := PrepareAll(env, s, addresses[..|addresses| - 1]).state;
      PrepareAllCarries(env, s, addresses[..|addresses| - 1]);
      PrepareCarries(env, before, addresses[|addresses| - 1]);
      CarriesTransitive(s, before, PrepareAll(env, s, addresses).state);
    }
  }

  lemma PassCarries(env: Env, s: State)
    ensures Carries(s, Pass(env, s).state)
  {
    hide Carries, PrepareAll, ReleaseAll;
    var addresses := SortStrings(s.pools.Keys);
    ReleaseAllSame(s, addresses);
    SameRecords(s, ReleaseAll(s, addresses));
    PrepareAllCarries(env, ReleaseAll(s, addresses), addresses);
    CarriesTransitive(s, ReleaseAll(s, addresses), Pass(env, s).state);
  }

  lemma {:induction false} SerialLoopCarries(env: Env, s: State)
    requires Invariant(env, s)
    ensures Carries(s, SerialLoop(env, s))
    decreases |MisplacedSet(env, s)|
  {
    hide Carries, Pass, Invariant;
    LoopStep(env, s);
    PassCarries(env, s);
    var turn := Pass(env, s);
    if turn.scheduledOut {
      SerialLoopCarries(env, turn.state);
      CarriesTransitive(s, turn.state, SerialLoop(env, s));
    }
  }

  lemma {:induction false} UnlockEachSame(s: State, a: string, cs: seq<int>)
    ensures Untouched(s, UnlockEach(s, a, cs))
    decreases |cs|
  {
    if cs != [] { UnlockEachSame(s, a, cs[..|cs| - 1]); }
  }

  lemma {:induction false} UnlockAllSame(s: State, addresses: seq<string>)
    ensures Untouched(s, UnlockAll(s, addresses))
    decreases |addresses|
  {
    hide UnlockEach;
    if addresses != [] {
      var s1 := UnlockAll(s, addresses[..|addresses| - 1]);
      UnlockAllSame(s, addresses[..|addresses| - 1]);
      UnlockEachSame(s1, addresses[|addresses| - 1], SortInts(PoolAt(s1, addresses[|addresses| - 1]).hasLocked));
    }
  }

  lemma RevertCarries(s: State, a: string, c: int)
    requires c in s.execs
    ensures Carries(s, RevertVictim(s, a, c))
  {}

  lemma {:induction false} DetectCarries(s: State, addresses: seq<string>)
    ensures Carries(s, DetectAndRevert(s, addresses))
    decreases |addresses|
  {
    hide Carries, FirstVictim, RevertVictim;
    if addresses == [] {
      SameRecords(s, Fail(s, NoDeadlockDetected));
    } else {
      var victim := FirstVictim(s, addresses[0], SortInts(PoolAt(s, addresses[0]).hasLocked));
      if victim.Some? {
        RevertCarries(s, addresses[0], victim.value);
      } else {
        DetectCarries(s, addresses[1..]);
      }
    }
  }

  /** serialPrepareExecutor never reuses a frame number. */
  lemma SerialPrepareCarries(env: Env, s: State)
    requires Invariant(env, s)
    ensures Carries(s, SerialPrepare(env, s))
  {
    hide Carries, UnlockAll, DetectAndRevert, NeedDetectDeadlock, SerialLoop, Invariant;
    SerialLoopCarries(env, s);
    var s1 := SerialLoop(env, s);
    var addresses := SortStrings(s1.pools.Keys);
    var s2 := UnlockAll(s1, addresses);
    UnlockAllSame(s1, addresses);
    SameRecords(s1, s2);
    CarriesTransitive(s, s1, s2);
    if NeedDetectDeadlock(s2) {
      DetectCarries(s2, addresses);
      CarriesTransitive(s, s2, DetectAndRevert(s2, addresses));
    }
  }

  /** The parallel part of a round leaves every call stack alone. */
  lemma RoundEvolves(env: Env, s: State)
    ensures Evolves(s, RoundResult(env, s))
    ensures forall c :: c in s.execs ==> RoundResult(env, s).execs[c].callStack == s.execs[c].callStack
  {
    hide PoolAfter, Output, Outgoing, NextBatches, Sender;
    var s' := RoundResult(env, s);
    forall c | c in s.execs
      ensures c in s'.execs && s'.execs[c].callStack == s.execs[c].callStack && StackEvolves(s.execs[c], s'.execs[c])
    {
      assert s'.execs[c] == ExecAfter(env, s, s.pools.Keys, AllSent(s), c);
    }
  }
}
