/** ExecutivePool and BlockExecutive in place: the pools, executives, locks and results of a
    block as mutable fields, each operation proved to do what `Dmc` says. */
module BlockExecution {
  import opened Ordering
  import opened LockGraph
  import opened KeyLocks
  import opened Options
  import opened Dmc
  import opened DmcInvariant
  import opened DmcPrepare
  import opened DmcPass
  import opened DmcSchedule
  import opened DmcRound
  import opened DmcRun
  import opened DmcTheorems

  function Elements(xs: seq<int>): (r: set<int>) {
    set x | x in xs
  }

  lemma ElementsStep(xs: seq<int>, i: nat)
    requires i < |xs|
    ensures xs[..i + 1] == xs[..i] + [xs[i]] && Elements(xs[..i + 1]) == Elements(xs[..i]) + {xs[i]}
  {
    assert xs[..i + 1] == xs[..i] + [xs[i]];
  }

  lemma ElementsLeft(all: set<int>, xs: seq<int>, i: nat)
    requires i < |xs|
    ensures all - Elements(xs[..i]) - {xs[i]} == all - Elements(xs[..i + 1])
  {
    ElementsStep(xs, i);
    hide Elements;
  }

  lemma AllElements(s: set<int>)
    ensures Elements(SortInts(s)) == s
  {}

  lemma TwoSteps(x: set<int>, y: set<int>, z: set<int>)
    ensures x - y - z == x - (y + z)
  {}

  lemma CallIgnoresPools(s: State, pools: map<string, Pool>, c: int, e: Executive)
    ensures var h := Dmc.HandleCall(s, c, e);
            Dmc.HandleCall(s.(pools := pools), c, e) == Handled(h.state.(pools := pools), h.hint)
  {
    hide AcquireAll;
  }

  lemma ReturnIgnoresPools(env: Env, s: State, pools: map<string, Pool>, c: int, e: Executive)
    ensures var h := Dmc.HandleReturn(env, s, c, e);
            Dmc.HandleReturn(env, s.(pools := pools), c, e) == Handled(h.state.(pools := pools), h.hint)
  {
    hide MakeReceipt;
  }

  lemma WaitIgnoresPools(s: State, pools: map<string, Pool>, c: int, e: Executive)
    ensures var h := Dmc.HandleWait(s, c, e);
            Dmc.HandleWait(s.(pools := pools), c, e) == Handled(h.state.(pools := pools), h.hint)
  {
    hide AcquireAll;
  }

  /** handleExecutiveMessage does not look at the pools. */
  lemma HandleIgnoresPools(env: Env, s: State, pools: map<string, Pool>, a: string, c: int)
    requires c in s.execs
    ensures var h := Dmc.HandleExecutiveMessage(env, s, a, c);
            Dmc.HandleExecutiveMessage(env, s.(pools := pools), a, c) == Handled(h.state.(pools := pools), h.hint)
  {
    hide Dmc.HandleCall, Dmc.HandleReturn, Dmc.HandleWait, HandleCreate;
    var e := HandleCreate(env, s.execs[c]);
    assert s.(pools := pools).execs == s.execs;
    assert SetExec(s.(pools := pools), c, e) == SetExec(s, c, e).(pools := pools);
    CallIgnoresPools(s, pools, c, e);
    ReturnIgnoresPools(env, s, pools, c, e);
    WaitIgnoresPools(s, pools, c, e);
  }

  class ExecutivePool {
    var pending: set<int>
    var needPrepare: set<int>
    var hasLocked: set<int>
    var needSend: set<int>
    var needScheduleOut: set<int>
    var needRemove: set<int>

    ghost function View(): (p: Pool)
      reads this
    {
      Pool(pending, needPrepare, hasLocked, needSend, needScheduleOut, needRemove)
    }

    constructor ()
      ensures View() == EMPTY_POOL
    {
      pending, needPrepare, hasLocked, needSend, needScheduleOut, needRemove := {}, {}, {}, {}, {}, {};
    }

    /** add; the result says whether the context was not waiting to be prepared before. */
    method Add(contextID: int) returns (inserted: bool)
      modifies this
      ensures View() == Dmc.Add(old(View()), contextID)
      ensures inserted <==> contextID !in old(needPrepare)
    {
      pending := pending + {contextID};
      inserted := contextID !in needPrepare;
      needPrepare := needPrepare + {contextID};
    }

    /** markAs */
    method MarkAs(contextID: int, hint: Hint)
      modifies this
      ensures View() == Dmc.MarkAs(old(View()), contextID, hint)
    {
      match hint
      case NEED_PREPARE => needPrepare := needPrepare + {contextID};
      case LOCKED => hasLocked := hasLocked + {contextID};
      case NEED_SEND => needSend := needSend + {contextID};
      case NEED_SCHEDULE_OUT => needScheduleOut := needScheduleOut + {contextID};
      case END => needRemove := needRemove + {contextID};
    }

    /** The loops of refresh that erase the contexts of a set. */
    method Forget(gone: set<int>)
      modifies this`pending, this`hasLocked, this`needPrepare
      ensures pending == old(pending) - gone && hasLocked == old(hasLocked) - gone
              && needPrepare == old(needPrepare) - gone
    {
      var xs := SortInts(gone);
      AllElements(gone);
      var i := 0;
      while i < |xs|
        invariant 0 <= i <= |xs|
        invariant pending == old(pending) - Elements(xs[..i])
        invariant hasLocked == old(hasLocked) - Elements(xs[..i])
        invariant needPrepare == old(needPrepare) - Elements(xs[..i])
      {
        ElementsStep(xs, i);
        pending := pending - {xs[i]};
        hasLocked := hasLocked - {xs[i]};
        needPrepare := needPrepare - {xs[i]};
        i := i + 1;
      }
      assert xs[..i] == xs;
    }

    /** refresh: contexts that can be sent are no longer locked, departed and finished ones
        are forgotten. */
    method Refresh()
      modifies this
      ensures View() == Dmc.Refresh(old(View()))
    {
      var xs := SortInts(needSend);
      AllElements(needSend);
      var i := 0;
      while i < |xs|
        invariant 0 <= i <= |xs|
        invariant View() == old(View()).(hasLocked := old(hasLocked) - Elements(xs[..i]))
      {
        ElementsStep(xs, i);
        hasLocked := hasLocked - {xs[i]};
        i := i + 1;
      }
      assert xs[..i] == xs;
      ForgetBoth();
      TwoSteps(old(pending), old(needRemove), old(needScheduleOut));
      TwoSteps(old(needPrepare), old(needRemove), old(needScheduleOut));
      TwoSteps(old(hasLocked) - old(needSend), old(needRemove), old(needScheduleOut));
    }

    /** The second half of refresh. */
    method ForgetBoth()
      modifies this`pending, this`hasLocked, this`needPrepare, this`needRemove, this`needScheduleOut
      ensures pending == old(pending) - old(needRemove) - old(needScheduleOut)
      ensures needPrepare == old(needPrepare) - old(needRemove) - old(needScheduleOut)
      ensures hasLocked == old(hasLocked) - old(needRemove) - old(needScheduleOut)
      ensures needRemove == {} && needScheduleOut == {}
    {
      Forget(needRemove);
      needRemove := {};
      Forget(needScheduleOut);
      needScheduleOut := {};
    }

    /** empty() */
    method Empty() returns (r: bool)
      ensures r <==> Finished(View())
    {
      r := pending == {} && hasLocked == {};
    }
  }

  class BlockExecutive {
    const env: Env
    var dmcExecutors: map<string, ExecutivePool>
    var execs: map<int, Executive>
    const keyLocks: GraphKeyLocks
    var results: seq<Option<Receipt>>
    var gasUsed: int
    var written: seq<int>
    var batches: map<string, seq<seq<Message>>>
    var fault: Option<Fault>
    ghost var Repr: set<object>

    ghost predicate Valid()
      reads this, Repr
    {
      && this in Repr && keyLocks in Repr && keyLocks.Valid()
      && (forall a :: a in dmcExecutors ==> dmcExecutors[a] in Repr)
      && (forall a, b :: a in dmcExecutors && b in dmcExecutors && a != b ==> dmcExecutors[a] != dmcExecutors[b])
    }

    /** The scheduler as a value. */
    ghost function Snapshot(): (s: State)
      requires Valid()
      reads this, Repr
    {
      State(map a | a in dmcExecutors :: dmcExecutors[a].View(),
            execs, keyLocks.Edges(), results, gasUsed, written, batches, fault)
    }

    constructor (env: Env, n: nat)
      ensures Valid() && fresh(Repr) && this.env == env
      ensures Snapshot() == State(map[], map[], {}, NoResults(n), 0, [], map[], None)
    {
      this.env := env;
      var locks := new GraphKeyLocks();
      keyLocks := locks;
      execs := map[];
      dmcExecutors := map[];
      results := NoResults(n);
      gasUsed, written, batches, fault := 0, [], map[], None;
      Repr := {this, locks};
    }

    /** markAs on the pool of a contract. */
    method MarkAs(a: string, c: int, hint: Hint)
      requires Valid() && a in dmcExecutors
      modifies dmcExecutors[a]
      ensures Valid() && Snapshot() == SetPool(old(Snapshot()), a, Dmc.MarkAs(old(PoolAt(Snapshot(), a)), c, hint))
    {
      dmcExecutors[a].MarkAs(c, hint);
    }

    /** refresh on the pool of a contract. */
    method Refresh(a: string)
      requires Valid() && a in dmcExecutors
      modifies dmcExecutors[a]
      ensures Valid() && Snapshot() == RefreshAt(old(Snapshot()), a)
    {
      dmcExecutors[a].Refresh();
    }

    /** The clear at the end of forEachAndClear(NEED_PREPARE). */
    method ClearNeedPrepare(a: string)
      requires Valid() && a in dmcExecutors
      modifies dmcExecutors[a]
      ensures Valid() && Snapshot() == SetPool(old(Snapshot()), a, old(PoolAt(Snapshot(), a)).(needPrepare := {}))
    {
      dmcExecutors[a].needPrepare := {};
    }

    method RaiseFault(f: Fault)
      requires Valid()
      modifies this`fault
      ensures Valid() && Snapshot() == Fail(old(Snapshot()), f)
    {
      if fault.None? {
        fault := Some(f);
      }
    }

    /** registerAndGetDmcExecutor */
    method Register(a: string)
      requires Valid()
      modifies this`Repr, this`dmcExecutors
      ensures Valid() && fresh(Repr - old(Repr))
      ensures dmcExecutors.Keys == old(dmcExecutors).Keys + {a}
      ensures Snapshot() == SetPool(old(Snapshot()), a, PoolAt(old(Snapshot()), a))
    {
      hide GraphKeyLocks.Valid, GraphKeyLocks.Edges;
      if a !in dmcExecutors {
        var pool := new ExecutivePool();
        Repr := Repr + {pool};
        dmcExecutors := dmcExecutors[a := pool];
      }
    }

    /** scheduleIn */
    method ScheduleIn(a: string, c: int)
      requires Valid() && a in dmcExecutors
      modifies dmcExecutors[a]
      ensures Valid() && Snapshot() == SetPool(old(Snapshot()), a, Dmc.Add(PoolAt(old(Snapshot()), a), c))
    {
      var _ := dmcExecutors[a].Add(c);
    }

    /** registerAndGetDmcExecutor followed by scheduleIn. */
    method ScheduleExecutive(c: int)
      requires Valid() && c in execs
      modifies Repr
      ensures Valid() && fresh(Repr - old(Repr)) && dmcExecutors.Keys >= old(dmcExecutors).Keys
      ensures Snapshot() == Dmc.ScheduleExecutive(old(Snapshot()), c)
    {
      hide Snapshot, Dmc.Add;
      Fields();
      if execs[c].moved {
        RaiseFault(NullMessage);
        return;
      }
      var to := execs[c].message.to;
      Register(to);
      ScheduleIn(to, c);
    }

    /** onTxFinish */
    method OnTxFinish(m: Message)
      requires Valid()
      modifies this`results, this`gasUsed, this`written, this`fault
      ensures Valid() && Snapshot() == Dmc.OnTxFinish(env, old(Snapshot()), m)
    {
      var slot := m.contextID - env.startContextID;
      if 0 <= slot < |results| {
        var receipt := MakeReceipt(env, m);
        gasUsed := (gasUsed + receipt.gasUsed) % WORD;
        results := results[slot := Some(receipt)];
        written := written + [slot];
      } else {
        RaiseFault(SlotOutOfRange);
      }
    }

    method SetExecutive(c: int, e: Executive)
      requires Valid()
      modifies this`execs
      ensures Valid() && Snapshot() == SetExec(old(Snapshot()), c, e)
    {
      execs := execs[c := e];
    }

    /** The part of handleExecutiveMessage that takes the reported keys. */
    method TakeReportedKeys(m: Message) returns (granted: bool)
      requires Valid()
      modifies keyLocks
      ensures Valid()
      ensures var r := AcquireAll(old(Snapshot()).locks, m.from, m.keyLocks, m.contextID, m.frame);
              granted == r.granted && Snapshot() == old(Snapshot()).(locks := r.graph)
    {
      granted := keyLocks.BatchAcquireKeyLock(m.from, m.keyLocks, m.contextID, m.frame);
    }

    /** Request type, push stack. */
    method HandleCall(c: int, e: Executive) returns (hint: Hint)
      requires Valid()
      modifies this`execs, this`fault, keyLocks
      ensures Valid() && Handled(Snapshot(), hint) == Dmc.HandleCall(old(Snapshot()), c, e)
    {
      hide Snapshot, AcquireAll;
      var granted := TakeReportedKeys(e.message);
      if !granted {
        SetExecutive(c, e);
        RaiseFault(UnexpectedKeyLock);
        return END;
      }
      var newSeq := e.currentSeq;
      SetExecutive(c, Executive(e.callStack + [newSeq], newSeq + 1, e.message.(frame := newSeq), false));
      return NEED_SEND;
    }

    /** Return type, pop stack. */
    method HandleReturn(c: int, e: Executive) returns (hint: Hint)
      requires Valid()
      modifies this`execs, this`results, this`gasUsed, this`written, this`fault
      ensures Valid() && Handled(Snapshot(), hint) == Dmc.HandleReturn(env, old(Snapshot()), c, e)
    {
      hide Snapshot, Dmc.OnTxFinish;
      if e.callStack == [] {
        SetExecutive(c, e);
        RaiseFault(PopOfEmptyStack);
        return END;
      }
      var stack := e.callStack[..|e.callStack| - 1];
      if stack == [] {
        SetExecutive(c, e.(callStack := [], moved := true));
        OnTxFinish(e.message);
        return END;
      }
      SetExecutive(c, e.(callStack := stack, message := e.message.(frame := stack[|stack| - 1], create := false)));
      return NEED_SEND;
    }

    /** Retry type, send again. */
    method HandleWait(c: int, e: Executive) returns (hint: Hint)
      requires Valid()
      modifies this`execs, this`fault, keyLocks
      ensures Valid() && Handled(Snapshot(), hint) == Dmc.HandleWait(old(Snapshot()), c, e)
    {
      hide Snapshot, AcquireAll;
      var granted := TakeReportedKeys(e.message);
      SetExecutive(c, e);
      if !granted {
        RaiseFault(UnexpectedKeyLock);
        return END;
      }
      return LOCKED;
    }

    lemma Fields()
      requires Valid()
      ensures Snapshot().execs == execs && Snapshot().fault == fault && Snapshot().locks == keyLocks.Edges()
      ensures Snapshot().pools.Keys == dmcExecutors.Keys && Snapshot().batches == batches
      ensures forall a :: a in dmcExecutors ==> PoolAt(Snapshot(), a) == dmcExecutors[a].View()
    {}

    /** handleExecutiveMessage */
    method HandleExecutiveMessage(a: string, c: int) returns (hint: Hint)
      requires Valid() && c in execs
      modifies this`execs, this`results, this`gasUsed, this`written, this`fault, keyLocks
      ensures Valid()
      ensures c in old(Snapshot()).execs
      ensures Handled(Snapshot(), hint) == Dmc.HandleExecutiveMessage(env, old(Snapshot()), a, c)
    {
      hide Snapshot, HandleCreate, Dmc.HandleCall, Dmc.HandleReturn, Dmc.HandleWait;
      Fields();
      var e := HandleCreate(env, execs[c]);
      if execs[c].moved {
        RaiseFault(NullMessage);
        return END;
      }
      if e.message.to != a {
        SetExecutive(c, e);
        return NEED_SCHEDULE_OUT;
      }
      match e.message.typ
      case MESSAGE | TXHASH => hint := HandleCall(c, e);
      case FINISHED | REVERT => hint := HandleReturn(c, e);
      case KEY_LOCK => hint := HandleWait(c, e);
      case SEND_BACK =>
        SetExecutive(c, e);
        RaiseFault(UnrecognizedType);
        hint := END;
    }

    /** saveMessage, with the executive that submit makes. */
    method SaveMessage(m: Message)
      requires Valid()
      modifies Repr
      ensures Valid() && fresh(Repr - old(Repr))
      ensures Snapshot() == Save(old(Snapshot()), m)
    {
      hide Snapshot;
      SetExecutive(m.contextID, Executive([], 0, m, false));
      Register(m.to);
      ScheduleIn(m.to, m.contextID);
    }

    /** buildExecutives: a parallel loop over the transactions, here in any order. */
    method BuildExecutives(msgs: seq<Message>)
      requires Valid() && FirstMessages(env, msgs)
      requires Snapshot() == State(map[], map[], {}, NoResults(|msgs|), 0, [], map[], None)
      modifies Repr
      ensures Valid() && fresh(Repr - old(Repr)) && Snapshot() == InitialState(env, msgs)
    {
      hide Snapshot, Save, Saved, FirstMessages, InitialState;
      var todo := Contexts(env, |msgs|);
      ghost var done := {};
      NothingSaved(env, msgs);
      while todo != {}
        invariant Valid() && fresh(Repr - old(Repr))
        invariant forall c :: c in todo ==> 0 <= c - env.startContextID < |msgs|
        invariant forall c :: c in todo <==> c in Contexts(env, |msgs|) && c !in done
        invariant Snapshot() == Saved(env, msgs, done)
      {
        Inhabited(todo);
        var c :| c in todo;
        SaveStep(env, msgs, done, c);
        SaveMessage(msgs[c - env.startContextID]);
        todo := todo - {c};
        done := done + {c};
      }
      assert forall c :: 0 <= c - env.startContextID < |msgs| ==> c in Contexts(env, |msgs|);
      AllSaved(env, msgs, done);
    }

    // ----- DmcExecutor -----

    /** A turn of the loop of releaseOutdatedLock. */
    method ReleaseOne(a: string, c: int)
      requires Valid() && a in dmcExecutors
      modifies this`fault, keyLocks
      ensures Valid() && Snapshot() == Dmc.ReleaseOne(old(Snapshot()), a, c)
    {
      if fault.None? && c in dmcExecutors[a].pending && c in execs {
        var m := execs[c].message;
        if execs[c].moved {
          RaiseFault(NullMessage);
        } else if m.typ in {FINISHED, REVERT} {
          keyLocks.ReleaseKeyLocks(m.contextID, m.frame);
        }
      }
    }

    /** releaseOutdatedLock */
    method ReleaseOutdatedLock(a: string)
      requires Valid() && a in dmcExecutors
      modifies this`fault, keyLocks
      ensures Valid() && Snapshot() == Dmc.ReleaseOutdatedLock(old(Snapshot()), a)
    {
      hide Snapshot, Dmc.ReleaseOne;
      Fields();
      var cs := SortInts(dmcExecutors[a].needPrepare);
      var i := 0;
      while i < |cs|
        invariant 0 <= i <= |cs| && Valid()
        invariant Snapshot() == ReleaseEach(old(Snapshot()), a, cs[..i])
      {
        assert cs[..i + 1][..i] == cs[..i] && cs[..i + 1][i] == cs[i];
        ReleaseOne(a, cs[i]);
        i := i + 1;
      }
      assert cs[..i] == cs;
    }

    /** A turn of the first loop of prepare; the hint set itself is cleared after the loop. */
    method PrepareOne(a: string, c: int)
      requires Valid() && a in dmcExecutors
      modifies Repr
      ensures Valid() && Repr == old(Repr) && dmcExecutors == old(dmcExecutors)
      ensures Snapshot() == FileOne(env, old(Snapshot()), a, c)
    {
      hide Snapshot, Dmc.HandleExecutiveMessage, Dmc.MarkAs;
      Fields();
      if fault.None? && c in dmcExecutors[a].pending && c in execs {
        HandleTouches(env, Snapshot(), a, c);
        var hint := HandleExecutiveMessage(a, c);
        MarkAs(a, c, hint);
      }
    }

    /** The first loop of prepare: forEachAndClear(NEED_PREPARE, ...). */
    method PrepareEach(a: string)
      requires Valid() && a in dmcExecutors
      modifies Repr
      ensures Valid() && Repr == old(Repr) && dmcExecutors == old(dmcExecutors)
      ensures Snapshot() == Dmc.PrepareEach(env, old(Snapshot()), a, SortInts(PoolAt(old(Snapshot()), a).needPrepare))
    {
      Fields();
      hide Snapshot, Dmc.PrepareOne, Dmc.PrepareEach, FileOne, Elements, WithPrepare;
      ghost var s := Snapshot();
      ghost var all := dmcExecutors[a].needPrepare;
      var cs := SortInts(dmcExecutors[a].needPrepare);
      AllElements(all);
      PreparedStart(s, a);
      PrepareEachStep(env, s, a, cs, 0);
      var i := 0;
      while i < |cs|
        invariant 0 <= i <= |cs| && Valid() && Repr == old(Repr) && dmcExecutors == old(dmcExecutors)
        invariant PoolAt(Snapshot(), a).needPrepare == all && a in Snapshot().pools
        invariant WithPrepare(Snapshot(), a, all - Elements(cs[..i])) == Dmc.PrepareEach(env, s, a, cs[..i])
      {
        PrepareEachStep(env, s, a, cs, i);
        ElementsLeft(all, cs, i);
        FileOneSkips(env, Snapshot(), a, cs[i], all - Elements(cs[..i]));
        PrepareOne(a, cs[i]);
        i := i + 1;
      }
      assert cs[..i] == cs;
      assert all - Elements(cs) == {};
      PreparedEnd(Snapshot(), a);
      ClearNeedPrepare(a);
    }

    /** The second loop of prepare. */
    method ScheduleEach(a: string, cs: seq<int>)
      requires Valid() && a in dmcExecutors
      modifies Repr
      ensures Valid() && fresh(Repr - old(Repr)) && a in dmcExecutors
      ensures dmcExecutors.Keys >= old(dmcExecutors).Keys
      ensures Snapshot() == Dmc.ScheduleEach(old(Snapshot()), a, cs)
    {
      hide Snapshot, Dmc.ScheduleExecutive;
      var i := 0;
      while i < |cs|
        invariant 0 <= i <= |cs| && Valid() && fresh(Repr - old(Repr)) && a in dmcExecutors
        invariant dmcExecutors.Keys >= old(dmcExecutors).Keys
        invariant Snapshot() == Dmc.ScheduleEach(old(Snapshot()), a, cs[..i])
      {
        assert cs[..i + 1][..i] == cs[..i] && cs[..i + 1][i] == cs[i];
        Fields();
        if fault.None? && cs[i] in dmcExecutors[a].pending && cs[i] in execs {
          ScheduleExecutive(cs[i]);
        }
        i := i + 1;
      }
      assert cs[..i] == cs;
    }

    /** DmcExecutor::prepare */
    method Prepare(a: string) returns (hasScheduleOut: bool)
      requires Valid() && a in dmcExecutors
      modifies Repr
      ensures Valid() && fresh(Repr - old(Repr)) && dmcExecutors.Keys >= old(dmcExecutors).Keys
      ensures Prepared(Snapshot(), hasScheduleOut) == Dmc.Prepare(env, old(Snapshot()), a)
    {
      hide Snapshot, Dmc.PrepareEach, Dmc.ScheduleEach, Dmc.Refresh;
      Refresh(a);
      PrepareEach(a);
      Fields();
      hasScheduleOut := dmcExecutors[a].needScheduleOut != {};
      ScheduleEach(a, SortInts(dmcExecutors[a].needScheduleOut));
      Refresh(a);
    }

    /** A turn of the loop of unlockPrepare. */
    method UnlockOne(a: string, c: int)
      requires Valid() && a in dmcExecutors
      modifies this`fault, keyLocks, dmcExecutors[a]
      ensures Valid() && Snapshot() == Dmc.UnlockOne(old(Snapshot()), a, c)
    {
      hide Snapshot, Dmc.MarkAs, Acquire;
      Fields();
      if fault.None? && c in dmcExecutors[a].pending && c in execs {
        var m := execs[c].message;
        if execs[c].moved {
          RaiseFault(NullMessage);
        } else if m.typ != KEY_LOCK {
          RaiseFault(NormalMessageLocked);
        } else {
          var granted := AcquireKeyLock(m.from, m.keyLockAcquired, c, m.frame);
          if granted {
            MarkAs(a, c, NEED_SEND);
          }
        }
      }
    }

    method AcquireKeyLock(contract: string, key: string, c: int, frame: int) returns (granted: bool)
      requires Valid()
      modifies keyLocks
      ensures Valid()
      ensures var r := Acquire(old(Snapshot()).locks, KeyLock(contract, key), c, frame);
              granted == r.granted && Snapshot() == old(Snapshot()).(locks := r.graph)
    {
      hide Acquire;
      granted := keyLocks.AcquireKeyLock(contract, key, c, frame);
    }

    /** unlockPrepare: is there still nothing to send? */
    method UnlockPrepare(a: string) returns (nothingToSend: bool)
      requires Valid() && a in dmcExecutors
      modifies this`fault, keyLocks, dmcExecutors[a]
      ensures Valid()
      ensures Snapshot() == UnlockEach(old(Snapshot()), a, SortInts(PoolAt(old(Snapshot()), a).hasLocked))
      ensures nothingToSend <==> PoolAt(Snapshot(), a).needSend == {}
    {
      hide Snapshot, Dmc.UnlockOne;
      Fields();
      var cs := SortInts(dmcExecutors[a].hasLocked);
      var i := 0;
      while i < |cs|
        invariant 0 <= i <= |cs| && Valid()
        invariant Snapshot() == UnlockEach(old(Snapshot()), a, cs[..i])
      {
        assert cs[..i + 1][..i] == cs[..i] && cs[..i + 1][i] == cs[i];
        UnlockOne(a, cs[i]);
        i := i + 1;
      }
      assert cs[..i] == cs;
      Fields();
      nothingToSend := dmcExecutors[a].needSend == {};
    }

    /** The search of detectLockAndRevert. */
    method FindVictim(a: string) returns (victim: Option<int>)
      requires Valid() && a in dmcExecutors
      ensures victim == FirstVictim(Snapshot(), a, SortInts(PoolAt(Snapshot(), a).hasLocked))
    {
      hide Snapshot, Deadlocked, FirstVictim;
      Fields();
      ghost var s := Snapshot();
      var pool := dmcExecutors[a];
      var cs := SortInts(pool.hasLocked);
      assert PoolAt(s, a) == pool.View() && s.execs == execs && s.locks == keyLocks.Edges();
      hide PoolAt, GraphKeyLocks.Edges;
      var i := 0;
      assert cs[0..] == cs;
      while i < |cs|
        invariant 0 <= i <= |cs|
        invariant FirstVictim(s, a, cs) == FirstVictim(s, a, cs[i..])
      {
        FirstVictimStep(s, a, cs, i);
        if cs[i] in pool.pending && cs[i] in execs {
          var hasDeadLock := keyLocks.DetectDeadLock(cs[i]);
          if hasDeadLock {
            return Some(cs[i]);
          }
        }
        i := i + 1;
      }
      FirstVictimStep(s, a, cs, i);
      return None;
    }

    /** detectLockAndRevert: revert the first deadlocked context of the pool, if there is one. */
    method DetectLockAndRevert(a: string) returns (found: bool)
      requires Valid() && a in dmcExecutors
      modifies this`execs, this`fault, dmcExecutors[a]
      ensures Valid()
      ensures var victim := FirstVictim(old(Snapshot()), a, SortInts(PoolAt(old(Snapshot()), a).hasLocked));
              && (found <==> victim.Some?)
              && Snapshot() == if found then Dmc.RevertVictim(old(Snapshot()), a, victim.value) else old(Snapshot())
    {
      hide Snapshot, FirstVictim, RevertVictim;
      var victim := FindVictim(a);
      if victim.Some? {
        Fields();
        Revert(a, victim.value);
      }
      return victim.Some?;
    }

    method Revert(a: string, c: int)
      requires Valid() && a in dmcExecutors && c in execs
      modifies this`execs, this`fault, dmcExecutors[a]
      ensures Valid() && c in old(Snapshot()).execs && Snapshot() == RevertVictim(old(Snapshot()), a, c)
    {
      hide Snapshot, Dmc.MarkAs;
      Fields();
      if execs[c].moved {
        RaiseFault(NullMessage);
        return;
      }
      SetExecutive(c, execs[c].(message := execs[c].message.(typ := REVERT, create := false, keyLocks := [])));
      MarkAs(a, c, NEED_SEND);
    }

    // ----- serialPrepareExecutor -----

    method ReleaseAll(addresses: seq<string>)
      requires Valid() && forall a :: a in addresses ==> a in dmcExecutors
      modifies this`fault, keyLocks
      ensures Valid() && Snapshot() == Dmc.ReleaseAll(old(Snapshot()), addresses)
    {
      hide Snapshot, Dmc.ReleaseOutdatedLock;
      var i := 0;
      while i < |addresses|
        invariant 0 <= i <= |addresses| && Valid()
        invariant Snapshot() == Dmc.ReleaseAll(old(Snapshot()), addresses[..i])
      {
        assert addresses[..i + 1][..i] == addresses[..i] && addresses[..i + 1][i] == addresses[i];
        ReleaseOutdatedLock(addresses[i]);
        i := i + 1;
      }
      assert addresses[..i] == addresses;
    }

    method PrepareAll(addresses: seq<string>) returns (hasScheduleOutMessage: bool)
      requires Valid() && forall a :: a in addresses ==> a in dmcExecutors
      modifies Repr
      ensures Valid() && fresh(Repr - old(Repr))
      ensures Prepared(Snapshot(), hasScheduleOutMessage) == Dmc.PrepareAll(env, old(Snapshot()), addresses)
    {
      hide Snapshot, Dmc.Prepare;
      hasScheduleOutMessage := false;
      var i := 0;
      while i < |addresses|
        invariant 0 <= i <= |addresses| && Valid() && fresh(Repr - old(Repr))
        invariant dmcExecutors.Keys >= old(dmcExecutors).Keys
        invariant Prepared(Snapshot(), hasScheduleOutMessage) == Dmc.PrepareAll(env, old(Snapshot()), addresses[..i])
      {
        assert addresses[..i + 1][..i] == addresses[..i] && addresses[..i + 1][i] == addresses[i];
        var hasScheduleOut := Prepare(addresses[i]);
        hasScheduleOutMessage := hasScheduleOutMessage || hasScheduleOut;
        i := i + 1;
      }
      assert addresses[..i] == addresses;
    }

    /** A turn of the do-while loop. */
    method Pass() returns (hasScheduleOutMessage: bool)
      requires Valid()
      modifies Repr
      ensures Valid() && fresh(Repr - old(Repr))
      ensures Prepared(Snapshot(), hasScheduleOutMessage) == Dmc.Pass(env, old(Snapshot()))
    {
      hide Snapshot, Dmc.ReleaseAll, Dmc.PrepareAll;
      Fields();
      var currentExecutors := SortStrings(dmcExecutors.Keys);
      ReleaseAll(currentExecutors);
      hasScheduleOutMessage := PrepareAll(currentExecutors);
    }

    /** The loop that tries to unlock: is anything unfinished, and is there nothing to send? */
    method UnlockAll(addresses: seq<string>) returns (needDetectDeadlock: bool, allFinished: bool)
      requires Valid() && (forall a :: a in addresses ==> a in dmcExecutors) && NoDuplicates(addresses)
      modifies Repr
      ensures Valid() && Repr == old(Repr) && dmcExecutors == old(dmcExecutors)
      ensures Snapshot() == Dmc.UnlockAll(old(Snapshot()), addresses)
      ensures allFinished <==> AllFinishedIn(Snapshot(), addresses)
      ensures needDetectDeadlock <==> NothingToSend(Snapshot(), addresses)
    {
      hide Snapshot, UnlockEach, Finished, AllFinishedIn, NothingToSend, Dmc.UnlockPrepare, PoolAt;
      NothingYet(Snapshot());
      needDetectDeadlock, allFinished := true, true;
      var i := 0;
      while i < |addresses|
        invariant 0 <= i <= |addresses| && Valid() && Repr == old(Repr) && dmcExecutors == old(dmcExecutors)
        invariant Snapshot() == Dmc.UnlockAll(old(Snapshot()), addresses[..i])
        invariant allFinished <==> AllFinishedIn(Snapshot(), addresses[..i])
        invariant needDetectDeadlock <==> NothingToSend(Snapshot(), addresses[..i])
      {
        var a := addresses[i];
        assert addresses[..i + 1][..i] == addresses[..i] && addresses[..i + 1][i] == a;
        assert addresses[..i + 1] == addresses[..i] + [a] && a !in addresses[..i];
        Fields();
        UnlockFlags(Snapshot(), addresses[..i], a);
        var finished, nothingToSend := UnlockNext(a);
        allFinished := allFinished && finished;
        needDetectDeadlock := needDetectDeadlock && (finished || nothingToSend);
        i := i + 1;
      }
      assert addresses[..i] == addresses;
    }

    /** A turn of that loop, which skips a finished executor. */
    method UnlockNext(a: string) returns (finished: bool, nothingToSend: bool)
      requires Valid() && a in dmcExecutors
      modifies Repr
      ensures Valid() && Repr == old(Repr) && dmcExecutors == old(dmcExecutors)
      ensures Snapshot() == Dmc.UnlockPrepare(old(Snapshot()), a)
      ensures finished <==> Finished(PoolAt(old(Snapshot()), a))
      ensures !finished ==> (nothingToSend <==> PoolAt(Snapshot(), a).needSend == {})
    {
      hide Snapshot, UnlockEach, Finished;
      Fields();
      finished := dmcExecutors[a].Empty();
      nothingToSend := true;
      if !finished {
        nothingToSend := UnlockPrepare(a);
      }
    }

    /** The loop that looks for a deadlock, with the exception raised when there is none. */
    method DetectAndRevert(addresses: seq<string>)
      requires Valid() && forall a :: a in addresses ==> a in dmcExecutors
      modifies Repr
      ensures Valid() && Repr == old(Repr) && dmcExecutors == old(dmcExecutors)
      ensures Snapshot() == Dmc.DetectAndRevert(old(Snapshot()), addresses)
    {
      hide Snapshot, FirstVictim, RevertVictim;
      ghost var s := Snapshot();
      var i := 0;
      assert addresses[0..] == addresses;
      while i < |addresses|
        invariant 0 <= i <= |addresses| && Valid() && Snapshot() == s && Repr == old(Repr)
                  && dmcExecutors == old(dmcExecutors)
        invariant Dmc.DetectAndRevert(s, addresses) == Dmc.DetectAndRevert(s, addresses[i..])
      {
        assert addresses[i..][1..] == addresses[i + 1..] && addresses[i..][0] == addresses[i];
        var found := DetectLockAndRevert(addresses[i]);
        if found {
          return;
        }
        i := i + 1;
      }
      RaiseFault(NoDeadlockDetected);
    }

    /** serialPrepareExecutor after its do-while loop. */
    method HandleLocked()
      requires Valid()
      modifies Repr
      ensures Valid() && Repr == old(Repr)
      ensures Snapshot() == Dmc.HandleLocked(old(Snapshot()))
    {
      hide Snapshot, Dmc.UnlockAll, Dmc.DetectAndRevert, Finished, Dmc.UnlockPrepare;
      Fields();
      var addresses := SortStrings(dmcExecutors.Keys);
      var needDetectDeadlock, allFinished := UnlockAll(addresses);
      Fields();
      assert needDetectDeadlock && !allFinished <==> NeedDetectDeadlock(Snapshot());
      if needDetectDeadlock && !allFinished {
        DetectAndRevert(addresses);
      }
    }

    /** serialPrepareExecutor. The second turn of its loop finds nothing left to move. */
    method SerialPrepareExecutor()
      requires Valid() && Invariant(env, Snapshot())
      modifies Repr
      ensures Valid() && fresh(Repr - old(Repr))
      ensures Snapshot() == SerialPrepare(env, old(Snapshot()))
    {
      hide Snapshot, Dmc.Pass, Invariant, Dmc.HandleLocked, MisplacedSet;
      LoopStep(env, Snapshot());
      var hasScheduleOutMessage := Pass();
      while hasScheduleOutMessage
        invariant Valid() && fresh(Repr - old(Repr)) && Invariant(env, Snapshot())
        invariant hasScheduleOutMessage ==> MisplacedSet(env, Snapshot()) == {}
        invariant SerialLoop(env, old(Snapshot()))
                  == if hasScheduleOutMessage then SerialLoop(env, Snapshot()) else Snapshot()
        decreases hasScheduleOutMessage
      {
        LoopStep(env, Snapshot());
        hasScheduleOutMessage := Pass();
      }
      HandleLocked();
    }

    /** prepare, for a block without DAG execution: it cannot fail. */
    method PrepareBlock(msgs: seq<Message>)
      requires Valid() && FirstMessages(env, msgs)
      requires Snapshot() == State(map[], map[], {}, NoResults(|msgs|), 0, [], map[], None)
      modifies Repr
      ensures Valid() && fresh(Repr - old(Repr))
      ensures Invariant(env, InitialState(env, msgs)) && Snapshot() == SerialPrepare(env, InitialState(env, msgs))
      ensures fault.None? && ReadyToSend(env, Snapshot())
    {
      hide Snapshot, FirstMessages, InitialState, Invariant, SerialPrepare, Starts, Scheduled;
      StartsWithoutDag(env, msgs);
      StartKeeps(env, msgs, map[], InitialState(env, msgs));
      BuildExecutives(msgs);
      ghost var pl := SerialPrepareKeeps(env, Snapshot());
      ScheduledIsReady(env, SerialPrepare(env, Snapshot()), pl);
      SerialPrepareExecutor();
      Fields();
    }

    // ----- go and its callback -----

    /** A turn of the loop of go. */
    method SendOne(c: int) returns (m: Message)
      requires Valid() && c in execs
      modifies this`execs
      ensures Valid() && c in old(Snapshot()).execs && m == Outgoing(old(Snapshot()), c)
      ensures Snapshot() == SetExec(old(Snapshot()), c, old(execs[c]).(message := m, moved := true))
    {
      hide Snapshot;
      Fields();
      var lockedKeys := keyLocks.GetKeyLocksNotHoldingByContext(execs[c].message.to, c);
      m := execs[c].message.(keyLocks := lockedKeys);
      SetExecutive(c, execs[c].(message := m, moved := true));
    }

    /** The loop of go over the contexts it sends, none of whose messages is already gone. */
    method SendEach(cs: seq<int>) returns (messages: seq<Message>)
      requires Valid() && NoDuplicates(cs)
      requires forall c :: c in cs ==> c in execs
      modifies this`execs
      ensures Valid() && (forall c :: c in cs ==> c in old(Snapshot()).execs)
      ensures messages == Messages(old(Snapshot()), cs)
      ensures Snapshot() == old(Snapshot()).(execs := Sent(old(Snapshot()), Elements(cs)))
    {
      hide Snapshot, Outgoing, Sent, Elements;
      Fields();
      ghost var s := Snapshot();
      messages := [];
      var i := 0;
      NothingSent(s);
      while i < |cs|
        invariant 0 <= i <= |cs| && Valid() && |messages| == i && execs.Keys == s.execs.Keys
        invariant forall c :: c in cs ==> c in s.execs
        invariant forall j :: 0 <= j < i ==> messages[j] == Outgoing(s, cs[j])
        invariant Snapshot() == s.(execs := Sent(s, Elements(cs[..i])))
      {
        assert cs[i] in cs;
        ElementsStep(cs, i);
        SentStep(s, cs, i);
        Fields();
        var m := SendOne(cs[i]);
        messages := messages + [m];
        Fields();
        i := i + 1;
      }
      assert cs[..i] == cs;
    }

    /** go, and the status its callback will report. A message that is already gone would be a
        null message; no reachable state has one. */
    method Go(a: string) returns (status: Status)
      requires Valid() && a in dmcExecutors
      modifies this`execs, this`batches, this`fault, dmcExecutors[a]
      ensures Valid() && dmcExecutors == old(dmcExecutors)
      ensures status == GoStatus(old(Snapshot()), a)
      ensures Snapshot() == DmcRound.Go(old(Snapshot()), a)
    {
      hide Snapshot, Outgoing, Sent, Elements;
      Fields();
      ghost var s := Snapshot();
      var finished := dmcExecutors[a].Empty();
      if finished {
        return FINISHED_STATUS;
      }
      if dmcExecutors[a].needSend == {} {
        return PAUSED;
      }
      var contexts := set c | c in dmcExecutors[a].needSend && c in dmcExecutors[a].pending && c in execs;
      assert contexts == ToSend(s, a);
      if exists c :: c in contexts && execs[c].moved {
        RaiseFault(NullMessage);
        return PAUSED;
      }
      AllElements(contexts);
      var messages := SendEach(SortInts(contexts));
      Fields();
      RecordBatch(a, messages);
      SentAll(s, a);
      return PAUSED;
    }

    method RecordBatch(a: string, messages: seq<Message>)
      requires Valid() && a in dmcExecutors
      modifies this`batches, dmcExecutors[a]
      ensures Valid()
      ensures Snapshot()
              == SetPool(old(Snapshot()).(batches := old(batches)[a := BatchesAt(old(Snapshot()), a) + [messages]]),
                                    a, PoolAt(old(Snapshot()), a).(needSend := {}))
    {
      hide Snapshot;
      Fields();
      AppendBatch(a, messages);
      ClearNeedSend(a);
    }

    method AppendBatch(a: string, messages: seq<Message>)
      requires Valid()
      modifies this`batches
      ensures Valid() && Snapshot()
              == old(Snapshot()).(batches := old(batches)[a := BatchesAt(old(Snapshot()), a) + [messages]])
    {
      batches := batches[a := (if a in batches then batches[a] else []) + [messages]];
    }

    /** The clear at the end of forEachAndClear(NEED_SEND). */
    method ClearNeedSend(a: string)
      requires Valid() && a in dmcExecutors
      modifies dmcExecutors[a]
      ensures Valid() && Snapshot() == SetPool(old(Snapshot()), a, old(PoolAt(Snapshot(), a)).(needSend := {}))
    {
      dmcExecutors[a].needSend := {};
    }

    /** A turn of the loop of handleExecutiveOutputs. */
    method HandleOutput(a: string, m: Message)
      requires Valid() && a in dmcExecutors
      modifies Repr
      ensures Valid() && fresh(Repr - old(Repr)) && dmcExecutors.Keys >= old(dmcExecutors).Keys
      ensures Snapshot() == DmcRound.HandleOutput(old(Snapshot()), a, m.contextID, m)
    {
      hide Snapshot, Dmc.MarkAs, Dmc.ScheduleExecutive;
      Fields();
      var c := m.contextID;
      if c !in dmcExecutors[a].pending || c !in execs {
        RaiseFault(NullMessage);
        return;
      }
      SetExecutive(c, execs[c].(message := m, moved := false));
      Fields();
      if m.to == a {
        MarkAs(a, c, NEED_PREPARE);
      } else {
        MarkAs(a, c, NEED_SCHEDULE_OUT);
        Fields();
        ScheduleExecutive(c);
      }
    }

    /** handleExecutiveOutputs */
    method HandleExecutiveOutputs(a: string, outputs: seq<Message>)
      requires Valid() && a in dmcExecutors
      modifies Repr
      ensures Valid() && fresh(Repr - old(Repr)) && dmcExecutors.Keys >= old(dmcExecutors).Keys
      ensures Snapshot() == HandleOutputs(old(Snapshot()), a, outputs)
    {
      hide Snapshot, DmcRound.HandleOutput;
      var i := 0;
      while i < |outputs|
        invariant 0 <= i <= |outputs| && Valid() && fresh(Repr - old(Repr))
        invariant dmcExecutors.Keys >= old(dmcExecutors).Keys
        invariant Snapshot() == HandleOutputs(old(Snapshot()), a, outputs[..i])
      {
        assert outputs[..i + 1][..i] == outputs[..i] && outputs[..i + 1][i] == outputs[i];
        HandleOutput(a, outputs[i]);
        i := i + 1;
      }
      assert outputs[..i] == outputs;
    }
  }

  ghost function Save(s: State, m: Message): (r: State) {
    var s1 := SetExec(s, m.contextID, Executive([], 0, m, false));
    SetPool(s1, m.to, Dmc.Add(PoolAt(s1, m.to), m.contextID))
  }

  ghost function SavedFor(env: Env, msgs: seq<Message>, done: set<int>, a: string): (r: Pool) {
    var cs := set c | c in done && 0 <= c - env.startContextID < |msgs| && msgs[c - env.startContextID].to == a;
    Pool(cs, cs, {}, {}, {}, {})
  }

  ghost function SavedPools(env: Env, msgs: seq<Message>, done: set<int>): (r: map<string, Pool>) {
    map a | a in (set c | c in done && 0 <= c - env.startContextID < |msgs| :: msgs[c - env.startContextID].to) ::
        SavedFor(env, msgs, done, a)
  }

  ghost function SavedExecs(env: Env, msgs: seq<Message>, done: set<int>): (r: map<int, Executive>) {
    map c | c in done && 0 <= c - env.startContextID < |msgs| :: Executive([], 0, msgs[c - env.startContextID], false)
  }

  /** The state after the messages of some transactions have been saved. */
  ghost function Saved(env: Env, msgs: seq<Message>, done: set<int>): (r: State) {
    State(SavedPools(env, msgs, done), SavedExecs(env, msgs, done), {}, NoResults(|msgs|), 0, [], map[], None)
  }

  lemma NothingSaved(env: Env, msgs: seq<Message>)
    ensures Saved(env, msgs, {}) == State(map[], map[], {}, NoResults(|msgs|), 0, [], map[], None)
  {}

  lemma SavedForStep(env: Env, msgs: seq<Message>, done: set<int>, c: int, a: string)
    requires 0 <= c - env.startContextID < |msgs|
    ensures SavedFor(env, msgs, done + {c}, a)
            == if msgs[c - env.startContextID].to == a then Dmc.Add(SavedFor(env, msgs, done, a), c)
                else SavedFor(env, msgs, done, a)
  {
    SameElements(SavedFor(env, msgs, done + {c}, a).pending,
                 SavedFor(env, msgs, done, a).pending + if msgs[c - env.startContextID].to == a then {c} else {});
  }

  lemma SavedPoolsStep(env: Env, msgs: seq<Message>, done: set<int>, c: int)
    requires 0 <= c - env.startContextID < |msgs|
    ensures var s, to := Saved(env, msgs, done), msgs[c - env.startContextID].to;
            SavedPools(env, msgs, done + {c}) == s.pools[to := Dmc.Add(PoolAt(s, to), c)]
  {
    hide SavedFor;
    var s, to := Saved(env, msgs, done), msgs[c - env.startContextID].to;
    forall a { SavedForStep(env, msgs, done, c, a); }
    NobodySavedFor(env, msgs, done, to);
    assert SavedPools(env, msgs, done + {c}).Keys == s.pools.Keys + {to};
  }

  lemma NobodySavedFor(env: Env, msgs: seq<Message>, done: set<int>, a: string)
    ensures a !in SavedPools(env, msgs, done) ==> SavedFor(env, msgs, done, a) == EMPTY_POOL
  {
    if a !in SavedPools(env, msgs, done) {
      SameElements(SavedFor(env, msgs, done, a).pending, {});
    }
  }

  lemma SaveStep(env: Env, msgs: seq<Message>, done: set<int>, c: int)
    requires FirstMessages(env, msgs) && 0 <= c - env.startContextID < |msgs|
    ensures Saved(env, msgs, done + {c}) == Save(Saved(env, msgs, done), msgs[c - env.startContextID])
  {
    hide SavedPools;
    SavedPoolsStep(env, msgs, done, c);
    assert msgs[c - env.startContextID].contextID == c;
    assert SavedExecs(env, msgs, done + {c})
        == SavedExecs(env, msgs, done)[c := Executive([], 0, msgs[c - env.startContextID], false)];
  }

  lemma AllSavedFor(env: Env, msgs: seq<Message>, done: set<int>, a: string)
    requires forall c :: 0 <= c - env.startContextID < |msgs| ==> c in done
    ensures SavedFor(env, msgs, done, a) == FirstPool(env, msgs, a)
  {
    SameElements(SavedFor(env, msgs, done, a).pending, FirstPool(env, msgs, a).pending);
  }

  lemma AllSavedPools(env: Env, msgs: seq<Message>, done: set<int>)
    requires forall c :: 0 <= c - env.startContextID < |msgs| ==> c in done
    ensures SavedPools(env, msgs, done) == InitialState(env, msgs).pools
  {
    hide SavedFor, FirstPool;
    var saved, first := SavedPools(env, msgs, done), InitialState(env, msgs).pools;
    forall a | a in first ensures a in saved {
      var c: int :| c in Contexts(env, |msgs|) && msgs[c - env.startContextID].to == a;
      assert c in done;
    }
    forall a | a in saved ensures a in first {
      var c: int :| c in done && 0 <= c - env.startContextID < |msgs| && msgs[c - env.startContextID].to == a;
      assert c in Contexts(env, |msgs|);
    }
    forall a | a in first ensures saved[a] == first[a] { AllSavedFor(env, msgs, done, a); }
  }

  lemma AllSaved(env: Env, msgs: seq<Message>, done: set<int>)
    requires forall c :: 0 <= c - env.startContextID < |msgs| ==> c in done
    ensures Saved(env, msgs, done) == InitialState(env, msgs)
  {
    AllSavedPools(env, msgs, done);
    hide SavedPools, FirstPool;
    assert SavedExecs(env, msgs, done) == InitialState(env, msgs).execs;
  }

  /** The executives after the messages of some contexts have been handed over. */
  ghost function Sent(s: State, done: set<int>): (r: map<int, Executive>) {
    map c | c in s.execs :: if c in done then s.execs[c].(message := Outgoing(s, c), moved := true) else s.execs[c]
  }

  lemma NothingSent(s: State)
    ensures s == s.(execs := Sent(s, Elements([])))
  {}

  lemma SentStep(s: State, cs: seq<int>, i: nat)
    requires i < |cs| && NoDuplicates(cs) && cs[i] in s.execs
    ensures var before := s.(execs := Sent(s, Elements(cs[..i])));
            && cs[i] in before.execs && before.execs[cs[i]] == s.execs[cs[i]]
            && Outgoing(before, cs[i]) == Outgoing(s, cs[i])
            && Sent(s, Elements(cs[..i + 1]))
               == before.execs[cs[i] := s.execs[cs[i]].(message := Outgoing(s, cs[i]), moved := true)]
  {
    ElementsStep(cs, i);
    assert cs[i] !in cs[..i];
  }

  lemma SentAll(s: State, a: string)
    ensures Sent(s, ToSend(s, a))
            == map c | c in s.execs ::
                 if c in ToSend(s, a) then s.execs[c].(message := Outgoing(s, c), moved := true) else s.execs[c]
  {}

  /** handleExecutiveOutputs on values. */
  ghost function HandleOutputs(s: State, a: string, outputs: seq<Message>): (r: State)
    decreases |outputs|
  {
    if outputs == [] then s
    else var m := outputs[|outputs| - 1];
         DmcRound.HandleOutput(HandleOutputs(s, a, outputs[..|outputs| - 1]), a, m.contextID, m)
  }

  lemma FirstVictimStep(s: State, a: string, cs: seq<int>, i: nat)
    requires i <= |cs|
    ensures FirstVictim(s, a, cs[i..]) ==
            if i == |cs| then None
            else if cs[i] in PoolAt(s, a).pending && cs[i] in s.execs && Deadlocked(s.locks, cs[i]) then Some(cs[i])
            else FirstVictim(s, a, cs[i + 1..])
  {
    hide Deadlocked, PoolAt;
    if i < |cs| {
      assert cs[i..][1..] == cs[i + 1..] && cs[i..][0] == cs[i];
    }
  }

  ghost predicate AllFinishedIn(s: State, addresses: seq<string>) {
    forall a :: a in addresses ==> Finished(PoolAt(s, a))
  }

  ghost predicate NothingToSend(s: State, addresses: seq<string>) {
    forall a :: a in addresses && !Finished(PoolAt(s, a)) ==> PoolAt(s, a).needSend == {}
  }

  lemma NothingYet(s: State)
    ensures AllFinishedIn(s, []) && NothingToSend(s, [])
  {}

  lemma UnlockFlags(s: State, addresses: seq<string>, a: string)
    requires a in s.pools && a !in addresses
    ensures var s' := Dmc.UnlockPrepare(s, a);
            && (AllFinishedIn(s', addresses + [a]) <==> AllFinishedIn(s, addresses) && Finished(PoolAt(s, a)))
            && (NothingToSend(s', addresses + [a]) <==>
                NothingToSend(s, addresses) && (Finished(PoolAt(s, a)) || PoolAt(s', a).needSend == {}))
  {
    hide UnlockEach, Finished, PoolAt;
    UnlockTouchesOne(s, a, SortInts(PoolAt(s, a).hasLocked));
  }

  lemma StartsWithoutDag(env: Env, msgs: seq<Message>)
    requires FirstMessages(env, msgs)
    ensures Starts(env, msgs, map[], InitialState(env, msgs))
  {
    hide FirstMessages;
    assert DagResult(env, InitialState(env, msgs), map[]).execs == InitialState(env, msgs).execs;
  }

  /** unlockPrepare leaves the other pools alone and finishes none. */
  lemma {:induction false} UnlockTouchesOne(s: State, a: string, cs: seq<int>)
    requires a in s.pools
    ensures var r := UnlockEach(s, a, cs);
            && a in r.pools && (Finished(PoolAt(r, a)) <==> Finished(PoolAt(s, a)))
            && forall b :: b != a ==> PoolAt(r, b) == PoolAt(s, b)
    decreases |cs|
  {
    hide Acquire;
    if cs != [] {
      UnlockTouchesOne(s, a, cs[..|cs| - 1]);
    }
  }

  ghost function WithPrepare(s: State, a: string, needPrepare: set<int>): (r: State) {
    SetPool(s, a, PoolAt(s, a).(needPrepare := needPrepare))
  }

  lemma PrepareEachStep(env: Env, s: State, a: string, cs: seq<int>, i: nat)
    requires i <= |cs|
    ensures Dmc.PrepareEach(env, s, a, []) == s
    ensures i < |cs| ==>
              Dmc.PrepareEach(env, s, a, cs[..i + 1])
                  == Dmc.PrepareOne(env, Dmc.PrepareEach(env, s, a, cs[..i]), a, cs[i])
  {
    hide Dmc.PrepareOne;
    if i < |cs| {
      assert cs[..i + 1][..i] == cs[..i] && cs[..i + 1][i] == cs[i];
    }
  }

  lemma PreparedEnd(s: State, a: string)
    ensures WithPrepare(s, a, {}) == SetPool(s, a, PoolAt(s, a).(needPrepare := {}))
  {}

  lemma PreparedStart(s: State, a: string)
    requires a in s.pools
    ensures WithPrepare(s, a, PoolAt(s, a).needPrepare - Elements([])) == s
  {
    SamePool(s, a);
    assert PoolAt(s, a).needPrepare - Elements([]) == PoolAt(s, a).needPrepare;
  }

  lemma SamePool(s: State, a: string)
    requires a in s.pools
    ensures WithPrepare(s, a, PoolAt(s, a).needPrepare) == s
  {}

  /** Handling a message and filing it, without taking it out of the set being walked. */
  ghost function FileOne(env: Env, s: State, a: string, c: int): (r: State) {
    if s.fault.None? && c in PoolAt(s, a).pending && c in s.execs then
      var h := Dmc.HandleExecutiveMessage(env, s, a, c);
      SetPool(h.state, a, Dmc.MarkAs(PoolAt(s, a), c, h.hint))
    else s
  }

  /** Clearing the walked set after the loop is as good as taking each context out of it. */
  lemma FileOneSkips(env: Env, s: State, a: string, c: int, needPrepare: set<int>)
    requires a in s.pools
    ensures WithPrepare(FileOne(env, s, a, c), a, needPrepare - {c})
            == Dmc.PrepareOne(env, WithPrepare(s, a, needPrepare), a, c)
    ensures PoolAt(FileOne(env, s, a, c), a).needPrepare == PoolAt(s, a).needPrepare && a in FileOne(env, s, a, c).pools
  {
    hide Dmc.HandleExecutiveMessage;
    if c in s.execs {
      HandleIgnoresPools(env, s, WithPrepare(s, a, needPrepare).pools, a, c);
      HandleTouches(env, s, a, c);
    }
  }
}
