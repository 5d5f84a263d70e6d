/** The outputs of a round, whatever the executors answer within their contract, lead back to
    a state of the invariant. */
module DmcRoundInvariant {
  import opened Ordering
  import opened LockGraph
  import opened Options
  import opened Dmc
  import opened DmcInvariant
  import opened DmcUnlock
  import opened DmcSchedule
  import opened DmcRound
  import opened DmcConfluence

  /** What is asked of the output m that the executor of contract a returns for the message of
      the executive e of context c: it is for the same context and the frame that ran, it
      reports only keys nobody else holds, a refusal comes from a context without locks, and a
      created address is neither empty nor the contract just left. */
  ghost predicate OutputOk(env: Env, s: State, a: string, c: int, m: Message)
    requires c in s.execs
  {
    var e := s.execs[c].(message := m, moved := false);
    && m.contextID == c && m.frame == s.execs[c].message.frame
    && (m.typ == SEND_BACK ==> m.keyLocks == [] && !Busy(s.locks, c))
    && Grantable(s.locks, m, c)
    && (Creates(e) ==> Dest(env, e) != "" && Dest(env, e) != a)
  }

  /** The executors' side of the contract for a round sent from s. */
  ghost predicate EnvOk(env: Env, s: State) {
    && Answers(env, s)
    && (forall c :: c in AllSent(s) ==> OutputOk(env, s, Sender(s, c).value, c, Output(env, s, c)))
    && (forall c, d :: c in AllSent(s) && d in AllSent(s) && c != d ==>
          Claims(Output(env, s, c)) !! Claims(Output(env, s, d)))
  }

  lemma SenderIsPlace(env: Env, s: State, pl: Places, c: int)
    requires Inv(env, s, pl) && c in pl
    ensures Sender(s, c).Some? <==> pl[c].Ready?
    ensures pl[c].Ready? ==> Sender(s, c) == Some(pl[c].at)
  {
    if Sender(s, c).Some? {
      var a := Sender(s, c).value;
      assert PoolOk(s.pools[a], a, pl);
    }
    if pl[c].Ready? {
      var a := pl[c].at;
      assert PoolOk(s.pools[a], a, pl);
    }
  }

  lemma ReadyIsExec(env: Env, s: State, pl: Places, a: string, c: int)
    requires Inv(env, s, pl) && a in s.pools && c in s.pools[a].needSend
    ensures c in pl && pl[c] == Ready(a) && c in s.execs && ExecOk(env, s.execs[c], Ready(a), c)
    ensures c in s.pools[a].pending
  {
    assert PoolOk(s.pools[a], a, pl);
    assert ExecOk(env, s.execs[c], pl[c], c);
  }

  lemma PendingIsHome(env: Env, s: State, pl: Places, a: string, c: int)
    requires Inv(env, s, pl) && a in s.pools && Leaving(s.pools[a]) == {} && c in s.pools[a].pending
    ensures c in pl && Home(pl[c], a)
  {
    assert PoolOk(s.pools[a], a, pl);
  }

  /** A scheduled state is ready for the parallel part. */
  lemma ScheduledIsSendable(env: Env, s: State, pl: Places)
    requires Scheduled(env, s, pl)
    ensures Sendable(s)
  {
    hide Inv;
    forall a, c | a in s.pools && c in s.pools[a].needSend ensures c in s.pools[a].pending {
      ReadyIsExec(env, s, pl, a, c);
    }
    forall a, c | a in s.pools && c in s.pools[a].needSend
      ensures c in s.execs && !s.execs[c].moved && Sender(s, c) == Some(a)
    {
      ReadyIsExec(env, s, pl, a, c);
      SenderIsPlace(env, s, pl, c);
    }
    forall a, b, c | a in s.pools && b in s.pools && c in s.pools[a].needSend && c in s.pools[b].pending
      ensures a == b
    {
      ReadyIsExec(env, s, pl, a, c);
      PendingIsHome(env, s, pl, b, c);
    }
    NoFault(env, s, pl);
  }

  lemma NoFault(env: Env, s: State, pl: Places)
    requires Inv(env, s, pl)
    ensures s.fault.None? && s.execs.Keys == pl.Keys
  {}

  /** Where the contexts are after the round. */
  ghost function PlacesAfter(env: Env, s: State, pl: Places): (r: Places)
    requires s.execs.Keys == pl.Keys && forall c :: c in pl && pl[c].Ready? ==> Sender(s, c).Some?
  {
    map c | c in pl :: if pl[c].Ready? then Prep(Output(env, s, c).to) else pl[c]
  }

  /** Membership of one context in a pool after the round. */
  lemma ContextAfter(env: Env, s: State, pl: Places, a: string, c: int)
    requires Scheduled(env, s, pl) && c in pl
    ensures s.execs.Keys == pl.Keys && (pl[c].Ready? ==> Sender(s, c).Some?)
    ensures WentTo(env, s, AllSent(s), c, a) <==> pl[c].Ready? && Output(env, s, c).to == a
    ensures CameFrom(s, AllSent(s), c, a) <==> pl[c] == Ready(a)
  {
    hide Inv, Output;
    NoFault(env, s, pl);
    SenderIsPlace(env, s, pl, c);
  }

  lemma PoolBefore(env: Env, s: State, pl: Places, a: string)
    requires Scheduled(env, s, pl)
    ensures var p := PoolAt(s, a);
            && p.needPrepare == {} && Leaving(p) == {}
            && (forall c :: c in p.pending <==> c in pl && (pl[c] == Ready(a) || pl[c] == Locked(a)))
            && (forall c :: c in pl && pl[c] == Locked(a) ==> c in p.hasLocked)
            && (forall c :: c in p.hasLocked ==> c in p.pending)
            && (a in s.pools || p.needSend == {})
  {
    hide ExecsOk, RoutesOk, GrantsOk, ResultsOk, EdgesFollowStacks, WellFormed;
    var p := PoolAt(s, a);
    if a in s.pools {
      assert PoolOk(p, a, pl);
      hide PoolsOk;
      Inhabited(p.needPrepare);
    }
  }

  /** One context in a pool after the round. */
  lemma MemberAfter(env: Env, s: State, pl: Places, a: string, c: int)
    requires Scheduled(env, s, pl) && s.execs.Keys == pl.Keys
    requires forall x :: x in pl && pl[x].Ready? ==> Sender(s, x).Some?
    ensures var p', pl' := PoolAfter(env, s, s.pools.Keys, AllSent(s), a), PlacesAfter(env, s, pl);
            && (c in p'.needPrepare <==> c in pl' && pl'[c] == Prep(a))
            && (c in p'.needSend <==> c in pl' && pl'[c] == Ready(a))
            && (c in pl' && pl'[c] == Locked(a) ==> c in p'.hasLocked)
            && (c in p'.pending <==> (c in pl' && Home(pl'[c], a)) || c in Leaving(p'))
            && (c in Leaving(p') ==> !(c in pl' && Home(pl'[c], a)))
            && (c in p'.hasLocked ==> c in p'.pending)
  {
    hide Inv, Output, Sender, WentTo, CameFrom;
    PoolBefore(env, s, pl, a);
    if c in pl {
      ContextAfter(env, s, pl, a, c);
      SentIsReady(env, s, pl, c);
    } else {
      assert c !in AllSent(s);
    }
  }

  lemma PoolAfterOk(env: Env, s: State, pl: Places, a: string)
    requires Scheduled(env, s, pl) && s.execs.Keys == pl.Keys
    requires forall c :: c in pl && pl[c].Ready? ==> Sender(s, c).Some?
    ensures PoolOk(PoolAfter(env, s, s.pools.Keys, AllSent(s), a), a, PlacesAfter(env, s, pl))
  {
    hide Scheduled, PoolAfter, PlacesAfter;
    forall c { MemberAfter(env, s, pl, a, c); }
  }

  lemma SentIsReady(env: Env, s: State, pl: Places, c: int)
    requires Scheduled(env, s, pl) && c in pl
    ensures c in AllSent(s) <==> pl[c].Ready?
  {
    SenderIsPlace(env, s, pl, c);
  }

  // ----- the rest of the invariant -----

  lemma PoolsAfterOk(env: Env, s: State, pl: Places)
    requires Scheduled(env, s, pl) && s.execs.Keys == pl.Keys
    requires forall c :: c in pl && pl[c].Ready? ==> Sender(s, c).Some?
    ensures PoolsOk(RoundResult(env, s).pools, PlacesAfter(env, s, pl))
  {
    hide Output, PoolAfter, Sender, PoolOk, Inv;
    var pools, pl' := RoundResult(env, s).pools, PlacesAfter(env, s, pl);
    forall a | a in pools ensures PoolOk(pools[a], a, pl') {
      PoolAfterOk(env, s, pl, a);
    }
    forall c | c in pl' && !pl'[c].Done? ensures pl'[c].at in pools {
      if pl[c].Ready? {
        SentIsReady(env, s, pl, c);
        assert Output(env, s, c).to in Targets(env, s, AllSent(s));
      } else {
        PlacedInPool(env, s, pl, c);
      }
    }
  }

  lemma PlacedInPool(env: Env, s: State, pl: Places, c: int)
    requires Inv(env, s, pl) && c in pl && !pl[c].Done?
    ensures pl[c].at in s.pools
  {}

  /** The executive of one context after the round. */
  lemma ExecAfterOk(env: Env, s: State, pl: Places, c: int)
    requires Scheduled(env, s, pl) && EnvOk(env, s) && c in pl && s.execs.Keys == pl.Keys
    requires forall x :: x in pl && pl[x].Ready? ==> Sender(s, x).Some?
    ensures var e := RoundResult(env, s).execs[c];
            && (pl[c].Ready? ==> e == s.execs[c].(message := Output(env, s, c), moved := false))
            && (!pl[c].Ready? ==> e == s.execs[c])
            && ExecOk(env, e, PlacesAfter(env, s, pl)[c], c) && e.callStack == s.execs[c].callStack
  {
    hide Inv, Output, Sender, PoolAfter, Targets, NextBatches, Answers, Dest, ExecOk, OutputOk;
    SentIsReady(env, s, pl, c);
    SenderIsPlace(env, s, pl, c);
    ExecBefore(env, s, pl, c);
    var e := RoundResult(env, s).execs[c];
    assert e == ExecAfter(env, s, s.pools.Keys, AllSent(s), c);
    if pl[c].Ready? {
      assert OutputOk(env, s, Sender(s, c).value, c, Output(env, s, c));
      AnsweredExecOk(env, s, pl[c].at, c, Output(env, s, c));
    }
  }

  /** An executive with an answer within the contract awaits handling. */
  lemma AnsweredExecOk(env: Env, s: State, a: string, c: int, m: Message)
    requires c in s.execs && ExecOk(env, s.execs[c], Ready(a), c) && OutputOk(env, s, a, c, m)
    ensures ExecOk(env, s.execs[c].(message := m, moved := false), Prep(m.to), c)
  {
    hide Dest, Grantable, Busy;
  }

  lemma ExecBefore(env: Env, s: State, pl: Places, c: int)
    requires Inv(env, s, pl) && c in pl
    ensures c in s.execs && ExecOk(env, s.execs[c], pl[c], c)
  {}

  lemma RouteAfterOk(env: Env, s: State, pl: Places, c: int)
    requires Scheduled(env, s, pl) && EnvOk(env, s) && c in pl && s.execs.Keys == pl.Keys
    requires forall x :: x in pl && pl[x].Ready? ==> Sender(s, x).Some?
    ensures c in RoundResult(env, s).execs && RouteOk(env, RoundResult(env, s), PlacesAfter(env, s, pl), c)
  {
    hide Inv, Output, Sender, PoolAfter, NextBatches, Answers, RoundResult, Scheduled, PlacesAfter;
    var s', pl' := RoundResult(env, s), PlacesAfter(env, s, pl);
    ExecAfterOk(env, s, pl, c);
    ResultFields(env, s);
    PlaceAfter(env, s, pl, c);
    CalmAt(env, s, pl, c);
    if pl[c].Ready? {
      SentIsReady(env, s, pl, c);
      SenderIsPlaceScheduled(env, s, pl, c);
      var a, e := pl[c].at, s'.execs[c];
      assert OutputOk(env, s, a, c, Output(env, s, c));
      var d := Dest(env, e);
      if d != e.message.to {
        assert Creates(e) && e.message.to == "";
        MemberAfter(env, s, pl, d, c);
        PoolAtResult(env, s, d);
        NotLeaving(env, s, pl, d, c);
      }
    }
  }

  lemma CalmAt(env: Env, s: State, pl: Places, c: int)
    requires Scheduled(env, s, pl) && c in pl
    ensures !Unhandled(pl[c])
  {}

  lemma SenderIsPlaceScheduled(env: Env, s: State, pl: Places, c: int)
    requires Scheduled(env, s, pl) && c in pl && pl[c].Ready?
    ensures Sender(s, c) == Some(pl[c].at)
  {
    SenderIsPlace(env, s, pl, c);
  }

  lemma ResultFields(env: Env, s: State)
    ensures RoundResult(env, s) == s.(pools := RoundResult(env, s).pools, execs := RoundResult(env, s).execs,
                                      batches := RoundResult(env, s).batches)
    ensures RoundResult(env, s).execs.Keys == s.execs.Keys
  {}

  lemma PlaceAfter(env: Env, s: State, pl: Places, c: int)
    requires s.execs.Keys == pl.Keys && c in pl
    requires forall x :: x in pl && pl[x].Ready? ==> Sender(s, x).Some?
    ensures var pl' := PlacesAfter(env, s, pl);
            pl'.Keys == pl.Keys && pl'[c] == if pl[c].Ready? then Prep(Output(env, s, c).to) else pl[c]
  {}

  lemma PoolAtResult(env: Env, s: State, a: string)
    ensures var p := PoolAt(RoundResult(env, s), a);
            p == PoolAfter(env, s, s.pools.Keys, AllSent(s), a) || p == EMPTY_POOL
  {}

  /** A context is leaving no pool but the one it was sent from. */
  lemma NotLeaving(env: Env, s: State, pl: Places, d: string, c: int)
    requires Scheduled(env, s, pl) && c in pl && pl[c].Ready? && pl[c].at != d
    ensures c !in Leaving(PoolAfter(env, s, s.pools.Keys, AllSent(s), d))
  {
    hide Inv, Output;
    PoolBefore(env, s, pl, d);
    ContextAfter(env, s, pl, d, c);
  }

  lemma GrantsAfterOk(env: Env, s: State, pl: Places)
    requires Scheduled(env, s, pl) && EnvOk(env, s) && s.execs.Keys == pl.Keys
    requires forall x :: x in pl && pl[x].Ready? ==> Sender(s, x).Some?
    ensures RoundResult(env, s).execs.Keys == PlacesAfter(env, s, pl).Keys
            && GrantsOk(RoundResult(env, s), PlacesAfter(env, s, pl))
  {
    hide Inv, Output, Sender, Answers, RoundResult, Scheduled, PlacesAfter, ExecOk, AllSent, Dest, Creates, Grantable,
        Claims, Busy;
    var s', pl' := RoundResult(env, s), PlacesAfter(env, s, pl);
    ResultFields(env, s);
    forall c | c in pl
      ensures pl'.Keys == pl.Keys
      ensures Unhandled(pl'[c]) ==> c in AllSent(s) && Sender(s, c).Some? && s'.execs[c].message == Output(env, s, c)
    {
      PlaceAfter(env, s, pl, c);
      CalmAt(env, s, pl, c);
      ExecAfterOk(env, s, pl, c);
      SentIsReady(env, s, pl, c);
    }
    PlacesAfterKeys(env, s, pl);
    forall c | c in pl' && Unhandled(pl'[c])
      ensures Grantable(s'.locks, s'.execs[c].message, c)
              && (s'.execs[c].message.typ == SEND_BACK ==> !Busy(s'.locks, c))
    {
      assert OutputOk(env, s, Sender(s, c).value, c, Output(env, s, c));
    }
    forall c, d | c in pl' && d in pl' && c != d && Unhandled(pl'[c]) && Unhandled(pl'[d])
      ensures Claims(s'.execs[c].message) !! Claims(s'.execs[d].message)
    {
      assert Claims(Output(env, s, c)) !! Claims(Output(env, s, d));
    }
  }

  lemma PlacesAfterKeys(env: Env, s: State, pl: Places)
    requires s.execs.Keys == pl.Keys
    requires forall x :: x in pl && pl[x].Ready? ==> Sender(s, x).Some?
    ensures PlacesAfter(env, s, pl).Keys == pl.Keys
    ensures forall c :: c in pl ==> Outcome(PlacesAfter(env, s, pl)[c]) == Outcome(pl[c])
  {
    hide Output;
  }

  lemma LocksBefore(env: Env, s: State, pl: Places)
    requires Scheduled(env, s, pl)
    ensures WellFormed(s.locks) && EdgesFollowStacks(s.locks, s.execs) && s.fault.None? && s.execs.Keys == pl.Keys
    ensures ResultsOk(env, s.results, s.gasUsed, s.written, pl)
    ensures forall c :: c in pl && pl[c].Ready? ==> Sender(s, c).Some?
  {
    hide Sender;
    forall c | c in pl && pl[c].Ready? ensures Sender(s, c).Some? {
      SenderIsPlace(env, s, pl, c);
    }
  }

  lemma SameDone(env: Env, s: State, pl: Places, pl': Places)
    requires ResultsOk(env, s.results, s.gasUsed, s.written, pl) && pl'.Keys == pl.Keys
    requires forall c :: c in pl ==> Outcome(pl'[c]) == Outcome(pl[c])
    ensures ResultsOk(env, s.results, s.gasUsed, s.written, pl')
  {}

  /** A round leads from a scheduled state to a state of the invariant. */
  lemma RoundKeeps(env: Env, s: State, pl: Places) returns (pl': Places)
    requires Scheduled(env, s, pl) && EnvOk(env, s)
    ensures Inv(env, RoundResult(env, s), pl') && NoTransit(pl')
  {
    hide Output, Sender, EnvOk, RoundResult, Scheduled, PlacesAfter, ExecOk, WellFormed, ResultsOk, GrantsOk, PoolsOk,
        RouteOk;
    LocksBefore(env, s, pl);
    pl' := PlacesAfter(env, s, pl);
    var s' := RoundResult(env, s);
    ResultFields(env, s);
    PlacesAfterKeys(env, s, pl);
    PoolsAfterOk(env, s, pl);
    GrantsAfterOk(env, s, pl);
    SameDone(env, s, pl, pl');
    forall c | c in pl'
      ensures ExecOk(env, s'.execs[c], pl'[c], c) && RouteOk(env, s', pl', c) && !pl'[c].Transit?
      ensures s'.execs[c].callStack == s.execs[c].callStack
    {
      ExecAfterOk(env, s, pl, c);
      RouteAfterOk(env, s, pl, c);
      PlaceAfter(env, s, pl, c);
      CalmAt(env, s, pl, c);
    }
    assert EdgesFollowStacks(s'.locks, s'.execs);
  }
}
