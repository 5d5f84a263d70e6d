/** Every legal interleaving of a round: one state, one continuation, one decision. */
module DmcJoin {
  import opened Ordering
  import opened LockGraph
  import opened Options
  import opened Dmc
  import opened DmcRound
  import opened DmcConfluence

  predicate AllFinished(s: State) {
    forall a :: a in s.pools ==> Finished(s.pools[a])
  }

  /** Another round exactly when some executor was unfinished before the round. */
  function DecisionFor(s: State): (d: Decision) {
    if AllFinished(s) then FinishBlock else NextRound
  }

  ghost function Late(r: Round): (x: set<string>) {
    set a | a in r.counted && a in r.gone && r.gone[a] == FINISHED_STATUS
  }

  ghost predicate StateOk(env: Env, s: State, r: Round) {
    && r.gone.Keys <= s.pools.Keys && SentBy(s, r.gone.Keys, r.received)
    && r.state == StateAfter(env, s, r.gone.Keys, r.received)
    && (forall a :: a in r.flight <==> a in r.gone && s.pools[a].needSend != {})
    && (forall a :: a in r.flight ==> r.flight[a] == s.pools[a].needSend)
    && (forall a :: a in r.gone && r.gone[a] == FINISHED_STATUS ==> Finished(s.pools[a]))
    && (AllFinished(s) ==> forall a :: a in r.gone ==> r.gone[a] == FINISHED_STATUS)
  }

  ghost predicate CountsOk(s: State, r: Round) {
    && r.checked <= r.counted <= r.gone.Keys <= s.pools.Keys
    && (forall a :: a in r.counted && a in r.flight ==> r.flight[a] <= r.received)
    && r.finished == |Late(r)| && r.paused == |r.counted - Late(r)|
  }

  ghost predicate JoinOk(s: State, r: Round) {
    if r.callbackExecuted then r.decisions == [DecisionFor(s)] && r.counted == s.pools.Keys
    else r.decisions == [] && r.checked != s.pools.Keys
  }

  ghost predicate RoundInv(env: Env, s: State, r: Round) {
    StateOk(env, s, r) && CountsOk(s, r) && JoinOk(s, r)
  }

  lemma SamePool(env: Env, s: State, a: string)
    requires a in s.pools
    ensures PoolAfter(env, s, {}, {}, a) == s.pools[a]
  {
    hide WentTo, CameFrom;
  }

  lemma NothingYet(env: Env, s: State)
    ensures StateAfter(env, s, {}, {}) == s
  {
    hide Output, NextBatches, Outgoing, Sender, PoolAfter;
    var s1 := StateAfter(env, s, {}, {});
    forall a | a in s.pools ensures PoolAfter(env, s, {}, {}, a) == s.pools[a] { SamePool(env, s, a); }
    assert s1.pools.Keys == s.pools.Keys;
    assert s1.pools == s.pools;
    assert s1.execs == s.execs;
    assert s1.batches.Keys == s.batches.Keys;
    assert s1.batches == s.batches;
  }

  lemma StartOk(env: Env, s: State)
    requires s.pools != map[]
    ensures RoundInv(env, s, Start(s))
  {
    hide StateAfter, DecisionFor;
    NothingYet(env, s);
    assert Start(s).gone.Keys == {};
    assert s.pools.Keys != {};
  }

  lemma NobodySends(s: State, received: set<int>, gone: set<string>)
    requires Sendable(s) && AllFinished(s) && SentBy(s, gone, received)
    ensures received == {}
  {
    forall a | a in s.pools ensures s.pools[a].needSend == {} {
      var p := s.pools[a];
      assert Finished(p);
      Inhabited(p.needSend);
    }
    Inhabited(received);
  }

  lemma GoStateOk(env: Env, s: State, r: Round, a: string)
    requires Sendable(s) && StateOk(env, s, r) && Enabled(s.pools.Keys, r, GoCall(a))
    ensures StateOk(env, s, Apply(env, s.pools.Keys, r, GoCall(a)))
  {
    hide Go, StateAfter, Sendable, Sender;
    var r' := Apply(env, s.pools.Keys, r, GoCall(a));
    GoStep(env, s, r.gone.Keys, r.received, a);
    assert r'.gone.Keys == r.gone.Keys + {a};
    if AllFinished(s) {
      NobodySends(s, r.received, r.gone.Keys);
      FinishedStays(env, s, r.gone.Keys, a);
    }
  }

  lemma FinishedStays(env: Env, s: State, gone: set<string>, a: string)
    requires a in s.pools && Finished(s.pools[a])
    ensures Finished(PoolAt(StateAfter(env, s, gone, {}), a))
  {
    PoolAtAfter(env, s, gone, {}, a);
  }

  lemma GoCountsOk(env: Env, s: State, r: Round, a: string)
    requires CountsOk(s, r) && JoinOk(s, r) && Enabled(s.pools.Keys, r, GoCall(a))
    ensures CountsOk(s, Apply(env, s.pools.Keys, r, GoCall(a))) && JoinOk(s, Apply(env, s.pools.Keys, r, GoCall(a)))
  {
    hide Go, ToSend, DecisionFor, GoStatus, Finished, PoolAt;
    var r' := Apply(env, s.pools.Keys, r, GoCall(a));
    assert r'.gone.Keys == r.gone.Keys + {a};
    assert forall b :: b in r.counted ==> b in r'.gone && r'.gone[b] == r.gone[b];
    assert Late(r') == Late(r);
    hide Late;
  }

  lemma ReceiveOk(env: Env, s: State, r: Round, a: string, c: int)
    requires Sendable(s) && Answers(env, s) && StateOk(env, s, r) && Enabled(s.pools.Keys, r, Receive(a, c))
    ensures StateOk(env, s, Apply(env, s.pools.Keys, r, Receive(a, c)))
  {
    hide HandleOutput, StateAfter, DecisionFor, BatchesAt, Finished, Sendable, Answers, Sender;
    var r' := Apply(env, s.pools.Keys, r, Receive(a, c));
    SendableFacts(s, a, c);
    ReceiveStep(env, s, r.gone.Keys, r.received, a, c);
  }

  /** Events that do not touch the counters keep them. */
  lemma SameCounts(s: State, r: Round, r': Round)
    requires CountsOk(s, r) && JoinOk(s, r) && r.received <= r'.received
    requires r' == r.(state := r'.state, received := r'.received)
    ensures CountsOk(s, r') && JoinOk(s, r')
  {
    hide DecisionFor;
    assert Late(r') == Late(r);
  }

  /** Counting and checking keep the state. */
  lemma SameState(env: Env, s: State, r: Round, r': Round)
    requires StateOk(env, s, r)
    requires r'.state == r.state && r'.gone == r.gone && r'.flight == r.flight && r'.received == r.received
    ensures StateOk(env, s, r')
  {
    hide StateAfter, Finished;
  }

  lemma LateStep(r: Round, r': Round, a: string)
    requires a in r.gone && a !in r.counted && r'.counted == r.counted + {a} && r'.gone == r.gone
    ensures |Late(r')| == |Late(r)| + (if r.gone[a] == FINISHED_STATUS then 1 else 0)
    ensures |r'.counted - Late(r')| == |r.counted - Late(r)| + (if r.gone[a] == FINISHED_STATUS then 0 else 1)
  {
    if r.gone[a] == FINISHED_STATUS {
      assert Late(r') == Late(r) + {a};
      assert r'.counted - Late(r') == r.counted - Late(r);
    } else {
      assert Late(r') == Late(r);
      assert r'.counted - Late(r') == (r.counted - Late(r)) + {a};
    }
  }

  lemma CountOk(env: Env, s: State, r: Round, a: string)
    requires CountsOk(s, r) && JoinOk(s, r) && Enabled(s.pools.Keys, r, Count(a))
    ensures CountsOk(s, Apply(env, s.pools.Keys, r, Count(a))) && JoinOk(s, Apply(env, s.pools.Keys, r, Count(a)))
  {
    hide DecisionFor, Late, Go, HandleOutput, GoStatus;
    var r' := Apply(env, s.pools.Keys, r, Count(a));
    LateStep(r, r', a);
    assert r.counted != s.pools.Keys;
  }

  lemma SubsetOfSameSize<T>(a: set<T>, b: set<T>)
    requires a <= b && |a| == |b|
    ensures a == b
  {
    assert b == a + (b - a);
    assert |b| == |a| + |b - a|;
  }

  lemma SizeOfCounted(r: Round)
    ensures |r.counted| == |Late(r)| + |r.counted - Late(r)|
  {
    assert r.counted == Late(r) + (r.counted - Late(r));
  }

  /** When all have reported, the counters give the decision of the scheduled state. */
  lemma DecisionAgrees(env: Env, s: State, r: Round)
    requires StateOk(env, s, r) && CountsOk(s, r) && r.paused + r.finished == |s.pools.Keys|
    ensures r.counted == s.pools.Keys && Decide(r, |s.pools.Keys|) == DecisionFor(s)
  {
    hide StateAfter;
    SizeOfCounted(r);
    SubsetOfSameSize(r.counted, s.pools.Keys);
    if AllFinished(s) {
      assert Late(r) == r.counted;
    } else {
      var a :| a in s.pools && !Finished(s.pools[a]);
      assert a in r.counted - Late(r);
    }
  }

  lemma CheckCounts(env: Env, s: State, r: Round, a: string)
    requires CountsOk(s, r) && Enabled(s.pools.Keys, r, Check(a))
    ensures CountsOk(s, Apply(env, s.pools.Keys, r, Check(a)))
  {
    hide Decide, Late;
    var r' := Apply(env, s.pools.Keys, r, Check(a));
    assert r' == r.(checked := r.checked + {a}, callbackExecuted := r'.callbackExecuted, decisions := r'.decisions);
    hide Apply;
    SameLate(r, r');
  }

  lemma SameLate(r: Round, r': Round)
    requires r'.counted == r.counted && r'.gone == r.gone
    ensures Late(r') == Late(r)
  {}

  /** The counters reach the number of executors exactly when all have been counted. */
  lemma AllCounted(s: State, r: Round)
    requires CountsOk(s, r)
    ensures r.paused + r.finished == |s.pools.Keys| <==> r.counted == s.pools.Keys
  {
    SizeOfCounted(r);
    hide Late;
    if r.paused + r.finished == |s.pools.Keys| {
      SubsetOfSameSize(r.counted, s.pools.Keys);
    }
  }

  lemma CheckOk(env: Env, s: State, r: Round, a: string)
    requires StateOk(env, s, r) && CountsOk(s, r) && JoinOk(s, r) && Enabled(s.pools.Keys, r, Check(a))
    ensures CountsOk(s, Apply(env, s.pools.Keys, r, Check(a))) && JoinOk(s, Apply(env, s.pools.Keys, r, Check(a)))
  {
    hide StateOk, DecisionFor, Decide, Late, JoinOk, Apply;
    CheckCounts(env, s, r, a);
    AllCounted(s, r);
    if r.counted == s.pools.Keys {
      DecisionAgrees(env, s, r);
    }
    CheckJoins(env, s, r, a);
  }

  lemma CheckJoins(env: Env, s: State, r: Round, a: string)
    requires JoinOk(s, r) && a in r.counted && r.checked <= r.counted <= s.pools.Keys
    requires r.paused + r.finished == |s.pools.Keys| <==> r.counted == s.pools.Keys
    requires r.counted == s.pools.Keys ==> Decide(r, |s.pools.Keys|) == DecisionFor(s)
    ensures JoinOk(s, Apply(env, s.pools.Keys, r, Check(a)))
  {
    hide DecisionFor, Decide;
  }

  lemma {:induction false} PlayKeeps(env: Env, s: State, events: seq<Event>)
    requires Sendable(s) && Answers(env, s) && s.pools != map[] && Legal(env, s, events)
    ensures RoundInv(env, s, Play(env, s, events))
    decreases |events|
  {
    hide RoundInv, Apply, Enabled;
    if events == [] {
      StartOk(env, s);
    } else {
      var init, ev := events[..|events| - 1], events[|events| - 1];
      PlayKeeps(env, s, init);
      EventKeeps(env, s, Play(env, s, init), ev);
    }
  }

  lemma EventKeeps(env: Env, s: State, r: Round, ev: Event)
    requires Sendable(s) && Answers(env, s) && RoundInv(env, s, r) && Enabled(s.pools.Keys, r, ev)
    ensures RoundInv(env, s, Apply(env, s.pools.Keys, r, ev))
  {
    hide StateOk, CountsOk, JoinOk, HandleOutput, Go, ToSend, Finished, GoStatus;
    match ev
    case GoCall(a) => GoStateOk(env, s, r, a); GoCountsOk(env, s, r, a);
    case Receive(a, c) =>
      ReceiveOk(env, s, r, a, c);
      SameCounts(s, r, Apply(env, s.pools.Keys, r, ev));
    case Count(a) =>
      SameState(env, s, r, Apply(env, s.pools.Keys, r, ev));
      CountOk(env, s, r, a);
    case Check(a) =>
      SameState(env, s, r, Apply(env, s.pools.Keys, r, ev));
      CheckOk(env, s, r, a);
  }

  lemma SentIsReceived(env: Env, s: State, r: Round, c: int)
    requires StateOk(env, s, r) && CountsOk(s, r) && r.counted == s.pools.Keys && c in AllSent(s)
    ensures c in r.received
  {
    hide StateAfter, Finished, Late, SentBy;
    var a := Sender(s, c).value;
    assert a in r.counted && s.pools[a].needSend != {};
    assert a in r.flight && c in r.flight[a];
  }

  lemma ReceivedIsSent(env: Env, s: State, r: Round)
    requires StateOk(env, s, r)
    ensures forall c :: c in r.received ==> c in AllSent(s)
  {
    hide StateAfter, Finished;
  }

  lemma AllReceived(env: Env, s: State, r: Round)
    requires RoundInv(env, s, r) && r.counted == s.pools.Keys
    ensures r.received == AllSent(s) && r.gone.Keys == s.pools.Keys
  {
    hide StateOk, JoinOk, AllSent;
    ReceivedIsSent(env, s, r);
    forall c | c in AllSent(s) ensures c in r.received { SentIsReceived(env, s, r, c); }
    SameElements(r.received, AllSent(s));
  }

  /** Round determinism and the exactly-once join, for every legal interleaving: the
      continuation runs at most once, it has run when every callback is through, and then the
      scheduler is in the one state and takes the one decision that the start determines. */
  lemma RoundIsDeterministic(env: Env, s: State, events: seq<Event>)
    requires Sendable(s) && Answers(env, s) && s.pools != map[] && Legal(env, s, events)
    ensures var r := Play(env, s, events);
            && |r.decisions| <= 1
            && (r.checked == s.pools.Keys ==> r.callbackExecuted)
            && (r.callbackExecuted ==> r.decisions == [DecisionFor(s)] && r.state == RoundResult(env, s))
  {
    hide StateAfter;
    PlayKeeps(env, s, events);
    var r := Play(env, s, events);
    if r.callbackExecuted {
      AllReceived(env, s, r);
    }
  }

  // ----- a round ends -----

  /** The calls, outputs, counts and checks that have happened, in numbers. */
  ghost function Happened(r: Round): (n: nat) {
    |r.gone| + |r.received| + |r.counted| + |r.checked|
  }

  lemma GoHappens(env: Env, participants: set<string>, r: Round, a: string)
    requires Enabled(participants, r, GoCall(a))
    ensures Happened(Apply(env, participants, r, GoCall(a))) == Happened(r) + 1
  {
    hide Go, GoStatus, ToSend, Finished, PoolAt;
    var r' := Apply(env, participants, r, GoCall(a));
    assert r'.gone.Keys == r.gone.Keys + {a};
    assert |r'.gone| == |r'.gone.Keys| && |r.gone| == |r.gone.Keys|;
  }

  /** Every event marks one more of them as done. */
  lemma OneEventMore(env: Env, participants: set<string>, r: Round, ev: Event)
    requires Enabled(participants, r, ev)
    ensures Happened(Apply(env, participants, r, ev)) == Happened(r) + 1
  {
    hide Apply, Happened;
    match ev
    case GoCall(a) => GoHappens(env, participants, r, a);
    case Receive(a, c) => ReceiveHappens(env, participants, r, a, c);
    case Count(a) => CountHappens(env, participants, r, a);
    case Check(a) => CheckHappens(env, participants, r, a);
  }

  lemma ReceiveHappens(env: Env, participants: set<string>, r: Round, a: string, c: int)
    requires Enabled(participants, r, Receive(a, c))
    ensures Happened(Apply(env, participants, r, Receive(a, c))) == Happened(r) + 1
  {
    hide HandleOutput, BatchesAt;
  }

  lemma CountHappens(env: Env, participants: set<string>, r: Round, a: string)
    requires Enabled(participants, r, Count(a))
    ensures Happened(Apply(env, participants, r, Count(a))) == Happened(r) + 1
  {}

  lemma CheckHappens(env: Env, participants: set<string>, r: Round, a: string)
    requires Enabled(participants, r, Check(a))
    ensures Happened(Apply(env, participants, r, Check(a))) == Happened(r) + 1
  {
    hide Decide;
  }

  lemma {:induction false} EventsAreCounted(env: Env, s: State, events: seq<Event>)
    requires Legal(env, s, events)
    ensures |events| == Happened(Play(env, s, events))
    decreases |events|
  {
    hide Apply, Enabled;
    if events != [] {
      var init, ev := events[..|events| - 1], events[|events| - 1];
      EventsAreCounted(env, s, init);
      OneEventMore(env, s.pools.Keys, Play(env, s, init), ev);
    }
  }

  lemma SmallerSet<T>(a: set<T>, b: set<T>)
    requires a <= b
    ensures |a| <= |b|
  {
    assert b == a + (b - a);
  }

  lemma EventsAreBounded(env: Env, s: State, events: seq<Event>)
    requires Sendable(s) && Answers(env, s) && s.pools != map[] && Legal(env, s, events)
    ensures |events| <= 3 * |s.pools| + |AllSent(s)|
  {
    hide Legal, Play, Apply, StateAfter, Sendable, Answers;
    PlayKeeps(env, s, events);
    EventsAreCounted(env, s, events);
    var r := Play(env, s, events);
    SomethingLeft(r.received, AllSent(s));
    hide StateOk, JoinOk, AllSent;
    SmallerSet(r.gone.Keys, s.pools.Keys);
    SmallerSet(r.counted, s.pools.Keys);
    SmallerSet(r.checked, s.pools.Keys);
    SmallerSet(r.received, AllSent(s));
    assert |r.gone| == |r.gone.Keys| && |s.pools| == |s.pools.Keys|;
  }

  lemma SomethingEnabled(env: Env, s: State, events: seq<Event>)
    requires Sendable(s) && Answers(env, s) && s.pools != map[] && Legal(env, s, events)
    ensures var r := Play(env, s, events);
            r.callbackExecuted || exists ev :: Enabled(s.pools.Keys, r, ev)
  {
    hide StateOk, Answers, Sendable, Legal, Play, Apply;
    PlayKeeps(env, s, events);
    var r := Play(env, s, events);
    if a :| a in s.pools && a !in r.gone {
      assert Enabled(s.pools.Keys, r, GoCall(a));
    } else if a :| a in s.pools && a !in r.counted {
      if a in r.flight && !(r.flight[a] <= r.received) {
        SomethingLeft(r.flight[a], r.received);
        var c :| c in r.flight[a] && c !in r.received;
        assert Enabled(s.pools.Keys, r, Receive(a, c));
      } else {
        assert Enabled(s.pools.Keys, r, Count(a));
      }
    } else if a :| a in s.pools && a !in r.checked {
      assert Enabled(s.pools.Keys, r, Check(a));
    } else {
      assert r.checked == s.pools.Keys;
    }
  }

  /** A round cannot hang: the number of events is bounded by the calls and the messages sent,
      and until the continuation has run there is always a next event. */
  lemma RoundGoesOn(env: Env, s: State, events: seq<Event>)
    requires Sendable(s) && Answers(env, s) && s.pools != map[] && Legal(env, s, events)
    ensures |events| <= 3 * |s.pools| + |AllSent(s)|
    ensures var r := Play(env, s, events);
            r.callbackExecuted || exists ev :: Enabled(s.pools.Keys, r, ev)
  {
    hide Sendable, Answers, Legal, Play, AllSent, Enabled;
    EventsAreBounded(env, s, events);
    SomethingEnabled(env, s, events);
  }

  /** Every beginning of a round can be played to its continuation. */
  lemma {:induction false} RoundCompletes(env: Env, s: State, events: seq<Event>) returns (all: seq<Event>)
    requires Sendable(s) && Answers(env, s) && s.pools != map[] && Legal(env, s, events)
    ensures Legal(env, s, all) && Play(env, s, all).callbackExecuted && events <= all
    decreases 3 * |s.pools| + |AllSent(s)| - |events|
  {
    hide Sendable, Answers, AllSent, Enabled, Apply;
    RoundGoesOn(env, s, events);
    if Play(env, s, events).callbackExecuted {
      all := events;
    } else {
      var ev :| Enabled(s.pools.Keys, Play(env, s, events), ev);
      var next := events + [ev];
      assert next[..|next| - 1] == events;
      EventsAreBounded(env, s, next);
      all := RoundCompletes(env, s, next);
    }
  }
}
