/** Round determinism: whatever the interleaving of go calls and callbacks, the round ends in
    the same state, and its continuation runs once with the same decision. */
module DmcConfluence {
  import opened Ordering
  import opened LockGraph
  import opened Options
  import opened Dmc
  import opened DmcRound

  /** What the serial part guarantees about the contexts to be sent. */
  ghost predicate Sendable(s: State) {
    && (forall a, c :: a in s.pools && c in s.pools[a].needSend ==> c in s.pools[a].pending)
    && (forall a, c :: a in s.pools && c in s.pools[a].needSend ==>
          c in s.execs && !s.execs[c].moved && Sender(s, c) == Some(a))
    && (forall a, b, c :: a in s.pools && b in s.pools && c in s.pools[a].needSend && c in s.pools[b].pending ==>
          a == b)
    && s.fault.None?
  }

  lemma SendableFacts(s: State, a: string, c: int)
    requires Sendable(s) && a in s.pools && c in s.pools[a].needSend
    ensures c in s.pools[a].pending && c in s.execs && !s.execs[c].moved && Sender(s, c) == Some(a)
  {}

  /** Every sent message is answered. */
  ghost predicate Answers(env: Env, s: State) {
    forall a :: a in s.pools && s.pools[a].needSend != {} ==> env.run(a, NextBatches(s, a)).Keys == s.pools[a].needSend
  }

  ghost predicate SentBy(s: State, gone: set<string>, received: set<int>) {
    forall c :: c in received ==> c in s.execs && Sender(s, c).Some? && Sender(s, c).value in gone
  }

  lemma PoolAtAfter(env: Env, s: State, gone: set<string>, received: set<int>, a: string)
    ensures PoolAt(StateAfter(env, s, gone, received), a) ==
            if a in s.pools.Keys + Targets(env, s, received) then PoolAfter(env, s, gone, received, a) else EMPTY_POOL
  {}

  /** A context whose executor has not been called yet is as it was. */
  lemma NotYetSent(env: Env, s: State, gone: set<string>, received: set<int>, a: string, c: int)
    requires Sendable(s) && a in s.pools && a !in gone && SentBy(s, gone, received) && c in s.pools[a].needSend
    ensures var s1 := StateAfter(env, s, gone, received);
            && c in s.execs && c in s1.execs && s1.execs[c] == s.execs[c] && !s.execs[c].moved
            && c in s.pools[a].pending && c in PoolAt(s1, a).pending
            && Outgoing(s1, c) == Outgoing(s, c)
  {
    hide Sendable, Output, NextBatches;
    SendableFacts(s, a, c);
    var s1 := StateAfter(env, s, gone, received);
    PoolAtAfter(env, s, gone, received, a);
    assert s1.execs[c] == ExecAfter(env, s, gone, received, c);
  }

  lemma SameMessages(env: Env, s: State, gone: set<string>, received: set<int>, a: string, cs: seq<int>)
    requires Sendable(s) && a in s.pools && a !in gone && SentBy(s, gone, received)
    requires forall c :: c in cs ==> c in s.pools[a].needSend
    ensures var s1 := StateAfter(env, s, gone, received);
            (forall c :: c in cs ==> c in s.execs && c in s1.execs) && Messages(s1, cs) == Messages(s, cs)
  {
    hide Sendable, SentBy, Outgoing, StateAfter;
    var s1 := StateAfter(env, s, gone, received);
    forall c | c in cs ensures c in s.execs && c in s1.execs {
      NotYetSent(env, s, gone, received, a, c);
    }
    forall i | 0 <= i < |cs| ensures Outgoing(s1, cs[i]) == Outgoing(s, cs[i]) {
      assert cs[i] in cs;
      NotYetSent(env, s, gone, received, a, cs[i]);
    }
  }

  lemma ToSendAfter(env: Env, s: State, gone: set<string>, received: set<int>, a: string)
    requires Sendable(s) && a in s.pools && a !in gone && SentBy(s, gone, received)
    ensures var s1 := StateAfter(env, s, gone, received);
            ToSend(s1, a) == ToSend(s, a) == s.pools[a].needSend && NextBatches(s1, a) == NextBatches(s, a)
  {
    hide Sendable, SentBy, Outgoing, Output, ExecAfter, Targets;
    var s1 := StateAfter(env, s, gone, received);
    var cs := SortInts(s.pools[a].needSend);
    PoolAtAfter(env, s, gone, received, a);
    forall c | c in s.pools[a].needSend ensures c in ToSend(s, a) && c in ToSend(s1, a) {
      NotYetSent(env, s, gone, received, a, c);
    }
    assert ToSend(s, a) == s.pools[a].needSend;
    assert ToSend(s1, a) == s.pools[a].needSend;
    SameMessages(env, s, gone, received, a, cs);
    assert BatchesAt(s1, a) == BatchesAt(s, a);
  }

  lemma GoPools(env: Env, s: State, gone: set<string>, received: set<int>, a: string)
    requires Sendable(s) && a in s.pools && a !in gone
    ensures var s1, s2 := StateAfter(env, s, gone, received), StateAfter(env, s, gone + {a}, received);
            s2.pools == s1.pools[a := s1.pools[a].(needSend := {})]
  {
    hide Output, NextBatches, Sender, WentTo, CameFrom, Targets, Sendable;
    var s1, s2 := StateAfter(env, s, gone, received), StateAfter(env, s, gone + {a}, received);
    var pools := s1.pools[a := s1.pools[a].(needSend := {})];
    assert pools.Keys == s2.pools.Keys;
    forall b | b in pools ensures pools[b] == s2.pools[b] {
      assert s1.pools[b] == PoolAfter(env, s, gone, received, b)
             && s2.pools[b] == PoolAfter(env, s, gone + {a}, received, b);
    }
  }

  lemma GoExecs(env: Env, s: State, gone: set<string>, received: set<int>, a: string)
    requires Sendable(s) && a in s.pools && a !in gone && SentBy(s, gone, received)
    ensures var s1, s2 := StateAfter(env, s, gone, received), StateAfter(env, s, gone + {a}, received);
            s2.execs == map c | c in s1.execs ::
              if c in s.pools[a].needSend then s1.execs[c].(message := Outgoing(s1, c), moved := true)
              else s1.execs[c]
  {
    hide Sendable, Output, PoolAfter, NextBatches, Targets;
    var s1, s2 := StateAfter(env, s, gone, received), StateAfter(env, s, gone + {a}, received);
    forall c | c in s1.execs
      ensures s2.execs[c] == if c in s.pools[a].needSend
                             then s1.execs[c].(message := Outgoing(s1, c), moved := true)
                             else s1.execs[c]
    {
      assert s1.execs[c] == ExecAfter(env, s, gone, received, c)
             && s2.execs[c] == ExecAfter(env, s, gone + {a}, received, c);
      if c in s.pools[a].needSend { SendableFacts(s, a, c); }
    }
  }

  lemma GoBatches(env: Env, s: State, gone: set<string>, received: set<int>, a: string)
    requires a in s.pools && a !in gone && s.pools[a].needSend != {}
    ensures StateAfter(env, s, gone + {a}, received).batches
            == StateAfter(env, s, gone, received).batches[a := NextBatches(s, a)]
  {
    hide Output, NextBatches, PoolAfter, ExecAfter, Targets, BatchesAt;
    var s1, s2 := StateAfter(env, s, gone, received), StateAfter(env, s, gone + {a}, received);
    var batches := s1.batches[a := NextBatches(s, a)];
    assert batches.Keys == s2.batches.Keys;
    forall b | b in batches ensures batches[b] == s2.batches[b] {}
  }

  lemma SomeoneSends(env: Env, s: State, gone: set<string>, received: set<int>, a: string)
    requires Sendable(s) && a in s.pools && a !in gone && SentBy(s, gone, received) && s.pools[a].needSend != {}
    ensures var s1 := StateAfter(env, s, gone, received);
            !Finished(PoolAt(s1, a)) && forall c :: c in s.pools[a].needSend ==> c in s1.execs && !s1.execs[c].moved
  {
    hide Sendable, SentBy, StateAfter, Outgoing;
    var s1 := StateAfter(env, s, gone, received);
    forall c | c in s.pools[a].needSend ensures c in s1.execs && !s1.execs[c].moved && c in PoolAt(s1, a).pending {
      NotYetSent(env, s, gone, received, a, c);
    }
    Inhabited(s.pools[a].needSend);
  }

  /** A go call, at whatever point of the round it runs, adds the same thing. */
  lemma GoStep(env: Env, s: State, gone: set<string>, received: set<int>, a: string)
    requires Sendable(s) && a in s.pools && a !in gone && SentBy(s, gone, received)
    ensures Go(StateAfter(env, s, gone, received), a) == StateAfter(env, s, gone + {a}, received)
    ensures ToSend(StateAfter(env, s, gone, received), a) == s.pools[a].needSend
    ensures PoolAt(StateAfter(env, s, gone, received), a).needSend == s.pools[a].needSend
    ensures s.pools[a].pending <= PoolAt(StateAfter(env, s, gone, received), a).pending
    ensures PoolAt(StateAfter(env, s, gone, received), a).hasLocked == s.pools[a].hasLocked
  {
    hide Messages, NextBatches, Outgoing, Sendable, SentBy, ExecAfter, ToSend;
    PoolAtAfter(env, s, gone, received, a);
    ToSendAfter(env, s, gone, received, a);
    if s.pools[a].needSend == {} {
      NothingToSend(env, s, gone, received, a);
    } else {
      GoPools(env, s, gone, received, a);
      GoExecs(env, s, gone, received, a);
      GoBatches(env, s, gone, received, a);
      SomeoneSends(env, s, gone, received, a);
    }
  }

  lemma NothingBatched(env: Env, s: State, gone: set<string>, received: set<int>, a: string)
    requires a in s.pools && s.pools[a].needSend == {}
    ensures StateAfter(env, s, gone + {a}, received).batches == StateAfter(env, s, gone, received).batches
  {
    hide NextBatches, BatchesAt, PoolAfter, ExecAfter, Targets;
    var s1, s2 := StateAfter(env, s, gone, received), StateAfter(env, s, gone + {a}, received);
    assert s2.batches.Keys == s1.batches.Keys;
  }

  lemma SendsNothing(env: Env, s: State, gone: set<string>, received: set<int>, a: string)
    requires a in s.pools && s.pools[a].needSend == {}
    ensures PoolAfter(env, s, gone, received, a).needSend == {}
  {}

  lemma NothingToSend(env: Env, s: State, gone: set<string>, received: set<int>, a: string)
    requires Sendable(s) && a in s.pools && a !in gone && SentBy(s, gone, received) && s.pools[a].needSend == {}
    ensures StateAfter(env, s, gone + {a}, received) == StateAfter(env, s, gone, received)
  {
    hide Outgoing, Output, NextBatches, Sendable, SentBy, PoolAfter, ExecAfter, Targets;
    var s1, s2 := StateAfter(env, s, gone, received), StateAfter(env, s, gone + {a}, received);
    SendsNothing(env, s, gone, received, a);
    GoPools(env, s, gone, received, a);
    GoExecs(env, s, gone, received, a);
    NothingBatched(env, s, gone, received, a);
    assert s1.pools[a] == PoolAfter(env, s, gone, received, a);
    assert s2.pools == s1.pools;
    assert s2.execs == s1.execs;
  }

  // ----- receiving an output -----

  /** An output adds its context to the sets of the pools it concerns. */
  lemma ReceivePool(env: Env, s: State, gone: set<string>, received: set<int>, c: int, a: string, b: string)
    requires c in s.execs && Sender(s, c) == Some(a) && c !in received
    ensures var p, p', to := PoolAfter(env, s, gone, received, b), PoolAfter(env, s, gone, received + {c}, b),
            Output(env, s, c).to;
            p' == if b == a == to then p.(needPrepare := p.needPrepare + {c})
                  else if b == a then p.(needScheduleOut := p.needScheduleOut + {c})
                  else if b == to then Add(p, c)
                  else p
  {
    hide Output, Sender, PoolAt;
    var p, p', to := PoolAfter(env, s, gone, received, b), PoolAfter(env, s, gone, received + {c}, b),
        Output(env, s, c).to;
    forall x | x != c
      ensures WentTo(env, s, received + {c}, x, b) == WentTo(env, s, received, x, b)
      ensures CameFrom(s, received + {c}, x, b) == CameFrom(s, received, x, b)
    {}
    assert WentTo(env, s, received + {c}, c, b) <==> b == to;
    assert CameFrom(s, received + {c}, c, b) <==> b == a;
    assert !WentTo(env, s, received, c, b) && !CameFrom(s, received, c, b);
    hide WentTo, CameFrom;
  }

  lemma ReceiveTargets(env: Env, s: State, received: set<int>, c: int)
    requires c in s.execs && Sender(s, c).Some?
    ensures Targets(env, s, received + {c}) == Targets(env, s, received) + {Output(env, s, c).to}
  {
    hide Output;
  }

  lemma NewTargetIsEmpty(env: Env, s: State, gone: set<string>, received: set<int>, b: string)
    requires b !in s.pools && b !in Targets(env, s, received) && gone <= s.pools.Keys
    ensures PoolAfter(env, s, gone, received, b) == EMPTY_POOL
  {
    hide Output;
    forall x | x in received ensures !WentTo(env, s, received, x, b) && !CameFrom(s, received, x, b) {}
  }

  lemma ReceivePools(env: Env, s: State, gone: set<string>, received: set<int>, a: string, c: int)
    requires c in s.execs && Sender(s, c) == Some(a) && c !in received && gone <= s.pools.Keys
    ensures var s1 := StateAfter(env, s, gone, received);
            var to := Output(env, s, c).to;
            a in s1.pools &&
            StateAfter(env, s, gone, received + {c}).pools ==
              if to == a then s1.pools[a := MarkAs(s1.pools[a], c, NEED_PREPARE)]
              else s1.pools[a := MarkAs(s1.pools[a], c, NEED_SCHEDULE_OUT)][to := Add(PoolAt(s1, to), c)]
  {
    hide Output, PoolAfter, ExecAfter, NextBatches, Targets, Sender, BatchesAt;
    var s1, s2 := StateAfter(env, s, gone, received), StateAfter(env, s, gone, received + {c});
    var to := Output(env, s, c).to;
    var pools := if to == a then s1.pools[a := MarkAs(s1.pools[a], c, NEED_PREPARE)]
                 else s1.pools[a := MarkAs(s1.pools[a], c, NEED_SCHEDULE_OUT)][to := Add(PoolAt(s1, to), c)];
    ReceiveTargets(env, s, received, c);
    assert pools.Keys == s2.pools.Keys;
    forall b | b in pools ensures pools[b] == s2.pools[b] {
      ReceivePool(env, s, gone, received, c, a, b);
      if b !in s1.pools { NewTargetIsEmpty(env, s, gone, received, b); }
    }
  }

  lemma ReceiveExecs(env: Env, s: State, gone: set<string>, received: set<int>, a: string, c: int)
    requires c in s.execs && Sender(s, c) == Some(a) && c !in received && a in gone
    ensures var s1 := StateAfter(env, s, gone, received);
            StateAfter(env, s, gone, received + {c}).execs
            == s1.execs[c := s1.execs[c].(message := Output(env, s, c), moved := false)]
  {
    hide Output, Outgoing, PoolAfter, NextBatches, Targets;
    var s1, s2 := StateAfter(env, s, gone, received), StateAfter(env, s, gone, received + {c});
    forall d | d in s1.execs
      ensures s2.execs[d] == if d == c then s1.execs[c].(message := Output(env, s, c), moved := false) else s1.execs[d]
    {
      assert s1.execs[d] == ExecAfter(env, s, gone, received, d)
             && s2.execs[d] == ExecAfter(env, s, gone, received + {c}, d);
    }
  }

  lemma AnswerOf(env: Env, s: State, a: string, c: int)
    requires Answers(env, s) && a in s.pools && c in s.pools[a].needSend && c in s.execs && Sender(s, c) == Some(a)
    ensures c in env.run(a, NextBatches(s, a)) && Output(env, s, c) == env.run(a, NextBatches(s, a))[c]
  {
    hide NextBatches;
  }

  /** An output callback, at whatever point of the round it runs, adds the same thing. */
  lemma ReceiveStep(env: Env, s: State, gone: set<string>, received: set<int>, a: string, c: int)
    requires Sendable(s) && Answers(env, s) && gone <= s.pools.Keys
    requires a in gone && c in s.pools[a].needSend && c !in received
    ensures var s1 := StateAfter(env, s, gone, received);
            var outputs := env.run(a, BatchesAt(s1, a));
            c in outputs && HandleOutput(s1, a, c, outputs[c]) == StateAfter(env, s, gone, received + {c})
  {
    hide NextBatches, Targets, ExecAfter, Sendable, Answers, Sender;
    var s1, s2 := StateAfter(env, s, gone, received), StateAfter(env, s, gone, received + {c});
    SendableFacts(s, a, c);
    AnswerOf(env, s, a, c);
    PoolAtAfter(env, s, gone, received, a);
    assert BatchesAt(s1, a) == NextBatches(s, a);
    ReceivePools(env, s, gone, received, a, c);
    ReceiveExecs(env, s, gone, received, a, c);
    assert s2.batches == s1.batches;
  }
}
