/** What a round sends to the executors and what it takes back, message by message. */
module DmcExchange {
  import opened Ordering
  import opened LockGraph
  import opened Options
  import opened Dmc
  import opened DmcInvariant
  import opened DmcTurns
  import opened DmcPass
  import opened DmcSchedule
  import opened DmcRound
  import opened DmcConfluence
  import opened DmcRoundInvariant

  predicate Sends(s: State, a: string, c: int) {
    a in s.pools && c in s.pools[a].needSend
  }

  /** Another context holds the key of the contract. */
  ghost predicate TakenKey(g: Graph, contract: string, c: int, k: string) {
    exists o, f :: o != c && Holds(g, KeyLock(contract, k), o, f)
  }

  /** m is the message of its executive with, instead of its key locks, the keys of the
      contract it is for that other contexts hold, in order. */
  ghost predicate IsSent(s: State, m: Message) {
    var c := m.contextID;
    && c in s.execs
    && var n := s.execs[c].message;
    && SameContent(n, m) && m.typ == n.typ && m.frame == n.frame && m.to == n.to && m.create == n.create
    && StrictlyAscending(m.keyLocks) && (forall k :: k in m.keyLocks <==> TakenKey(s.locks, m.to, c, k))
  }

  /** A batch holds one message for each context that the pool sends, in their order. */
  ghost predicate IsBatch(s: State, a: string, batch: seq<Message>) {
    && (forall i, j :: 0 <= i < j < |batch| ==> batch[i].contextID < batch[j].contextID)
    && (forall i :: 0 <= i < |batch| ==> Sends(s, a, batch[i].contextID) && IsSent(s, batch[i]))
    && (forall c :: Sends(s, a, c) ==> exists i :: 0 <= i < |batch| && batch[i].contextID == c)
  }

  /** The output for c replaces its message, which waits to be prepared in the pool of the
      contract it is for; if that is not the pool it was sent from, it leaves the latter. */
  ghost predicate CameBack(env: Env, s: State, s': State, a: string, c: int)
    requires c in s.execs
  {
    && a in s'.batches && c in env.run(a, s'.batches[a])
    && var m := env.run(a, s'.batches[a])[c];
    && c in s'.execs && s'.execs[c] == Executive(s.execs[c].callStack, s.execs[c].currentSeq, m, false)
    && m.to in s'.pools && c in s'.pools[m.to].needPrepare
    && (m.to != a ==> a in s'.pools && c in s'.pools[a].needScheduleOut)
  }

  /** The whole exchange of a round. */
  ghost predicate Exchanges(env: Env, s: State, s': State) {
    && s'.locks == s.locks && s'.results == s.results && s'.gasUsed == s.gasUsed && s'.written == s.written
    && s'.execs.Keys == s.execs.Keys
    && (forall a :: a in s.pools && s.pools[a].needSend != {} ==>
          a in s'.batches && exists batch :: s'.batches[a] == BatchesAt(s, a) + [batch] && IsBatch(s, a, batch))
    && (forall a, c :: Sends(s, a, c) ==> c in s.execs && CameBack(env, s, s', a, c))
    && (forall c :: c in s.execs && (forall a :: !Sends(s, a, c)) ==> s'.execs[c] == s.execs[c])
  }

  lemma OutgoingIsSent(s: State, c: int)
    requires c in s.execs && s.execs[c].message.contextID == c && WellFormed(s.locks)
    ensures IsSent(s, Outgoing(s, c))
  {
    var m := Outgoing(s, c);
    var keys := KeysHeldByOthers(s.locks, m.to, c);
    forall k ensures k in m.keyLocks <==> TakenKey(s.locks, m.to, c, k) {
      if k in keys {
        var e :| e in s.locks && e.source.Key? && e.target.Context? && e.target != Context(c)
                 && e.source.lock.contract == m.to && e.source.lock.key == k;
        assert Holds(s.locks, KeyLock(m.to, k), e.target.id, e.frame);
      }
      if TakenKey(s.locks, m.to, c, k) {
        var o, f :| o != c && Holds(s.locks, KeyLock(m.to, k), o, f);
        var e := Edge(Key(KeyLock(m.to, k)), Context(o), f);
        assert e in s.locks && e.source.lock.key in keys;
      }
    }
  }

  lemma MessagesAreBatch(env: Env, s: State, pl: Places, a: string)
    requires Inv(env, s, pl) && a in s.pools
    ensures IsBatch(s, a, Messages(s, SortInts(ToSend(s, a))))
  {
    hide Inv, IsSent, Outgoing;
    var cs := SortInts(ToSend(s, a));
    var batch := Messages(s, cs);
    LocksFacts(env, s, pl);
    forall i | 0 <= i < |batch|
      ensures batch[i].contextID == cs[i] && Sends(s, a, batch[i].contextID) && IsSent(s, batch[i])
    {
      assert cs[i] in cs;
      ReadyIsExec(env, s, pl, a, cs[i]);
      OutgoingIsSent(s, cs[i]);
      SentContext(s, cs[i]);
    }
    forall c | Sends(s, a, c) ensures exists i :: 0 <= i < |batch| && batch[i].contextID == c {
      ReadyIsExec(env, s, pl, a, c);
      assert c in cs;
      var i :| 0 <= i < |cs| && cs[i] == c;
      assert batch[i].contextID == c;
    }
  }

  lemma SentContext(s: State, c: int)
    requires c in s.execs
    ensures Outgoing(s, c).contextID == s.execs[c].message.contextID
  {}

  lemma OutputCameBack(env: Env, s: State, pl: Places, a: string, c: int)
    requires Inv(env, s, pl) && Sendable(s) && Answers(env, s) && Sends(s, a, c)
    ensures c in s.execs && CameBack(env, s, RoundResult(env, s), a, c)
  {
    hide Inv, NextBatches;
    SendableFacts(s, a, c);
    var s' := RoundResult(env, s);
    assert c in AllSent(s) && s.pools[a].needSend != {};
    assert s'.batches[a] == NextBatches(s, a);
    assert s'.execs[c] == ExecAfter(env, s, s.pools.Keys, AllSent(s), c);
    var m := Output(env, s, c);
    assert WentTo(env, s, AllSent(s), c, m.to) && CameFrom(s, AllSent(s), c, a);
    assert m.to in Targets(env, s, AllSent(s));
    assert s'.pools[m.to] == PoolAfter(env, s, s.pools.Keys, AllSent(s), m.to);
    assert s'.pools[a] == PoolAfter(env, s, s.pools.Keys, AllSent(s), a);
  }

  /** The exchange of a round from a scheduled state, whatever its interleaving. */
  lemma RoundExchanges(env: Env, s: State, pl: Places)
    requires Inv(env, s, pl) && Sendable(s) && Answers(env, s)
    ensures Exchanges(env, s, RoundResult(env, s))
  {
    hide Inv, IsBatch, CameBack, PoolAfter, Output, Messages, Answers, Targets, ToSend;
    var s' := RoundResult(env, s);
    forall a | a in s.pools && s.pools[a].needSend != {}
      ensures a in s'.batches && exists batch :: s'.batches[a] == BatchesAt(s, a) + [batch] && IsBatch(s, a, batch)
    {
      MessagesAreBatch(env, s, pl, a);
    }
    forall a, c | Sends(s, a, c) ensures c in s.execs && CameBack(env, s, s', a, c) {
      OutputCameBack(env, s, pl, a, c);
    }
    forall c | c in s.execs && (forall a :: !Sends(s, a, c)) ensures s'.execs[c] == s.execs[c] {
      assert Sender(s, c).Some? ==> Sends(s, Sender(s, c).value, c);
    }
  }
}
