/** The executors' contract can be met: from every scheduled state there is an answer. */
module DmcContract {
  import opened Ordering
  import opened LockGraph
  import opened Options
  import opened Dmc
  import opened DmcInvariant
  import opened DmcSchedule
  import opened DmcRound
  import opened DmcConfluence
  import opened DmcRoundInvariant

  /** The first message of a context, turned into its own return. */
  function Return(batch: seq<Message>, c: int): (m: Message)
    requires exists i :: 0 <= i < |batch| && batch[i].contextID == c
    ensures m.typ == FINISHED && m.contextID == c
    ensures exists i :: 0 <= i < |batch| && batch[i].contextID == c && m.frame == batch[i].frame
  {
    if batch[0].contextID == c then batch[0].(typ := FINISHED) else
      assert exists i :: 0 <= i < |batch[1..]| && batch[1..][i].contextID == c by {
        var i :| 0 <= i < |batch| && batch[i].contextID == c;
        assert batch[1..][i - 1] == batch[i];
      }
      Return(batch[1..], c)
  }

  /** Executors that return from every call at once. */
  function ReturnAll(a: string, batches: seq<seq<Message>>): (r: map<int, Message>) {
    if batches == [] then map[] else
      var batch := batches[|batches| - 1];
      map c | c in (set m | m in batch :: m.contextID) :: Return(batch, c)
  }

  lemma SentBatch(env: Env, s: State, pl: Places, a: string)
    requires Scheduled(env, s, pl) && a in s.pools
    ensures var batch := Messages(s, SortInts(ToSend(s, a)));
            && (forall c :: c in s.pools[a].needSend <==> exists i :: 0 <= i < |batch| && batch[i].contextID == c)
            && (forall i :: 0 <= i < |batch| ==>
                  batch[i].contextID in s.execs && batch[i].frame == s.execs[batch[i].contextID].message.frame)
  {
    hide Inv, Outgoing;
    var cs := SortInts(ToSend(s, a));
    var batch := Messages(s, cs);
    forall c | c in s.pools[a].needSend
      ensures c in cs && c in s.execs && Outgoing(s, c).contextID == c
              && Outgoing(s, c).frame == s.execs[c].message.frame
    {
      ReadyIsExec(env, s, pl, a, c);
      OutgoingKeeps(s, c);
    }
    forall i | 0 <= i < |batch| ensures cs[i] in s.pools[a].needSend && batch[i] == Outgoing(s, cs[i]) {
      assert cs[i] in cs;
      assert cs[i] in ToSend(s, a);
    }
    hide Scheduled, ToSend, Messages;
    forall c | c in s.pools[a].needSend ensures exists i :: 0 <= i < |batch| && batch[i].contextID == c {
      var i :| 0 <= i < |cs| && cs[i] == c;
      assert batch[i].contextID == c;
    }
  }

  lemma OutgoingKeeps(s: State, c: int)
    requires c in s.execs
    ensures Outgoing(s, c).contextID == s.execs[c].message.contextID && Outgoing(s, c).frame == s.execs[c].message.frame
  {}

  lemma ReturnsAnswer(env: Env, s: State, pl: Places, a: string)
    requires Scheduled(env, s, pl) && a in s.pools
    ensures var r := ReturnAll(a, NextBatches(s, a));
            && r.Keys == s.pools[a].needSend
            && forall c :: c in r ==>
                 c in s.execs && r[c].typ == FINISHED && r[c].contextID == c && r[c].frame == s.execs[c].message.frame
  {
    hide Scheduled, Outgoing;
    SentBatch(env, s, pl, a);
    var r := ReturnAll(a, NextBatches(s, a));
    SameElements(r.Keys, s.pools[a].needSend);
  }

  /** From every scheduled state executors that just return keep their contract, so that the
      next round can be played. */
  lemma ContractCanBeMet(env: Env, s: State, pl: Places)
    requires Scheduled(env, s, pl)
    ensures EnvOk(env.(run := ReturnAll), s)
  {
    var env' := env.(run := ReturnAll);
    hide ReturnAll, NextBatches, Inv;
    forall a | a in s.pools ensures env'.run(a, NextBatches(s, a)) == ReturnAll(a, NextBatches(s, a)) {}
    forall a | a in s.pools && s.pools[a].needSend != {}
      ensures env'.run(a, NextBatches(s, a)).Keys == s.pools[a].needSend
    {
      ReturnsAnswer(env, s, pl, a);
    }
    forall c | c in AllSent(s)
      ensures OutputOk(env', s, Sender(s, c).value, c, Output(env', s, c)) && Claims(Output(env', s, c)) == {}
    {
      ReturnsAnswer(env, s, pl, Sender(s, c).value);
    }
  }
}
