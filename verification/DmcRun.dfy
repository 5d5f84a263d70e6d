/** Whole runs of a block: the first messages, optional DAG execution, and any number of
    rounds, with the safety and determinism theorems over all of them. */
module DmcRun {
  import opened Ordering
  import opened LockGraph
  import opened Options
  import opened Dmc
  import opened DmcInvariant
  import opened DmcPrepare
  import opened DmcUnlock
  import opened DmcSchedule
  import opened DmcRound
  import opened DmcConfluence
  import opened DmcJoin
  import opened DmcRoundInvariant

  // ----- the start of a block -----

  /** The first message of each transaction, as buildMessage makes it. */
  ghost predicate FirstMessages(env: Env, msgs: seq<Message>) {
    forall i :: 0 <= i < |msgs| ==>
      && msgs[i].typ in {MESSAGE, TXHASH} && msgs[i].contextID == env.startContextID + i && msgs[i].keyLocks == []
      && (msgs[i].to == "" ==> Dest(env, Executive([], 0, msgs[i], false)) != "")
  }

  ghost function FirstPool(env: Env, msgs: seq<Message>, a: string): (r: Pool) {
    var cs := set c | c in Contexts(env, |msgs|) && msgs[c - env.startContextID].to == a;
    Pool(cs, cs, {}, {}, {}, {})
  }

  /** The contexts of a block of n transactions. */
  function Contexts(env: Env, n: nat): (r: set<int>)
    ensures forall c :: c in r <==> 0 <= c - env.startContextID < n
  {
    if n == 0 then {} else Contexts(env, n - 1) + {env.startContextID + n - 1}
  }

  /** saveMessage for every transaction of the block. */
  ghost function InitialState(env: Env, msgs: seq<Message>): (r: State) {
    State(map a | a in (set c | c in Contexts(env, |msgs|) :: msgs[c - env.startContextID].to) ::
          FirstPool(env, msgs, a),
          map c | c in Contexts(env, |msgs|) :: Executive([], 0, msgs[c - env.startContextID], false),
          {}, NoResults(|msgs|), 0, [], map[], None)
  }

  /** m_executiveResults after its resize. */
  function NoResults(n: nat): (r: seq<Option<Receipt>>) {
    seq(n, i => None)
  }

  /** DAGExecute: the flagged transactions run once, outside the rounds, and their outputs
      replace their first messages. */
  ghost function DagResult(env: Env, s: State, outputs: map<int, Message>): (r: State) {
    s.(execs := map c | c in s.execs ::
         var e := s.execs[c];
         if c in outputs then Executive(e.callStack + [e.currentSeq], e.currentSeq + 1, outputs[c], false) else e)
  }

  /** What is asked of the outputs of DAG execution. */
  ghost predicate DagOutputsOk(env: Env, s: State, outputs: map<int, Message>) {
    && outputs.Keys <= s.execs.Keys
    && (forall c :: c in outputs ==>
          && outputs[c].contextID == c && outputs[c].frame == s.execs[c].currentSeq
          && (outputs[c].typ == SEND_BACK ==> outputs[c].keyLocks == [])
          && (Creates(DagResult(env, s, outputs).execs[c]) ==> Dest(env, DagResult(env, s, outputs).execs[c]) != ""))
    && (forall c, d :: c in outputs && d in outputs && c != d ==> Claims(outputs[c]) !! Claims(outputs[d]))
  }

  /** The states a block starts from; without DAG the outputs are empty. */
  ghost predicate Starts(env: Env, msgs: seq<Message>, outputs: map<int, Message>, s: State) {
    FirstMessages(env, msgs) && DagOutputsOk(env, InitialState(env, msgs), outputs)
        && s == DagResult(env, InitialState(env, msgs), outputs)
  }

  /** A block that has just started: every transaction has one executive, with its first message
      or, after DAG execution, with its output in frame 0, and waits to be prepared in the pool of
      the contract its first message is for; there is no lock, no receipt and no gas used. */
  ghost predicate Fresh(env: Env, msgs: seq<Message>, outputs: map<int, Message>, s: State) {
    && FreshExecs(env, msgs, outputs, s.execs) && FreshPools(env, msgs, s.pools)
    && s.locks == {} && |s.results| == |msgs| && (forall i :: 0 <= i < |msgs| ==> s.results[i].None?)
    && s.gasUsed == 0 && s.written == [] && s.batches == map[] && s.fault.None?
  }

  ghost predicate FreshExecs(env: Env, msgs: seq<Message>, outputs: map<int, Message>, execs: map<int, Executive>) {
    && (forall c :: c in execs <==> 0 <= c - env.startContextID < |msgs|)
    && (forall c :: c in execs ==>
          if c in outputs then execs[c] == Executive([0], 1, outputs[c], false)
          else execs[c] == Executive([], 0, msgs[c - env.startContextID], false))
  }

  function MessageOf(env: Env, msgs: seq<Message>, c: int): (r: Message)
    requires c in Contexts(env, |msgs|)
  {
    msgs[c - env.startContextID]
  }

  ghost predicate FreshPools(env: Env, msgs: seq<Message>, pools: map<string, Pool>) {
    && (forall c :: c in Contexts(env, |msgs|) ==>
          var a := MessageOf(env, msgs, c).to; a in pools && c in pools[a].pending)
    && (forall a, c :: a in pools && c in pools[a].pending ==>
          c in Contexts(env, |msgs|) && MessageOf(env, msgs, c).to == a)
    && (forall a :: a in pools ==> pools[a] == Pool(pools[a].pending, pools[a].pending, {}, {}, {}, {}))
  }

  lemma PoolsAreFresh(env: Env, msgs: seq<Message>)
    ensures FreshPools(env, msgs, InitialState(env, msgs).pools)
  {
    hide Contexts;
  }

  lemma ExecsAreFresh(env: Env, msgs: seq<Message>, outputs: map<int, Message>)
    ensures FreshExecs(env, msgs, outputs, DagResult(env, InitialState(env, msgs), outputs).execs)
  {
    hide FirstPool;
    assert [] + [0] == [0];
  }

  lemma StartIsFresh(env: Env, msgs: seq<Message>, outputs: map<int, Message>, s: State)
    requires Starts(env, msgs, outputs, s)
    ensures Fresh(env, msgs, outputs, s)
  {
    hide FirstMessages, DagOutputsOk, FreshExecs, FreshPools, FirstPool;
    ExecsAreFresh(env, msgs, outputs);
    PoolsAreFresh(env, msgs);
  }

  ghost function FirstPlaces(env: Env, msgs: seq<Message>): (r: Places) {
    map c | c in Contexts(env, |msgs|) :: Prep(msgs[c - env.startContextID].to)
  }

  lemma {:induction false} NoGasYet(n: nat)
    ensures GasSum(NoResults(n)) == 0
    decreases n
  {
    if n > 0 {
      NoGasYet(n - 1);
      assert NoResults(n)[..n - 1] == NoResults(n - 1);
    }
  }

  lemma FirstPoolOk(env: Env, msgs: seq<Message>, a: string)
    ensures PoolOk(FirstPool(env, msgs, a), a, FirstPlaces(env, msgs))
  {
    hide Contexts;
  }

  lemma FirstPoolsOk(env: Env, msgs: seq<Message>)
    ensures PoolsOk(InitialState(env, msgs).pools, FirstPlaces(env, msgs))
  {
    hide Contexts, FirstPool, PoolOk;
    forall a { FirstPoolOk(env, msgs, a); }
  }

  lemma FirstResultsOk(env: Env, msgs: seq<Message>)
    ensures ResultsOk(env, NoResults(|msgs|), 0, [], FirstPlaces(env, msgs))
  {
    NoGasYet(|msgs|);
  }

  lemma StartFields(env: Env, msgs: seq<Message>, outputs: map<int, Message>, s: State)
    requires Starts(env, msgs, outputs, s)
    ensures s.fault.None? && s.locks == {} && s.results == NoResults(|msgs|) && s.gasUsed == 0 && s.written == []
    ensures s.pools == InitialState(env, msgs).pools && s.batches == map[] && NoTransit(FirstPlaces(env, msgs))
  {
    hide FirstMessages, DagOutputsOk;
  }

  /** A block starts in a state of the invariant. */
  lemma StartKeeps(env: Env, msgs: seq<Message>, outputs: map<int, Message>, s: State)
    requires Starts(env, msgs, outputs, s)
    ensures Invariant(env, s)
  {
    hide Starts, InitialState, FirstPlaces, PoolsOk, ExecsOk, RoutesOk, GrantsOk, ResultsOk;
    var pl := FirstPlaces(env, msgs);
    StartFields(env, msgs, outputs, s);
    FirstPoolsOk(env, msgs);
    FirstExecsOk(env, msgs, outputs, s);
    FirstRoutesOk(env, msgs, outputs, s);
    FirstGrantsOk(env, msgs, outputs, s);
    FirstResultsOk(env, msgs);
    assert Inv(env, s, pl) && NoTransit(pl);
  }

  /** The executives a block starts with. */
  lemma FirstExecs(env: Env, msgs: seq<Message>, outputs: map<int, Message>, s: State)
    requires Starts(env, msgs, outputs, s)
    ensures s.execs.Keys == FirstPlaces(env, msgs).Keys && s.locks == {}
    ensures forall c :: c in s.execs ==>
              && 0 <= c - env.startContextID < |msgs|
              && s.execs[c] == if c in outputs then Executive([0], 1, outputs[c], false)
                               else Executive([], 0, msgs[c - env.startContextID], false)
  {
    hide FirstMessages, DagOutputsOk, FirstPool;
    assert s.execs.Keys == InitialState(env, msgs).execs.Keys == FirstPlaces(env, msgs).Keys;
  }

  lemma FirstExecOk(env: Env, msgs: seq<Message>, outputs: map<int, Message>, s: State, c: int)
    requires Starts(env, msgs, outputs, s) && c in s.execs && c in FirstPlaces(env, msgs)
    ensures ExecOk(env, s.execs[c], FirstPlaces(env, msgs)[c], c)
  {
    hide FirstPool, Dest, Starts, FirstMessages;
    FirstExecs(env, msgs, outputs, s);
    if c in outputs {
      FirstOutput(env, msgs, outputs, s, c);
    } else {
      FirstMessage(env, msgs, outputs, s, c - env.startContextID);
    }
  }

  lemma FirstMessage(env: Env, msgs: seq<Message>, outputs: map<int, Message>, s: State, i: nat)
    requires Starts(env, msgs, outputs, s) && i < |msgs|
    ensures msgs[i].typ in {MESSAGE, TXHASH} && msgs[i].contextID == env.startContextID + i && msgs[i].keyLocks == []
    ensures msgs[i].to == "" ==> Dest(env, Executive([], 0, msgs[i], false)) != ""
  {
    hide Dest, DagOutputsOk, InitialState, DagResult;
  }

  lemma FirstOutput(env: Env, msgs: seq<Message>, outputs: map<int, Message>, s: State, c: int)
    requires Starts(env, msgs, outputs, s) && c in outputs
    ensures c in s.execs && outputs[c].contextID == c && outputs[c].frame == 0
    ensures outputs[c].typ == SEND_BACK ==> outputs[c].keyLocks == []
    ensures Creates(s.execs[c]) ==> Dest(env, s.execs[c]) != ""
  {
    hide FirstPool, FirstMessages, Dest, Claims;
    assert c in InitialState(env, msgs).execs.Keys;
  }

  lemma FirstExecsOk(env: Env, msgs: seq<Message>, outputs: map<int, Message>, s: State)
    requires Starts(env, msgs, outputs, s)
    ensures ExecsOk(env, s, FirstPlaces(env, msgs))
  {
    hide Starts, FirstPlaces, ExecOk;
    FirstExecs(env, msgs, outputs, s);
    forall c | c in s.execs ensures ExecOk(env, s.execs[c], FirstPlaces(env, msgs)[c], c) {
      assert c in FirstPlaces(env, msgs).Keys;
      FirstExecOk(env, msgs, outputs, s, c);
    }
  }

  lemma NobodyLeaves(env: Env, s: State, pl: Places)
    requires s.execs.Keys == pl.Keys && PoolsOk(s.pools, pl) && forall a :: a in s.pools ==> Leaving(s.pools[a]) == {}
    ensures RoutesOk(env, s, pl)
  {
    hide Dest;
    forall c | c in pl ensures RouteOk(env, s, pl, c) {
      var d := Dest(env, s.execs[c]);
      if d in s.pools {
        assert PoolOk(s.pools[d], d, pl);
      }
    }
  }

  lemma FirstRoutesOk(env: Env, msgs: seq<Message>, outputs: map<int, Message>, s: State)
    requires Starts(env, msgs, outputs, s)
    ensures s.execs.Keys == FirstPlaces(env, msgs).Keys && RoutesOk(env, s, FirstPlaces(env, msgs))
  {
    hide DagOutputsOk, FirstMessages, Contexts, PoolsOk, RoutesOk;
    FirstPoolsOk(env, msgs);
    assert s.execs.Keys == InitialState(env, msgs).execs.Keys == FirstPlaces(env, msgs).Keys;
    NobodyLeaves(env, s, FirstPlaces(env, msgs));
  }

  lemma FirstGrantsOk(env: Env, msgs: seq<Message>, outputs: map<int, Message>, s: State)
    requires Starts(env, msgs, outputs, s)
    ensures s.execs.Keys == FirstPlaces(env, msgs).Keys && GrantsOk(s, FirstPlaces(env, msgs))
  {
    hide Starts, FirstPlaces, Claims, Grantable, Busy;
    FirstExecs(env, msgs, outputs, s);
    forall c | c in s.execs
      ensures Grantable(s.locks, s.execs[c].message, c) && !Busy(s.locks, c)
    { NothingLocked(s.execs[c].message, c); }
    forall c, d | c in s.execs && d in s.execs && c != d
      ensures Claims(s.execs[c].message) !! Claims(s.execs[d].message)
    {
      FirstClaims(env, msgs, outputs, s, c, d);
    }
  }

  lemma NothingLocked(m: Message, c: int)
    ensures Grantable({}, m, c) && !Busy({}, c)
  {}

  lemma FirstClaims(env: Env, msgs: seq<Message>, outputs: map<int, Message>, s: State, c: int, d: int)
    requires Starts(env, msgs, outputs, s) && c in s.execs && d in s.execs && c != d
    ensures Claims(s.execs[c].message) !! Claims(s.execs[d].message)
  {
    FirstExecs(env, msgs, outputs, s);
    hide InitialState, DagResult, Dest, FirstPlaces, Creates;
    if c in outputs && d in outputs {
      assert Claims(outputs[c]) !! Claims(outputs[d]);
    }
  }
}
