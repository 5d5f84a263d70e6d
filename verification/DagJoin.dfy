/** DAGExecute: the flagged executives are grouped by contract, each group is sent once, and
    the groups' answers are joined by a counter of the messages still missing. */
module DagJoin {
  import opened Ordering
  import opened Options
  import opened Dmc
  import opened DmcRun

  /** Which flagged context is sent to which contract. */
  type Requests = map<int, string>

  datatype Reply = Failed | SizeMismatch | Outputs(messages: map<int, Message>)

  datatype Dag = Dag(execs: map<int, Executive>, sent: set<string>, answered: map<string, Reply>,
                     totalCount: int, failed: int, callbacks: seq<bool>)  // true is success

  datatype Event = Send(contract: string) | Answer(contract: string, reply: Reply)

  function Group(requests: Requests, contract: string): (r: set<int>) {
    set c | c in requests && requests[c] == contract
  }

  /** With nothing to do the callback runs at once. */
  function Start(execs: map<int, Executive>, requests: Requests): (d: Dag) {
    Dag(execs, {}, map[], |requests|, 0, if requests == map[] then [true] else [])
  }

  predicate Enabled(requests: Requests, d: Dag, ev: Event) {
    match ev
    case Send(contract) => Group(requests, contract) != {} && contract !in d.sent
    case Answer(contract, reply) =>
      contract in d.sent && contract !in d.answered
          && (reply.Outputs? ==> reply.messages.Keys == Group(requests, contract))
  }

  function Sent(e: Executive): (r: Executive) {
    e.(callStack := e.callStack + [e.currentSeq], currentSeq := e.currentSeq + 1, moved := true)
  }

  function Apply(requests: Requests, d: Dag, ev: Event): (r: Dag) {
    match ev
    case Send(contract) =>
      d.(execs := map c | c in d.execs :: if c in Group(requests, contract) then Sent(d.execs[c]) else d.execs[c],
         sent := d.sent + {contract})
    case Answer(contract, reply) =>
      var size := |Group(requests, contract)|;
      var failed := if reply.Outputs? then d.failed else d.failed + 1;
      Dag(if reply.Outputs? then
            map c | c in d.execs ::
              if c in reply.messages then d.execs[c].(message := reply.messages[c], moved := false) else d.execs[c]
          else d.execs,
          d.sent, d.answered[contract := reply], d.totalCount - size, failed,
          if d.totalCount == size then d.callbacks + [failed == 0] else d.callbacks)
  }

  function Play(execs: map<int, Executive>, requests: Requests, events: seq<Event>): (d: Dag)
    decreases |events|
  {
    if events == [] then Start(execs, requests)
    else Apply(requests, Play(execs, requests, events[..|events| - 1]), events[|events| - 1])
  }

  predicate Legal(execs: map<int, Executive>, requests: Requests, events: seq<Event>)
    decreases |events|
  {
    events == []
    || (Legal(execs, requests, events[..|events| - 1])
        && Enabled(requests, Play(execs, requests, events[..|events| - 1]), events[|events| - 1]))
  }

  // ----- the invariant -----

  /** The flagged contexts whose group has not been answered. */
  ghost function Missing(requests: Requests, answered: map<string, Reply>): (r: set<int>) {
    set c | c in requests && requests[c] !in answered
  }

  ghost predicate AllGood(answered: map<string, Reply>) {
    forall a :: a in answered ==> answered[a].Outputs?
  }

  /** An executive after some groups were sent and answered, whatever their order. */
  ghost function After(requests: Requests, sent: set<string>, answered: map<string, Reply>, c: int,
                       e: Executive): (r: Executive) {
    if c !in requests || requests[c] !in sent then e
    else if requests[c] in answered && answered[requests[c]].Outputs? && c in answered[requests[c]].messages then
      Sent(e).(message := answered[requests[c]].messages[c], moved := false)
    else Sent(e)
  }

  ghost predicate ExecsOk(execs: map<int, Executive>, requests: Requests, d: Dag) {
    d.execs == map c | c in execs :: After(requests, d.sent, d.answered, c, execs[c])
  }

  ghost predicate CountsOk(requests: Requests, d: Dag) {
    && (forall a :: a in d.answered ==> a in d.sent)
    && (forall a :: a in d.sent ==> Group(requests, a) != {})
    && (forall a :: a in d.answered && d.answered[a].Outputs? ==> d.answered[a].messages.Keys == Group(requests, a))
    && d.totalCount == |Missing(requests, d.answered)| && d.failed >= 0
    && (d.failed == 0 <==> AllGood(d.answered))
    && d.callbacks == if Missing(requests, d.answered) == {} then [AllGood(d.answered)] else []
  }

  lemma StartHolds(execs: map<int, Executive>, requests: Requests)
    ensures ExecsOk(execs, requests, Start(execs, requests)) && CountsOk(requests, Start(execs, requests))
  {
    SameElements(Missing(requests, map[]), requests.Keys);
    assert |requests.Keys| == |requests|;
  }

  lemma SendKeeps(execs: map<int, Executive>, requests: Requests, d: Dag, contract: string)
    requires ExecsOk(execs, requests, d) && CountsOk(requests, d) && Group(requests, contract) != {}
             && contract !in d.sent
    ensures ExecsOk(execs, requests, Apply(requests, d, Send(contract)))
            && CountsOk(requests, Apply(requests, d, Send(contract)))
  {}

  lemma MissingStep(requests: Requests, answered: map<string, Reply>, contract: string, reply: Reply)
    requires contract !in answered
    ensures var left := Missing(requests, answered[contract := reply]);
            |Missing(requests, answered)| == |Group(requests, contract)| + |left|
            && (left == {} <==> |left| == 0)
  {
    var left := Missing(requests, answered[contract := reply]);
    SameElements(Missing(requests, answered), Group(requests, contract) + left);
    NothingInCommon(Group(requests, contract), left);
    assert Group(requests, contract) !! left;
  }

  lemma AnswerExecs(execs: map<int, Executive>, requests: Requests, d: Dag, contract: string, reply: Reply)
    requires ExecsOk(execs, requests, d) && Enabled(requests, d, Answer(contract, reply))
    ensures ExecsOk(execs, requests, Apply(requests, d, Answer(contract, reply)))
  {
    var d' := Apply(requests, d, Answer(contract, reply));
    forall c | c in execs ensures c in d'.execs && d'.execs[c] == After(requests, d'.sent, d'.answered, c, execs[c]) {
      assert reply.Outputs? ==> (c in reply.messages.Keys <==> c in Group(requests, contract));
    }
  }

  lemma AnswerKeeps(execs: map<int, Executive>, requests: Requests, d: Dag, contract: string, reply: Reply)
    requires ExecsOk(execs, requests, d) && CountsOk(requests, d) && Enabled(requests, d, Answer(contract, reply))
    ensures var d' := Apply(requests, d, Answer(contract, reply));
            ExecsOk(execs, requests, d') && CountsOk(requests, d')
  {
    hide ExecsOk, Missing, Group;
    AnswerExecs(execs, requests, d, contract, reply);
    MissingStep(requests, d.answered, contract, reply);
    GoodStep(d.answered, contract, reply);
  }

  lemma GoodStep(answered: map<string, Reply>, contract: string, reply: Reply)
    requires contract !in answered
    ensures AllGood(answered[contract := reply]) <==> AllGood(answered) && reply.Outputs?
  {
    var now := answered[contract := reply];
    if AllGood(now) {
      assert forall a :: a in answered ==> a in now && now[a] == answered[a];
      assert now[contract] == reply;
    }
  }

  lemma {:induction false} RunKeeps(execs: map<int, Executive>, requests: Requests, events: seq<Event>)
    requires Legal(execs, requests, events)
    ensures var d := Play(execs, requests, events); ExecsOk(execs, requests, d) && CountsOk(requests, d)
    decreases |events|
  {
    hide ExecsOk, CountsOk;
    if events == [] {
      StartHolds(execs, requests);
    } else {
      RunKeeps(execs, requests, events[..|events| - 1]);
      var d := Play(execs, requests, events[..|events| - 1]);
      match events[|events| - 1]
      case Send(contract) => SendKeeps(execs, requests, d, contract);
      case Answer(contract, reply) => AnswerKeeps(execs, requests, d, contract, reply);
    }
  }

  /** The callback runs once, when the last group has been answered and never before, and
      reports success exactly when no group failed. */
  lemma JoinRunsOnce(execs: map<int, Executive>, requests: Requests, events: seq<Event>)
    requires Legal(execs, requests, events)
    ensures var d := Play(execs, requests, events);
            d.callbacks == if forall c :: c in requests ==> requests[c] in d.answered then [AllGood(d.answered)] else []
  {
    hide ExecsOk;
    RunKeeps(execs, requests, events);
    var d := Play(execs, requests, events);
    if forall c :: c in requests ==> requests[c] in d.answered {
      SameElements(Missing(requests, d.answered), {});
    } else {
      var c :| c in requests && requests[c] !in d.answered;
      assert c in Missing(requests, d.answered);
    }
  }

  /** The outputs of all groups together. */
  ghost function AllOutputs(requests: Requests, answered: map<string, Reply>): (r: map<int, Message>) {
    map c | c in requests && requests[c] in answered && answered[requests[c]].Outputs?
        && c in answered[requests[c]].messages
          :: answered[requests[c]].messages[c]
  }

  lemma OutputsAreComplete(requests: Requests, d: Dag)
    requires CountsOk(requests, d) && AllGood(d.answered) && forall c :: c in requests ==> requests[c] in d.answered
    ensures AllOutputs(requests, d.answered).Keys == requests.Keys
    ensures forall c :: c in requests ==> requests[c] in d.sent
  {
    var outputs := AllOutputs(requests, d.answered);
    forall c | c in requests ensures c in outputs && requests[c] in d.sent {
      assert c in Group(requests, requests[c]);
      assert d.answered[requests[c]].messages.Keys == Group(requests, requests[c]);
    }
    hide CountsOk, AllGood;
    SameElements(outputs.Keys, requests.Keys);
  }

  lemma AfterIsDagResult(env: Env, s: State, requests: Requests, d: Dag, c: int)
    requires c in s.execs && (c in requests ==> requests[c] in d.sent)
    requires c in AllOutputs(requests, d.answered) <==> c in requests
    ensures After(requests, d.sent, d.answered, c, s.execs[c])
            == DagResult(env, s, AllOutputs(requests, d.answered)).execs[c]
  {}

  /** After a successful join the executives are those of DagResult on the outputs of all
      groups, whatever the order of the answers. */
  lemma JoinGivesDagResult(env: Env, s: State, requests: Requests, events: seq<Event>)
    requires Legal(s.execs, requests, events) && requests.Keys <= s.execs.Keys
    requires Play(s.execs, requests, events).callbacks == [true]
    ensures var d := Play(s.execs, requests, events);
            && AllOutputs(requests, d.answered).Keys == requests.Keys
            && s.(execs := d.execs) == DagResult(env, s, AllOutputs(requests, d.answered))
  {
    hide Legal, Play, CountsOk, AllOutputs, After;
    RunKeeps(s.execs, requests, events);
    JoinRunsOnce(s.execs, requests, events);
    var d := Play(s.execs, requests, events);
    OutputsAreComplete(requests, d);
    var outputs := AllOutputs(requests, d.answered);
    forall c | c in s.execs ensures d.execs[c] == DagResult(env, s, outputs).execs[c] {
      assert c in outputs.Keys <==> c in requests.Keys;
      AfterIsDagResult(env, s, requests, d, c);
    }
    assert d.execs.Keys == s.execs.Keys == DagResult(env, s, outputs).execs.Keys;
  }
}
