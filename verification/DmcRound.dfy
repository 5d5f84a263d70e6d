/** The parallel part of a round: the executors' go calls and output callbacks in any
    interleaving, and the join that decides how to continue. */
module DmcRound {
  import opened Ordering
  import opened LockGraph
  import opened Options
  import opened Dmc

  // ----- DmcExecutor::go and handleExecutiveOutputs -----

  /** The message as it is sent: with the keys of its contract that others hold. */
  ghost function Outgoing(s: State, c: int): (r: Message)
    requires c in s.execs
  {
    var m := s.execs[c].message;
    m.(keyLocks := SortStrings(KeysHeldByOthers(s.locks, m.to, c)))
  }

  /** The messages of some contexts, in order. */
  ghost function Messages(s: State, cs: seq<int>): (r: seq<Message>)
    requires forall c :: c in cs ==> c in s.execs
  {
    seq(|cs|, i requires 0 <= i < |cs| => Outgoing(s, cs[i]))
  }

  function BatchesAt(s: State, a: string): (r: seq<seq<Message>>) {
    if a in s.batches then s.batches[a] else []
  }

  /** The contexts go sends from a pool. */
  function ToSend(s: State, a: string): (r: set<int>) {
    set c | c in PoolAt(s, a).needSend && c in PoolAt(s, a).pending && c in s.execs
  }

  /** The batches of a contract including the one its pool is about to send. */
  ghost function NextBatches(s: State, a: string): (r: seq<seq<Message>>) {
    BatchesAt(s, a) + [Messages(s, SortInts(ToSend(s, a)))]
  }

  datatype Status = PAUSED | FINISHED_STATUS

  /** The effect of go on the state: hand over the messages that need sending. */
  ghost function Go(s: State, a: string): (r: State) {
    if Finished(PoolAt(s, a)) || PoolAt(s, a).needSend == {} then s
    else if exists c :: c in ToSend(s, a) && s.execs[c].moved then Fail(s, NullMessage)
    else
      var sent := ToSend(s, a);
      SetPool(s.(execs := map c | c in s.execs ::
                            if c in sent then s.execs[c].(message := Outgoing(s, c), moved := true) else s.execs[c],
                 batches := s.batches[a := NextBatches(s, a)]),
              a, PoolAt(s, a).(needSend := {}))
  }

  /** What go reports; an executor with messages in flight reports PAUSED when they are back. */
  function GoStatus(s: State, a: string): (r: Status) {
    if Finished(PoolAt(s, a)) then FINISHED_STATUS else PAUSED
  }

  /** A turn of handleExecutiveOutputs. */
  ghost function HandleOutput(s: State, a: string, c: int, m: Message): (r: State) {
    if c !in PoolAt(s, a).pending || c !in s.execs then Fail(s, NullMessage) else
      var s1 := SetExec(s, c, s.execs[c].(message := m, moved := false));
      if m.to == a then SetPool(s1, a, MarkAs(PoolAt(s, a), c, NEED_PREPARE))
      else ScheduleExecutive(SetPool(s1, a, MarkAs(PoolAt(s, a), c, NEED_SCHEDULE_OUT)), c)
  }

  // ----- interleavings -----

  datatype Event = GoCall(a: string) | Receive(a: string, c: int) | Count(a: string) | Check(a: string)

  datatype Decision = NextRound | FinishBlock | NeverGoesHere

  /** A round in progress: the scheduler, which go calls and callbacks have happened, and
      the BatchStatus counters. */
  datatype Round = Round(
    state: State,
    gone: map<string, Status>,      // go has run, and what it will report
    flight: map<string, set<int>>,  // the contexts each executor was sent
    received: set<int>,             // the contexts whose output has been handled
    counted: set<string>, paused: int, finished: int,
    checked: set<string>, callbackExecuted: bool,
    decisions: seq<Decision>)       // the continuations that have run

  function Start(s: State): (r: Round) {
    Round(s, map[], map[], {}, {}, 0, 0, {}, false, [])
  }

  ghost predicate Enabled(participants: set<string>, r: Round, ev: Event) {
    match ev
    case GoCall(a) => a in participants && a !in r.gone
    case Receive(a, c) => a in r.flight && c in r.flight[a] && c !in r.received
    case Count(a) => a in r.gone && a !in r.counted && (a in r.flight ==> r.flight[a] <= r.received)
    case Check(a) => a in r.counted && a !in r.checked
  }

  function Decide(r: Round, total: int): (d: Decision) {
    if r.paused != 0 then NextRound else if r.finished == total then FinishBlock else NeverGoesHere
  }

  ghost function Apply(env: Env, participants: set<string>, r: Round, ev: Event): (r': Round) {
    match ev
    case GoCall(a) =>
      r.(state := Go(r.state, a), gone := r.gone[a := GoStatus(r.state, a)],
         flight := if Finished(PoolAt(r.state, a)) || PoolAt(r.state, a).needSend == {} then r.flight
                   else r.flight[a := ToSend(r.state, a)])
    case Receive(a, c) =>
      var outputs := env.run(a, BatchesAt(r.state, a));
      r.(state := if c in outputs then HandleOutput(r.state, a, c, outputs[c]) else r.state,
         received := r.received + {c})
    case Count(a) =>
      var late := a in r.gone && r.gone[a] == FINISHED_STATUS;
      r.(counted := r.counted + {a},
         paused := if late then r.paused else r.paused + 1,
         finished := if late then r.finished + 1 else r.finished)
    case Check(a) =>
      if r.paused + r.finished != |participants| || r.callbackExecuted then r.(checked := r.checked + {a})
      else r.(checked := r.checked + {a}, callbackExecuted := true,
              decisions := r.decisions + [Decide(r, |participants|)])
  }

  /** The round after some events, in this order. */
  ghost function Play(env: Env, s: State, events: seq<Event>): (r: Round)
    decreases |events|
  {
    if events == [] then Start(s)
    else Apply(env, s.pools.Keys, Play(env, s, events[..|events| - 1]), events[|events| - 1])
  }

  /** Every event happens when it can. */
  ghost predicate Legal(env: Env, s: State, events: seq<Event>)
    decreases |events|
  {
    events == []
    || (Legal(env, s, events[..|events| - 1])
        && Enabled(s.pools.Keys, Play(env, s, events[..|events| - 1]), events[|events| - 1]))
  }

  // ----- the closed form of a round -----

  /** The pool a context of the scheduled state is sent from. */
  ghost function Sender(s: State, c: int): (r: Option<string>)
    ensures r.Some? ==> r.value in s.pools && c in s.pools[r.value].needSend
    ensures r.None? ==> forall a :: a in s.pools ==> c !in s.pools[a].needSend
  {
    if exists a :: a in s.pools && c in s.pools[a].needSend then
      var a :| a in s.pools && c in s.pools[a].needSend; Some(a)
    else None
  }

  /** The output for a context of the scheduled state. */
  ghost function Output(env: Env, s: State, c: int): (r: Message)
    requires c in s.execs && Sender(s, c).Some?
  {
    var a := Sender(s, c).value;
    var outputs := env.run(a, NextBatches(s, a));
    if c in outputs then outputs[c] else s.execs[c].message
  }

  /** Has this context been handled, and where did its output go? */
  ghost predicate WentTo(env: Env, s: State, received: set<int>, c: int, a: string) {
    c in received && c in s.execs && Sender(s, c).Some? && Output(env, s, c).to == a
  }

  ghost predicate CameFrom(s: State, received: set<int>, c: int, a: string) {
    c in received && c in s.execs && Sender(s, c) == Some(a)
  }

  /** A pool after some go calls and outputs, whatever their order. */
  ghost function PoolAfter(env: Env, s: State, gone: set<string>, received: set<int>, a: string): (r: Pool) {
    var p := PoolAt(s, a);
    var back := set c | c in received && WentTo(env, s, received, c, a);
    var arrived := set c | c in back && !CameFrom(s, received, c, a);
    var left := set c | c in received && CameFrom(s, received, c, a) && !WentTo(env, s, received, c, a);
    Pool(p.pending + arrived, p.needPrepare + back, p.hasLocked, if a in gone then {} else p.needSend,
         p.needScheduleOut + left, p.needRemove)
  }

  ghost function ExecAfter(env: Env, s: State, gone: set<string>, received: set<int>, c: int): (r: Executive)
    requires c in s.execs
  {
    var e := s.execs[c];
    if Sender(s, c).None? then e
    else if c in received then Executive(e.callStack, e.currentSeq, Output(env, s, c), false)
    else if Sender(s, c).value in gone then Executive(e.callStack, e.currentSeq, Outgoing(s, c), true)
    else e
  }

  ghost function Targets(env: Env, s: State, received: set<int>): (r: set<string>) {
    set c | c in received && c in s.execs && Sender(s, c).Some? :: Output(env, s, c).to
  }

  /** The scheduler after some go calls and outputs, whatever their order. */
  ghost function StateAfter(env: Env, s: State, gone: set<string>, received: set<int>): (r: State) {
    s.(pools := map a | a in s.pools.Keys + Targets(env, s, received) :: PoolAfter(env, s, gone, received, a),
       execs := map c | c in s.execs :: ExecAfter(env, s, gone, received, c),
       batches := map a | a in s.batches.Keys + (set a | a in gone && a in s.pools && s.pools[a].needSend != {}) ::
                    if a in gone && a in s.pools && s.pools[a].needSend != {} then NextBatches(s, a)
                    else BatchesAt(s, a))
  }

  ghost function AllSent(s: State): (r: set<int>) {
    set c | c in s.execs && Sender(s, c).Some?
  }

  /** The state every interleaving of the round ends in. */
  ghost function RoundResult(env: Env, s: State): (r: State) {
    StateAfter(env, s, s.pools.Keys, AllSent(s))
  }
}
