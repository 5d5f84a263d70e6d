/** The scheduler of a block as values: the message pool of every contract
    (ExecutivePool), the executive of every transaction (ExecutiveState), the key
    locks, the receipts, and the serial part of a round (DmcExecutor and
    BlockExecutive::serialPrepareExecutor).  `BlockExecution` runs these steps in place. */
module Dmc {
  import opened Options
  import opened Ordering
  import opened LockGraph

  datatype MessageType = TXHASH | MESSAGE | FINISHED | KEY_LOCK | SEND_BACK | REVERT

  /** ExecutionMessage; `frame` is its seq, `hash` 0 stands for h256(0). */
  datatype Message = Message(
    typ: MessageType, contextID: int, frame: int, from: string, to: string,
    keyLocks: seq<string>, keyLockAcquired: string, create: bool, hash: int, salt: Option<int>,
    data: seq<int>, gasAvailable: int, status: int, newContract: string, logs: seq<string>)

  /** ExecutiveState; `moved` says that the message has been handed to an executor or
      turned into a receipt, so that it is null. */
  datatype Executive = Executive(callStack: seq<int>, currentSeq: int, message: Message, moved: bool)

  datatype Hint = NEED_PREPARE | LOCKED | NEED_SEND | NEED_SCHEDULE_OUT | END

  /** ExecutivePool: the pending contexts and the five hint sets. */
  datatype Pool = Pool(pending: set<int>, needPrepare: set<int>, hasLocked: set<int>,
                       needSend: set<int>, needScheduleOut: set<int>, needRemove: set<int>)

  const EMPTY_POOL := Pool({}, {}, {}, {}, {}, {})

  datatype Receipt = Receipt(gasUsed: int, contract: string, logs: seq<string>, status: int, output: seq<int>)

  /** The exceptions and failed assertions of the source. */
  datatype Fault =
    | UnexpectedKeyLock      // batchAcquireKeyLock could not take a reported key
    | PopOfEmptyStack        // callStack.pop() on an empty stack
    | UnrecognizedType       // "Unrecognized message type"
    | NormalMessageLocked    // "Handle a normal message in locking pool"
    | NullMessage            // a message that was already handed over
    | SlotOutOfRange         // a receipt outside m_executiveResults
    | NoDeadlockDetected     // "Need detect deadlock but no deadlock detected!"

  datatype State = State(
    pools: map<string, Pool>,             // m_dmcExecutors
    execs: map<int, Executive>,
    locks: Graph,                         // m_keyLocks
    results: seq<Option<Receipt>>,        // m_executiveResults
    gasUsed: int,                         // m_gasUsed
    written: seq<int>,                    // the result slots in the order they were written
    batches: map<string, seq<seq<Message>>>,  // what each contract's executor has been sent
    fault: Option<Fault>)

  /** What the scheduler takes from outside: block data, address derivation, and the
      executors.  An executor is any function of the batches sent to it so far. */
  datatype Env = Env(
    startContextID: int, gasLimit: int, blockNumber: int,
    newAddress: (int, int, int) -> string,
    newSaltedAddress: (string, seq<int>, int) -> string,
    isSystem: string -> bool,
    run: (string, seq<seq<Message>>) -> map<int, Message>)

  // ----- ExecutivePool -----

  function Add(p: Pool, c: int): (r: Pool) {
    p.(pending := p.pending + {c}, needPrepare := p.needPrepare + {c})
  }

  function MarkAs(p: Pool, c: int, hint: Hint): (r: Pool) {
    match hint
    case NEED_PREPARE => p.(needPrepare := p.needPrepare + {c})
    case LOCKED => p.(hasLocked := p.hasLocked + {c})
    case NEED_SEND => p.(needSend := p.needSend + {c})
    case NEED_SCHEDULE_OUT => p.(needScheduleOut := p.needScheduleOut + {c})
    case END => p.(needRemove := p.needRemove + {c})
  }

  function Refresh(p: Pool): (r: Pool) {
    var gone := p.needRemove + p.needScheduleOut;
    Pool(p.pending - gone, p.needPrepare - gone, p.hasLocked - p.needSend - gone, p.needSend, {}, {})
  }

  /** hasFinished */
  predicate Finished(p: Pool) {
    p.pending == {} && p.hasLocked == {}
  }

  function PoolAt(s: State, a: string): (r: Pool) {
    if a in s.pools then s.pools[a] else EMPTY_POOL
  }

  function SetPool(s: State, a: string, p: Pool): (r: State) {
    s.(pools := s.pools[a := p])
  }

  function SetExec(s: State, c: int, e: Executive): (r: State) {
    s.(execs := s.execs[c := e])
  }

  function Fail(s: State, f: Fault): (r: State) {
    if s.fault.Some? then s else s.(fault := Some(f))
  }

  // ----- messages -----

  /** handleCreateMessage: a refused message becomes a fresh call with an empty stack, and a
      call without a target gets the address of the contract it creates. */
  function HandleCreate(env: Env, e: Executive): (r: Executive) {
    var e1 := if e.message.typ == SEND_BACK
              then e.(callStack := [], message := e.message.(typ := if e.message.hash != 0 then TXHASH else MESSAGE))
              else e;
    var m := e1.message;
    if m.typ in {MESSAGE, TXHASH} && m.to == "" then
      var address := if m.salt.Some?
                     then env.newSaltedAddress(m.from, m.data, m.salt.value)
                     else env.newAddress(env.blockNumber, m.contextID, e1.currentSeq);
      e1.(message := m.(to := address))
    else e1
  }

  const WORD := 0x1_0000_0000_0000_0000

  /** The receipt onTxFinish makes of the last message, gas in size_t arithmetic. */
  function MakeReceipt(env: Env, m: Message): (r: Receipt) {
    var gas := if env.isSystem(m.from) then 0 else (env.gasLimit - m.gasAvailable) % WORD;
    Receipt(gas, m.newContract, m.logs, m.status, m.data)
  }

  /** onTxFinish */
  function OnTxFinish(env: Env, s: State, m: Message): (r: State) {
    var receipt := MakeReceipt(env, m);
    var slot := m.contextID - env.startContextID;
    if 0 <= slot < |s.results| then
      s.(results := s.results[slot := Some(receipt)],
         gasUsed := (s.gasUsed + receipt.gasUsed) % WORD,
         written := s.written + [slot])
    else Fail(s, SlotOutOfRange)
  }

  datatype Handled = Handled(state: State, hint: Hint)

  /** A call: take the keys it reports and push a new frame. */
  ghost function HandleCall(s: State, c: int, e: Executive): (r: Handled) {
    var m := e.message;
    var g := AcquireAll(s.locks, m.from, m.keyLocks, m.contextID, m.frame);
    if !g.granted then Handled(Fail(SetExec(s.(locks := g.graph), c, e), UnexpectedKeyLock), END)
    else
      var newSeq := e.currentSeq;
      Handled(SetExec(s.(locks := g.graph), c,
                      Executive(e.callStack + [newSeq], newSeq + 1, m.(frame := newSeq), false)), NEED_SEND)
  }

  /** A return: pop the frame; the last one finishes the transaction. */
  function HandleReturn(env: Env, s: State, c: int, e: Executive): (r: Handled) {
    if e.callStack == [] then Handled(Fail(SetExec(s, c, e), PopOfEmptyStack), END) else
      var stack := e.callStack[..|e.callStack| - 1];
      if stack == [] then
        Handled(OnTxFinish(env, SetExec(s, c, e.(callStack := [], moved := true)), e.message), END)
      else
        Handled(SetExec(s, c, e.(callStack := stack,
                                 message := e.message.(frame := stack[|stack| - 1], create := false))), NEED_SEND)
  }

  /** A wait for a key: take the keys it reports and stay locked. */
  ghost function HandleWait(s: State, c: int, e: Executive): (r: Handled) {
    var m := e.message;
    var g := AcquireAll(s.locks, m.from, m.keyLocks, m.contextID, m.frame);
    if !g.granted then Handled(Fail(SetExec(s.(locks := g.graph), c, e), UnexpectedKeyLock), END)
    else Handled(SetExec(s.(locks := g.graph), c, e), LOCKED)
  }

  /** handleExecutiveMessage */
  ghost function HandleExecutiveMessage(env: Env, s: State, a: string, c: int): (r: Handled)
    requires c in s.execs
  {
    var e := HandleCreate(env, s.execs[c]);
    if s.execs[c].moved then Handled(Fail(s, NullMessage), END)
    else if e.message.to != a then Handled(SetExec(s, c, e), NEED_SCHEDULE_OUT)
    else match e.message.typ
      case MESSAGE | TXHASH => HandleCall(s, c, e)
      case FINISHED | REVERT => HandleReturn(env, s, c, e)
      case KEY_LOCK => HandleWait(s, c, e)
      case SEND_BACK => Handled(Fail(SetExec(s, c, e), UnrecognizedType), END)
  }

  /** registerAndGetDmcExecutor and scheduleIn, reached through f_onSchedulerOut. */
  function ScheduleExecutive(s: State, c: int): (r: State)
    requires c in s.execs
  {
    var to := s.execs[c].message.to;
    if s.execs[c].moved then Fail(s, NullMessage)
    else SetPool(s, to, Add(PoolAt(s, to), c))
  }

  // ----- one contract's executor -----

  /** A turn of releaseOutdatedLock. */
  ghost function ReleaseOne(s: State, a: string, c: int): (r: State) {
    if s.fault.None? && c in PoolAt(s, a).pending && c in s.execs then
      var m := s.execs[c].message;
      if s.execs[c].moved then Fail(s, NullMessage)
      else if m.typ in {FINISHED, REVERT} then s.(locks := Release(s.locks, m.contextID, m.frame))
      else s
    else s
  }

  ghost function ReleaseEach(s: State, a: string, cs: seq<int>): (r: State)
    decreases |cs|
  {
    if cs == [] then s else ReleaseOne(ReleaseEach(s, a, cs[..|cs| - 1]), a, cs[|cs| - 1])
  }

  /** releaseOutdatedLock */
  ghost function ReleaseOutdatedLock(s: State, a: string): (r: State) {
    ReleaseEach(s, a, SortInts(PoolAt(s, a).needPrepare))
  }

  /** A turn of the first loop of prepare: handle the message and file it under its hint. */
  ghost function PrepareOne(env: Env, s: State, a: string, c: int): (r: State) {
    var p := PoolAt(s, a);
    var taken := p.(needPrepare := p.needPrepare - {c});
    if s.fault.None? && c in p.pending && c in s.execs then
      var h := HandleExecutiveMessage(env, s, a, c);
      SetPool(h.state, a, MarkAs(taken, c, h.hint))
    else SetPool(s, a, taken)
  }

  ghost function PrepareEach(env: Env, s: State, a: string, cs: seq<int>): (r: State)
    decreases |cs|
  {
    if cs == [] then s else PrepareOne(env, PrepareEach(env, s, a, cs[..|cs| - 1]), a, cs[|cs| - 1])
  }

  /** A turn of the second loop of prepare. */
  ghost function ScheduleOne(s: State, a: string, c: int): (r: State) {
    if s.fault.None? && c in PoolAt(s, a).pending && c in s.execs then ScheduleExecutive(s, c) else s
  }

  ghost function ScheduleEach(s: State, a: string, cs: seq<int>): (r: State)
    decreases |cs|
  {
    if cs == [] then s else ScheduleOne(ScheduleEach(s, a, cs[..|cs| - 1]), a, cs[|cs| - 1])
  }

  function RefreshAt(s: State, a: string): (r: State) {
    SetPool(s, a, Refresh(PoolAt(s, a)))
  }

  /** The state of prepare after its first loop. */
  ghost function HandleAll(env: Env, s: State, a: string): (r: State) {
    var s1 := RefreshAt(s, a);
    PrepareEach(env, s1, a, SortInts(PoolAt(s1, a).needPrepare))
  }

  datatype Prepared = Prepared(state: State, scheduledOut: bool)

  /** DmcExecutor::prepare */
  ghost function Prepare(env: Env, s: State, a: string): (r: Prepared) {
    var s2 := HandleAll(env, s, a);
    var out := PoolAt(s2, a).needScheduleOut;
    Prepared(RefreshAt(ScheduleEach(s2, a, SortInts(out)), a), out != {})
  }

  // ----- serialPrepareExecutor -----

  ghost function ReleaseAll(s: State, addresses: seq<string>): (r: State)
    decreases |addresses|
  {
    if addresses == [] then s
    else ReleaseOutdatedLock(ReleaseAll(s, addresses[..|addresses| - 1]), addresses[|addresses| - 1])
  }

  ghost function PrepareAll(env: Env, s: State, addresses: seq<string>): (r: Prepared)
    decreases |addresses|
  {
    if addresses == [] then Prepared(s, false) else
      var before := PrepareAll(env, s, addresses[..|addresses| - 1]);
      var last := Prepare(env, before.state, addresses[|addresses| - 1]);
      Prepared(last.state, before.scheduledOut || last.scheduledOut)
  }

  /** One turn of the do-while loop. */
  ghost function Pass(env: Env, s: State): (r: Prepared) {
    var addresses := SortStrings(s.pools.Keys);
    PrepareAll(env, ReleaseAll(s, addresses), addresses)
  }

  /** A turn of unlockPrepare. */
  ghost function UnlockOne(s: State, a: string, c: int): (r: State) {
    if s.fault.None? && c in PoolAt(s, a).pending && c in s.execs then
      var m := s.execs[c].message;
      if s.execs[c].moved then Fail(s, NullMessage)
      else if m.typ != KEY_LOCK then Fail(s, NormalMessageLocked)
      else
        var r := Acquire(s.locks, KeyLock(m.from, m.keyLockAcquired), c, m.frame);
        if r.granted then SetPool(s.(locks := r.graph), a, MarkAs(PoolAt(s, a), c, NEED_SEND))
        else s.(locks := r.graph)
    else s
  }

  ghost function UnlockEach(s: State, a: string, cs: seq<int>): (r: State)
    decreases |cs|
  {
    if cs == [] then s else UnlockOne(UnlockEach(s, a, cs[..|cs| - 1]), a, cs[|cs| - 1])
  }

  /** unlockPrepare, skipped for a finished executor. */
  ghost function UnlockPrepare(s: State, a: string): (r: State) {
    if Finished(PoolAt(s, a)) then s else UnlockEach(s, a, SortInts(PoolAt(s, a).hasLocked))
  }

  ghost function UnlockAll(s: State, addresses: seq<string>): (r: State)
    decreases |addresses|
  {
    if addresses == [] then s
    else UnlockPrepare(UnlockAll(s, addresses[..|addresses| - 1]), addresses[|addresses| - 1])
  }

  /** Some executor is unfinished and none of the unfinished ones has anything to send. */
  predicate NeedDetectDeadlock(s: State) {
    && (exists a :: a in s.pools && !Finished(s.pools[a]))
    && (forall a :: a in s.pools && !Finished(s.pools[a]) ==> s.pools[a].needSend == {})
  }

  /** The first context of a pool that detectLockAndRevert finds deadlocked. */
  ghost function FirstVictim(s: State, a: string, cs: seq<int>): (r: Option<int>)
    ensures r.Some? ==> r.value in cs && r.value in PoolAt(s, a).pending && r.value in s.execs
                        && Deadlocked(s.locks, r.value)
    ensures r.None? ==> forall c :: c in cs && c in PoolAt(s, a).pending && c in s.execs ==> !Deadlocked(s.locks, c)
    decreases |cs|
  {
    if cs == [] then None
    else if cs[0] in PoolAt(s, a).pending && cs[0] in s.execs && Deadlocked(s.locks, cs[0]) then Some(cs[0])
    else FirstVictim(s, a, cs[1..])
  }

  /** detectLockAndRevert for a victim: turn the waiting message into a revert and send it. */
  function RevertVictim(s: State, a: string, c: int): (r: State)
    requires c in s.execs
  {
    var e := s.execs[c];
    if e.moved then Fail(s, NullMessage) else
      SetPool(SetExec(s, c, e.(message := e.message.(typ := REVERT, create := false, keyLocks := []))),
              a, MarkAs(PoolAt(s, a), c, NEED_SEND))
  }

  /** The detection loop over the executors: revert the first victim found. */
  ghost function DetectAndRevert(s: State, addresses: seq<string>): (r: State)
    decreases |addresses|
  {
    if addresses == [] then Fail(s, NoDeadlockDetected) else
      var victim := FirstVictim(s, addresses[0], SortInts(PoolAt(s, addresses[0]).hasLocked));
      if victim.Some? then RevertVictim(s, addresses[0], victim.value)
      else DetectAndRevert(s, addresses[1..])
  }

  /** serialPrepareExecutor after its do-while loop. */
  ghost function HandleLocked(s: State): (r: State) {
    var addresses := SortStrings(s.pools.Keys);
    var s1 := UnlockAll(s, addresses);
    if NeedDetectDeadlock(s1) then DetectAndRevert(s1, addresses) else s1
  }
}
