/** The invariant of the scheduler: where every context is, what its message and call
    stack look like there, and how the lock graph follows the call stacks. */
module DmcInvariant {
  import opened Ordering
  import opened LockGraph
  import opened Options
  import opened Dmc

  /** Where a context is: about to be prepared, ready to be sent or locked in the pool of a
      contract, on its way out of a pool, or finished with a receipt. */
  datatype Place =
    | Prep(at: string)
    | Ready(at: string)
    | Locked(at: string)
    | Transit(at: string)
    | Done(receipt: Receipt)

  type Places = map<int, Place>

  predicate Home(p: Place, a: string) {
    (p.Prep? || p.Ready? || p.Locked?) && p.at == a
  }

  /** The message of the context has not been handled yet. */
  predicate Unhandled(p: Place) {
    p.Prep? || p.Transit?
  }

  function Leaving(p: Pool): (r: set<int>) {
    p.needScheduleOut + p.needRemove
  }

  /** A pool holds the contexts that are at home there, plus those it has not forgotten yet. */
  ghost predicate PoolOk(p: Pool, a: string, pl: Places) {
    && (forall c :: c in p.needPrepare <==> c in pl && pl[c] == Prep(a))
    && (forall c :: c in p.needSend <==> c in pl && pl[c] == Ready(a))
    && (forall c :: c in pl && pl[c] == Locked(a) ==> c in p.hasLocked)
    && (forall c :: c in p.pending <==> (c in pl && Home(pl[c], a)) || c in Leaving(p))
    && (forall c :: c in Leaving(p) ==> !(c in pl && Home(pl[c], a)))
    && (forall c :: c in p.hasLocked ==> c in p.pending)
  }

  ghost predicate PoolsOk(pools: map<string, Pool>, pl: Places) {
    && (forall a :: a in pools ==> PoolOk(pools[a], a, pl))
    && (forall c :: c in pl && !pl[c].Done? ==> pl[c].at in pools)
  }

  // ----- call stacks and messages -----

  ghost predicate StackOk(e: Executive) {
    && StrictlyIncreasing(e.callStack)
    && (forall i :: 0 <= i < |e.callStack| ==> 0 <= e.callStack[i] < e.currentSeq)
    && 0 <= e.currentSeq
  }

  /** The message carries the frame on top of the call stack. */
  predicate AtTop(e: Executive) {
    e.callStack != [] && e.message.frame == e.callStack[|e.callStack| - 1]
  }

  /** A message that has come back from an executor, or the first one. */
  predicate AwaitsHandling(env: Env, e: Executive) {
    && (match e.message.typ
        case FINISHED => AtTop(e)
        case REVERT => AtTop(e)
        case KEY_LOCK => AtTop(e)
        case MESSAGE => e.message.keyLocks == [] || AtTop(e)
        case TXHASH => e.message.keyLocks == [] || AtTop(e)
        case SEND_BACK => e.message.keyLocks == [])
    && (Creates(e) ==> Dest(env, e) != "")
  }

  predicate Creates(e: Executive) {
    e.message.to == "" && e.message.typ in {MESSAGE, TXHASH, SEND_BACK}
  }

  /** The contract the message of an executive is for, once its target is filled in. */
  function Dest(env: Env, e: Executive): (r: string) {
    HandleCreate(env, e).message.to
  }

  /** What the receipt of a transaction says about m, the last message that came back for it:
      a sender that is a system account pays nothing, and for every other one the gas used
      and the gas left make up the limit, in size_t arithmetic. */
  predicate Describes(env: Env, m: Message, r: Receipt) {
    && (env.isSystem(m.from) ==> r.gasUsed == 0)
    && (!env.isSystem(m.from) ==>
          0 <= r.gasUsed < WORD && (r.gasUsed + m.gasAvailable - env.gasLimit) % WORD == 0)
    && r.contract == m.newContract
    && r.logs == m.logs
    && r.status == m.status
    && r.output == m.data
  }

  ghost predicate ExecOk(env: Env, e: Executive, p: Place, c: int) {
    && StackOk(e)
    && e.message.contextID == c
    && (match p
        case Done(r) => e.callStack == [] && Describes(env, e.message, r)
        case Prep(a) => !e.moved && AwaitsHandling(env, e)
        case Transit(a) => !e.moved && AwaitsHandling(env, e) && HandleCreate(env, e) == e && e.message.to != a
        case Ready(a) => !e.moved && AtTop(e) && e.message.to == a
        case Locked(a) => !e.moved && AtTop(e) && e.message.to == a && e.message.typ == KEY_LOCK)
  }

  ghost predicate ExecsOk(env: Env, s: State, pl: Places) {
    && s.execs.Keys == pl.Keys
    && forall c :: c in pl ==> ExecOk(env, s.execs[c], pl[c], c)
  }

  /** A context is in no pool but its own on the way to its destination. */
  ghost predicate RouteOk(env: Env, s: State, pl: Places, c: int)
    requires c in pl && c in s.execs
  {
    Unhandled(pl[c]) ==>
      var d := Dest(env, s.execs[c]);
      d == pl[c].at || c !in PoolAt(s, d).pending
  }

  ghost predicate RoutesOk(env: Env, s: State, pl: Places)
    requires s.execs.Keys == pl.Keys
  {
    forall c :: c in pl ==> RouteOk(env, s, pl, c)
  }

  // ----- locks -----

  /** Every edge of a context carries a frame that is still on its call stack. */
  ghost predicate EdgesFollowStacks(g: Graph, execs: map<int, Executive>) {
    forall e, c :: e in g && Touches(e, c) ==> c in execs && e.frame in execs[c].callStack
  }

  /** The keys an unhandled message reports as held. */
  function Claims(m: Message): (r: set<KeyLock>) {
    if m.typ in {MESSAGE, TXHASH, KEY_LOCK} then set k | k in m.keyLocks :: KeyLock(m.from, k) else {}
  }

  ghost predicate Grantable(g: Graph, m: Message, c: int) {
    forall k :: k in Claims(m) ==> !HeldByOther(g, k, c)
  }

  ghost predicate GrantsOk(s: State, pl: Places)
    requires s.execs.Keys == pl.Keys
  {
    && (forall c :: c in pl && Unhandled(pl[c]) ==> Grantable(s.locks, s.execs[c].message, c))
    && (forall c, d :: c in pl && d in pl && c != d && Unhandled(pl[c]) && Unhandled(pl[d]) ==>
          Claims(s.execs[c].message) !! Claims(s.execs[d].message))
    && (forall c :: c in pl && Unhandled(pl[c]) && s.execs[c].message.typ == SEND_BACK ==> !Busy(s.locks, c))
  }

  // ----- receipts -----

  ghost function GasSum(results: seq<Option<Receipt>>): (r: int) {
    if results == [] then 0 else
      GasSum(results[..|results| - 1])
      + (if results[|results| - 1].Some? then results[|results| - 1].value.gasUsed else 0)
  }

  /** The result slot of a context. */
  function Outcome(p: Place): (r: Option<Receipt>) {
    if p.Done? then Some(p.receipt) else None
  }

  ghost predicate ResultsOk(env: Env, results: seq<Option<Receipt>>, gasUsed: int, written: seq<int>, pl: Places) {
    && (forall c :: c in pl <==> 0 <= c - env.startContextID < |results|)
    && (forall c :: c in pl ==> results[c - env.startContextID] == Outcome(pl[c]))
    && gasUsed == GasSum(results) % WORD
    && NoDuplicates(written)
    && (forall i :: i in written <==> 0 <= i < |results| && results[i].Some?)
  }

  /** The invariant, with the place of every context as witness. */
  ghost predicate Inv(env: Env, s: State, pl: Places) {
    && s.fault.None?
    && PoolsOk(s.pools, pl)
    && ExecsOk(env, s, pl)
    && RoutesOk(env, s, pl)
    && WellFormed(s.locks)
    && EdgesFollowStacks(s.locks, s.execs)
    && GrantsOk(s, pl)
    && ResultsOk(env, s.results, s.gasUsed, s.written, pl)
  }

  ghost predicate NoTransit(pl: Places) {
    forall c :: c in pl ==> !pl[c].Transit?
  }

  ghost predicate Invariant(env: Env, s: State) {
    exists pl: Places :: Inv(env, s, pl) && NoTransit(pl)
  }
}
