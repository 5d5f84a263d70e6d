/** What the do-while loop of serialPrepareExecutor does to each transaction, field by field:
    the reference that the handlers of DmcExecutor and ExecutiveState are held against. */
module DmcTurns {
  import opened Ordering
  import opened LockGraph
  import opened Options
  import opened Dmc
  import opened DmcInvariant

  // ----- one executive -----

  /** The fields of a message that only an executor sets. */
  predicate SameContent(m: Message, m': Message) {
    && m'.contextID == m.contextID && m'.from == m.from && m'.keyLockAcquired == m.keyLockAcquired
    && m'.hash == m.hash && m'.salt == m.salt && m'.data == m.data && m'.gasAvailable == m.gasAvailable
    && m'.status == m.status && m'.newContract == m.newContract && m'.logs == m.logs
  }

  /** The contract a message is for: the one it names, or the one that it creates. */
  predicate Target(env: Env, e: Executive, to: string) {
    var m := e.message;
    if m.to != "" || m.typ in {FINISHED, REVERT, KEY_LOCK} then to == m.to
    else if m.salt.Some? then to == env.newSaltedAddress(m.from, m.data, m.salt.value)
    else to == env.newAddress(env.blockNumber, m.contextID, e.currentSeq)
  }

  /** The message has its target, and if it was refused it is a call again: of a transaction
      if it carries a hash, of a contract otherwise. */
  predicate Addressed(env: Env, e: Executive, e': Executive) {
    var m, m' := e.message, e'.message;
    && SameContent(m, m') && m'.keyLocks == m.keyLocks && Target(env, e, m'.to)
    && (m.typ != SEND_BACK ==> m'.typ == m.typ)
    && (m.typ == SEND_BACK ==> if m.hash != 0 then m'.typ == TXHASH else m'.typ == MESSAGE)
  }

  /** The call stack under a message: a refused one starts afresh. */
  function Base(e: Executive): (r: seq<int>) {
    if e.message.typ == SEND_BACK then [] else e.callStack
  }

  /** The message was sent on to another pool. */
  predicate Forwards(env: Env, e: Executive, e': Executive) {
    && Addressed(env, e, e')
    && e'.callStack == Base(e) && e'.currentSeq == e.currentSeq
    && e'.message.frame == e.message.frame && e'.message.create == e.message.create
    && !e.moved && !e'.moved
  }

  /** The message was handled: a call opens a frame with the next number, a return closes the
      top one and goes on in the frame below it, if any, and a wait changes nothing. */
  predicate Turns(env: Env, e: Executive, e': Executive) {
    && Addressed(env, e, e')
    && match e.message.typ
       case KEY_LOCK => e' == e
       case FINISHED | REVERT =>
         var n := |e.callStack| - 1;
         && n >= 0 && e'.callStack == e.callStack[..n] && e'.currentSeq == e.currentSeq
         && (n > 0 ==> e'.message.frame == e.callStack[n - 1] && !e'.message.create && !e'.moved)
         && (n == 0 ==> e'.message == e.message && e'.moved)
       case MESSAGE | TXHASH | SEND_BACK =>
         && e'.callStack == Base(e) + [e.currentSeq] && e'.message.frame == e.currentSeq
         && e'.currentSeq == e.currentSeq + 1 && e'.message.create == e.message.create && !e'.moved
  }

  /** Where the handled message is filed: a wait stays locked at its contract, the return from
      the last frame finishes the transaction, and everything else is to be sent. */
  predicate Lands(e: Executive, to: string, place: Place) {
    match e.message.typ
    case KEY_LOCK => place == Locked(to)
    case FINISHED | REVERT => if |e.callStack| == 1 then place.Done? else place == Ready(to)
    case MESSAGE | TXHASH | SEND_BACK => place == Ready(to)
  }

  // ----- locks -----

  /** g' is g after the context took the keys for one of its frames: it holds every one of
      them and waits for none, and no other edge came or went. */
  ghost predicate Takes(g: Graph, g': Graph, contract: string, keys: seq<string>, c: int, frame: int) {
    && (forall k :: k in keys ==> Holds(g', KeyLock(contract, k), c, frame))
    && (forall k, f :: k in keys ==> !Waits(g', c, KeyLock(contract, k), f))
    && (forall x :: x in g' && x !in g ==>
          x.source.Key? && x.source.lock.contract == contract && x.source.lock.key in keys
          && x.target == Context(c) && x.frame == frame)
    && (forall x :: x in g && x !in g' ==>
          x.source == Context(c) && x.target.Key? && x.target.lock.contract == contract
          && x.target.lock.key in keys)
  }

  /** The context holds every key its message reports, for the frame of the message. */
  ghost predicate HoldsClaims(g: Graph, m: Message, c: int) {
    forall k :: k in Claims(m) ==> Holds(g, k, c, m.frame)
  }

  ghost predicate KeepsEdges(g: Graph, g': Graph, c: int) {
    forall x :: x in g && Touches(x, c) ==> x in g'
  }

  /** Only edges of the context itself have come or gone. */
  ghost predicate OthersEdges(g: Graph, g': Graph, c: int) {
    forall d :: d != c ==> KeepsEdges(g, g', d) && KeepsEdges(g', g, d)
  }

  // ----- every transaction -----

  /** What has happened to one context. */
  ghost predicate ProgressOf(env: Env, s: State, pl: Places, s': State, pl': Places, c: int)
    requires c in pl && c in s.execs && c in pl' && c in s'.execs
  {
    var e, e' := s.execs[c], s'.execs[c];
    if !Unhandled(pl[c]) then pl'[c] == pl[c] && e' == e && KeepsEdges(s.locks, s'.locks, c)
    else if Unhandled(pl'[c]) then e' == e || Forwards(env, e, e')
    else Turns(env, e, e') && Lands(e, e'.message.to, pl'[c]) && HoldsClaims(s'.locks, e.message, c)
  }

  ghost predicate Progress(env: Env, s: State, pl: Places, s': State, pl': Places) {
    && s.execs.Keys == pl.Keys == s'.execs.Keys == pl'.Keys
    && forall c :: c in pl ==> ProgressOf(env, s, pl, s', pl', c)
  }

  lemma ForwardsTwice(env: Env, e: Executive, e1: Executive, e2: Executive)
    requires Forwards(env, e, e1) && Forwards(env, e1, e2)
    ensures Forwards(env, e, e2)
  {}

  lemma ForwardsThenTurns(env: Env, e: Executive, e1: Executive, e2: Executive, place: Place)
    requires Forwards(env, e, e1) && Turns(env, e1, e2) && Lands(e1, e2.message.to, place)
    ensures Turns(env, e, e2) && Lands(e, e2.message.to, place)
    ensures Claims(e.message) <= Claims(e1.message) && e.message.frame == e1.message.frame
  {
    if e.message.typ == KEY_LOCK { assert e1 == e; }
  }

  lemma ProgressOfOn(env: Env, s: State, pl: Places, s1: State, pl1: Places, s2: State, pl2: Places, c: int)
    requires c in pl && c in s.execs && c in pl1 && c in s1.execs && c in pl2 && c in s2.execs
    requires ProgressOf(env, s, pl, s1, pl1, c) && ProgressOf(env, s1, pl1, s2, pl2, c)
    ensures ProgressOf(env, s, pl, s2, pl2, c)
  {
    hide Forwards, Turns, Lands, Claims;
    var e, e1, e2 := s.execs[c], s1.execs[c], s2.execs[c];
    if Unhandled(pl[c]) && Unhandled(pl1[c]) && e1 != e {
      if Unhandled(pl2[c]) {
        if e2 != e1 { ForwardsTwice(env, e, e1, e2); }
      } else {
        ForwardsThenTurns(env, e, e1, e2, pl2[c]);
      }
    } else if Unhandled(pl[c]) && !Unhandled(pl1[c]) {
      forall k | k in Claims(e.message) ensures Holds(s2.locks, k, c, e.message.frame) {
        assert Holds(s1.locks, k, c, e.message.frame);
      }
    }
  }

  lemma ProgressOn(env: Env, s: State, pl: Places, s1: State, pl1: Places, s2: State, pl2: Places)
    requires Progress(env, s, pl, s1, pl1) && Progress(env, s1, pl1, s2, pl2)
    ensures Progress(env, s, pl, s2, pl2)
  {
    hide ProgressOf;
    forall c | c in pl ensures ProgressOf(env, s, pl, s2, pl2, c) {
      ProgressOfOn(env, s, pl, s1, pl1, s2, pl2, c);
    }
  }

  /** Routing and refreshing leave the executives and the locks alone. */
  lemma NoProgress(env: Env, s: State, pl: Places, s': State, pl': Places)
    requires s.execs.Keys == pl.Keys == pl'.Keys && s'.execs == s.execs && s'.locks == s.locks
    requires forall c :: c in pl ==> pl'[c] == pl[c] || (Unhandled(pl[c]) && Unhandled(pl'[c]))
    ensures Progress(env, s, pl, s', pl')
  {}

  /** Handling one context is progress for it and leaves every other one alone. */
  lemma OneProgresses(env: Env, s: State, pl: Places, s': State, c: int, place: Place)
    requires s.execs.Keys == pl.Keys == s'.execs.Keys && c in pl
    requires ProgressOf(env, s, pl, s', pl[c := place], c)
    requires OthersEdges(s.locks, s'.locks, c) && forall d :: d in pl && d != c ==> s'.execs[d] == s.execs[d]
    ensures Progress(env, s, pl, s', pl[c := place])
  {
    hide Forwards, Turns, Lands, Claims;
    var pl' := pl[c := place];
    forall d | d in pl ensures ProgressOf(env, s, pl, s', pl', d) {
      if d != c { assert s'.execs[d] == s.execs[d]; }
    }
  }

  lemma TakesHolds(g: Graph, g': Graph, m: Message, c: int)
    requires Takes(g, g', m.from, m.keyLocks, c, m.frame)
    ensures HoldsClaims(g', m, c)
    ensures OthersEdges(g, g', c)
    ensures forall x, d :: x in g' && Touches(x, d) && d != c ==> x in g
  {}

  lemma NothingTaken(g: Graph, c: int)
    ensures OthersEdges(g, g, c)
  {}

  lemma ReturnClaimsNothing(g: Graph, m: Message, c: int)
    requires m.typ in {FINISHED, REVERT}
    ensures HoldsClaims(g, m, c)
  {}
}
