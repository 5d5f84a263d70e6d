/** batchGetHashes: the state root of a block as the exclusive or of the executors' hashes,
    gathered in any order. */
module StateHash {
  import opened FanOut
  import BatchJoin

  /** h256, bit by bit */
  type Hash = h: seq<bool> | |h| == 256 witness seq(256, i => false)

  function Zero(): (z: Hash) {
    seq(256, i => false)
  }

  /** FixedBytes::operator^= */
  function Mix(a: Hash, b: Hash): (r: Hash) {
    seq(256, i requires 0 <= i < 256 => a[i] != b[i])
  }

  datatype Reply = Hashed(hash: Hash) | Failure

  /** The batch, what the executors have answered, the hash so far, and the hashes reported. */
  datatype State = State(join: BatchJoin.State<string>, replies: map<string, Reply>, totalHash: Hash, roots: seq<Hash>)

  datatype Event = Answer(executor: string, reply: Reply) | Stop

  ghost function Start(executors: set<string>): (s: State) {
    State(BatchJoin.Start(executors), map[], Zero(), [])
  }

  ghost function JoinEvent(ev: Event): (r: BatchJoin.Event<string>) {
    match ev
    case Answer(executor, reply) => BatchJoin.Answer(executor, reply.Hashed?)
    case Stop => BatchJoin.Stop
  }

  ghost function Apply(s: State, ev: Event): (r: State) {
    var join := BatchJoin.Apply(s.join, JoinEvent(ev));
    match ev
    case Stop => s.(join := join)
    case Answer(executor, reply) =>
      var totalHash := if reply.Hashed? then Mix(s.totalHash, reply.hash) else s.totalHash;
      State(join, s.replies[executor := reply], totalHash,
            if join.callbacks == s.join.callbacks + [BatchJoin.Completed] then s.roots + [totalHash] else s.roots)
  }

  ghost function Play(executors: set<string>, events: seq<Event>): (s: State)
    decreases |events|
  {
    if events == [] then Start(executors) else Apply(Play(executors, events[..|events| - 1]), events[|events| - 1])
  }

  ghost predicate Legal(executors: set<string>, events: seq<Event>)
    decreases |events|
  {
    events == []
    || (Legal(executors, events[..|events| - 1])
        && BatchJoin.Enabled(Play(executors, events[..|events| - 1]).join, JoinEvent(events[|events| - 1])))
  }

  // ----- the exclusive or of a set of hashes -----

  ghost function Xor(answers: map<string, Reply>, names: set<string>): (r: Hash)
    decreases |names|
  {
    if names == {} then Zero() else
      var name :| name in names;
      Mix(Part(answers, name), Xor(answers, names - {name}))
  }

  /** A failed executor contributes nothing. */
  function Part(answers: map<string, Reply>, name: string): (r: Hash) {
    if name in answers && answers[name].Hashed? then answers[name].hash else Zero()
  }

  lemma Swap(a: Hash, b: Hash, c: Hash)
    ensures Mix(a, Mix(b, c)) == Mix(b, Mix(a, c))
  {}

  /** It does not matter which hash is taken first. */
  lemma {:induction false} XorAny(answers: map<string, Reply>, names: set<string>, name: string)
    requires name in names
    ensures Xor(answers, names) == Mix(Part(answers, name), Xor(answers, names - {name}))
    decreases |names|
  {
    hide Mix;
    var first :| first in names && Xor(answers, names) == Mix(Part(answers, first), Xor(answers, names - {first}));
    if first != name {
      XorAny(answers, names - {first}, name);
      XorAny(answers, names - {name}, first);
      assert names - {first} - {name} == names - {name} - {first};
      Swap(Part(answers, first), Part(answers, name), Xor(answers, names - {name} - {first}));
    }
  }

  lemma {:induction false} XorFrame(answers: map<string, Reply>, names: set<string>, name: string, reply: Reply)
    requires name !in names
    ensures Xor(answers[name := reply], names) == Xor(answers, names)
    decreases |names|
  {
    hide Mix;
    if names != {} {
      var first :| first in names;
      XorAny(answers, names, first);
      XorAny(answers[name := reply], names, first);
      XorFrame(answers, names - {first}, name, reply);
    }
  }

  /** The executors whose hash has this bit. */
  ghost function WithBit(answers: map<string, Reply>, names: set<string>, i: int): (r: set<string>)
    requires 0 <= i < 256
  {
    set name | name in names && name in answers && answers[name].Hashed? && answers[name].hash[i]
  }

  /** A bit of the exclusive or is set if an odd number of executors have it. */
  lemma {:induction false} XorIsParity(answers: map<string, Reply>, names: set<string>, i: int)
    requires 0 <= i < 256
    ensures Xor(answers, names)[i] <==> |WithBit(answers, names, i)| % 2 == 1
    decreases |names|
  {
    if names == {} {
      assert WithBit(answers, names, i) == {};
    } else {
      hide Xor, Mix, WithBit, Part;
      var name :| name in names;
      XorAny(answers, names, name);
      XorIsParity(answers, names - {name}, i);
      MixBit(Part(answers, name), Xor(answers, names - {name}), i);
      WithBitOf(answers, names, name, i);
    }
  }

  lemma MixBit(a: Hash, b: Hash, i: int)
    requires 0 <= i < 256
    ensures Mix(a, b)[i] <==> a[i] != b[i]
  {}

  lemma WithBitOf(answers: map<string, Reply>, names: set<string>, name: string, i: int)
    requires 0 <= i < 256 && name in names
    ensures |WithBit(answers, names, i)|
            == |WithBit(answers, names - {name}, i)| + if Part(answers, name)[i] then 1 else 0
  {
    var rest := WithBit(answers, names - {name}, i);
    if Part(answers, name)[i] {
      assert WithBit(answers, names, i) == rest + {name};
    } else {
      assert WithBit(answers, names, i) == rest;
    }
  }

  /** The hash h has the bits that an odd number of executors have. */
  ghost predicate IsParity(h: Hash, answers: map<string, Reply>, names: set<string>) {
    forall i :: 0 <= i < 256 ==> (h[i] <==> |WithBit(answers, names, i)| % 2 == 1)
  }

  // ----- runs -----

  ghost function Counted(replies: map<string, Reply>): (r: map<string, bool>) {
    map name | name in replies :: replies[name].Hashed?
  }

  ghost predicate AllHashed(replies: map<string, Reply>) {
    forall name :: name in replies ==> replies[name].Hashed?
  }

  ghost predicate Inv(s: State) {
    && BatchJoin.Inv(s.join) && s.join.answers == Counted(s.replies)
    && s.totalHash == Xor(s.replies, s.replies.Keys)
    && s.roots == if s.join.callbacks == [BatchJoin.Completed] then [Xor(s.replies, s.join.parties)] else []
  }

  lemma XorOneMore(answers: map<string, Reply>, name: string, reply: Reply)
    requires name !in answers
    ensures var now := answers[name := reply];
            Xor(now, now.Keys) == Mix(Part(now, name), Xor(answers, answers.Keys))
  {
    hide Mix;
    var now := answers[name := reply];
    XorAny(now, now.Keys, name);
    assert now.Keys - {name} == answers.Keys;
    XorFrame(answers, answers.Keys, name, reply);
  }

  lemma XorCommutes(a: Hash, b: Hash)
    ensures Mix(a, b) == Mix(b, a) && Mix(a, Zero()) == a
  {}

  /** The hash so far after one more answer. */
  lemma TotalStep(s: State, name: string, reply: Reply)
    requires s.totalHash == Xor(s.replies, s.replies.Keys) && name !in s.replies
    ensures var s' := Apply(s, Answer(name, reply)); s'.totalHash == Xor(s'.replies, s'.replies.Keys)
  {
    hide Mix, Xor;
    XorOneMore(s.replies, name, reply);
    XorCommutes(s.totalHash, Part(s.replies[name := reply], name));
  }

  lemma AnswerKeeps(s: State, name: string, reply: Reply)
    requires Inv(s) && BatchJoin.Enabled(s.join, JoinEvent(Answer(name, reply)))
    ensures Inv(Apply(s, Answer(name, reply)))
  {
    CountedStep(s.replies, name, reply);
    hide Mix, Xor, Counted, BatchJoin.Inv, BatchJoin.Apply;
    BatchJoin.AnswerReports(s.join, name, reply.Hashed?);
    TotalStep(s, name, reply);
    var s' := Apply(s, Answer(name, reply));
    assert s.join.callbacks + [BatchJoin.Completed] == [BatchJoin.Completed];
    assert s'.replies.Keys == s'.join.answers.Keys;
  }

  lemma CountedStep(replies: map<string, Reply>, name: string, reply: Reply)
    ensures Counted(replies[name := reply]) == Counted(replies)[name := reply.Hashed?]
    ensures Counted(replies).Keys == replies.Keys && Counted(replies[name := reply]).Keys == replies.Keys + {name}
  {
    hide Mix;
  }

  lemma StopKeeps(s: State)
    requires Inv(s)
    ensures Inv(Apply(s, Stop))
  {}

  lemma {:induction false} RunKeeps(executors: set<string>, events: seq<Event>)
    requires Legal(executors, events)
    ensures Inv(Play(executors, events)) && Play(executors, events).join.parties == executors
    decreases |events|
  {
    if events == [] {
      NothingCounted(executors);
      assert Counted(map[]) == map[];
    } else {
      hide Inv, Mix;
      RunKeeps(executors, events[..|events| - 1]);
      var s := Play(executors, events[..|events| - 1]);
      match events[|events| - 1]
      case Answer(name, reply) => AnswerKeeps(s, name, reply);
      case Stop => StopKeeps(s);
    }
  }

  lemma SomeFailedIs(replies: map<string, Reply>)
    ensures SomeFailed(Counted(replies)) <==> !AllHashed(replies)
  {
    if !AllHashed(replies) {
      var name :| name in replies && !replies[name].Hashed?;
      assert name in Counted(replies) && !Counted(replies)[name];
    }
  }

  /** The callback runs when the last executor has answered, once, and never before; with no
      executors it never runs. Unless the block was stopped it reports an error if any executor
      failed, and otherwise the exclusive or of all hashes, the hash with the bits that an odd
      number of executors have, whatever the order of the answers. */
  lemma HashesAreGathered(executors: set<string>, events: seq<Event>)
    requires Legal(executors, events)
    ensures var s := Play(executors, events);
            && |s.join.callbacks| <= 1
            && (|s.join.callbacks| == 1 <==> executors != {} && s.replies.Keys == executors)
            && (s.join.running && |s.join.callbacks| == 1 ==>
                  if AllHashed(s.replies) then
                    && s.join.callbacks == [BatchJoin.Completed]
                    && |s.roots| == 1 && IsParity(s.roots[0], s.replies, executors)
                  else s.join.callbacks == [BatchJoin.BatchError] && s.roots == [])
  {
    hide Xor, Tallies, WithBit;
    RunKeeps(executors, events);
    var s := Play(executors, events);
    SomeFailedIs(s.replies);
    forall i | 0 <= i < 256 ensures Xor(s.replies, executors)[i] <==> |WithBit(s.replies, executors, i)| % 2 == 1 {
      XorIsParity(s.replies, executors, i);
    }
    assert s.join.answers.Keys == s.replies.Keys;
  }

  /** Two runs in which the executors give the same answers agree on the root. */
  lemma RootIsDeterministic(executors: set<string>, events: seq<Event>, events': seq<Event>)
    requires Legal(executors, events) && Legal(executors, events')
    requires var s, t := Play(executors, events), Play(executors, events');
             s.replies == t.replies && s.join.running && t.join.running
    ensures Play(executors, events).join.callbacks == Play(executors, events').join.callbacks
    ensures Play(executors, events).roots == Play(executors, events').roots
  {
    hide Xor, Tallies, SomeFailed;
    RunKeeps(executors, events);
    RunKeeps(executors, events');
  }
}
