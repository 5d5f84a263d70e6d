/** asyncCommit with batchBlockCommit and batchBlockRollback: the storage backend and the
    executors answer in any order, the block may be stopped at any time. */
module TwoPhaseCommit {
  import opened FanOut

  datatype Party = Storage | Executor(name: string)

  datatype Kind = PREPARE | COMMIT | ROLLBACK

  datatype Request = Prewrite | To(kind: Kind, party: Party)

  datatype Answer = Done | Error | TermIdError

  datatype Outcome = Success | PrewriteBlockError | PrepareError | CommitError | RollbackError | Stopped

  /** The block being committed: the requests the code is about to issue, has issued, and has
      an answer to; the counters of the three joins; and the calls of the callback. */
  datatype State = State(
    executors: set<string>, running: bool,
    due: set<Request>, asked: set<Request>, answers: map<Request, Answer>,
    prepare: Status, commit: Status, rollback: Status,
    callbacks: seq<Outcome>)

  datatype Event = Issue(req: Request) | Reply(req: Request, answer: Answer) | Stop

  // ----- the callbacks -----

  function Executors(names: set<string>): (r: set<Party>) {
    set name | name in names :: Executor(name)
  }

  /** Self and all executors. */
  function Parties(names: set<string>): (r: set<Party>) {
    {Storage} + Executors(names)
  }

  function Fresh(s: State): (st: Status) {
    Status(1 + |s.executors|, 0, 0)
  }

  function Ask(s: State, kind: Kind, parties: set<Party>): (r: State) {
    s.(due := s.due + set p | p in parties :: To(kind, p))
  }

  function Call(s: State, o: Outcome): (r: State) {
    s.(callbacks := s.callbacks + [o])
  }

  function OnPrewrite(s: State, answer: Answer): (r: State) {
    if answer != Done then Call(s, PrewriteBlockError)
    else Ask(s.(prepare := Fresh(s)), PREPARE, {Storage})
  }

  function StartRollback(s: State): (r: State) {
    Ask(s.(rollback := Fresh(s)), ROLLBACK, Parties(s.executors))
  }

  function StartCommit(s: State): (r: State) {
    Ask(s.(commit := Fresh(s)), COMMIT, {Storage})
  }

  function OnPrepare(s: State, party: Party, answer: Answer): (r: State) {
    var st := Count(s.prepare, answer == Done);
    var s1 := s.(prepare := st);
    if party == Storage then
      if answer != Done then Call(s1, PrepareError) else Ask(s1, PREPARE, Executors(s.executors))
    else if !Reached(st) then s1
    else if st.failed > 0 then StartRollback(s1)
    else StartCommit(s1)
  }

  function OnCommit(s: State, party: Party, answer: Answer): (r: State) {
    if party == Storage then
      if answer != Done then StartRollback(s)
      else Ask(s.(commit := Count(s.commit, true)), COMMIT, Executors(s.executors))
    else
      // the ledger has committed: an executor's error counts as a success
      var st := Count(s.commit, true);
      var s1 := s.(commit := st);
      if !Reached(st) then s1
      else if !s.running then Call(s1, Stopped)
      else if st.failed > 0 then Call(s1, CommitError)
      else Call(s1, Success)
  }

  /** A restarted executor has nothing to roll back. */
  predicate RolledBack(party: Party, answer: Answer) {
    answer == Done || (party != Storage && answer == TermIdError)
  }

  function OnRollback(s: State, party: Party, answer: Answer): (r: State) {
    var st := Count(s.rollback, RolledBack(party, answer));
    var s1 := s.(rollback := st);
    if !Reached(st) then s1
    else if !s.running then Call(s1, Stopped)
    else if st.failed > 0 then Call(s1, RollbackError)
    else Call(s1, CommitError)
  }

  function OnReply(s: State, req: Request, answer: Answer): (r: State) {
    match req
    case Prewrite => OnPrewrite(s, answer)
    case To(PREPARE, party) => OnPrepare(s, party, answer)
    case To(COMMIT, party) => OnCommit(s, party, answer)
    case To(ROLLBACK, party) => OnRollback(s, party, answer)
  }

  // ----- runs -----

  function Start(executors: set<string>): (s: State) {
    State(executors, true, {Prewrite}, {}, map[], Status(0, 0, 0), Status(0, 0, 0), Status(0, 0, 0), [])
  }

  /** Every request is issued once and answered at most once. */
  predicate Enabled(s: State, ev: Event) {
    match ev
    case Issue(req) => req in s.due
    case Reply(req, _) => req in s.asked && req !in s.answers
    case Stop => true
  }

  function Apply(s: State, ev: Event): (r: State) {
    match ev
    case Issue(req) => s.(due := s.due - {req}, asked := s.asked + {req})
    case Reply(req, answer) => OnReply(s.(answers := s.answers[req := answer]), req, answer)
    case Stop => s.(running := false)
  }

  function Play(executors: set<string>, events: seq<Event>): (s: State)
    decreases |events|
  {
    if events == [] then Start(executors) else Apply(Play(executors, events[..|events| - 1]), events[|events| - 1])
  }

  predicate Legal(executors: set<string>, events: seq<Event>)
    decreases |events|
  {
    events == []
    || (Legal(executors, events[..|events| - 1])
        && Enabled(Play(executors, events[..|events| - 1]), events[|events| - 1]))
  }

  // ----- what the answers so far say -----

  ghost predicate Ok(answers: map<Request, Answer>, req: Request) {
    req in answers && answers[req] == Done
  }

  ghost predicate Failed(answers: map<Request, Answer>, req: Request) {
    req in answers && answers[req] != Done
  }

  ghost predicate AllAnswered(names: set<string>, answers: map<Request, Answer>, kind: Kind) {
    forall name :: name in names ==> To(kind, Executor(name)) in answers
  }

  /** Storage and every executor have prepared; with no executor nobody notices. */
  ghost predicate AllPrepared(names: set<string>, answers: map<Request, Answer>) {
    && names != {} && Ok(answers, To(PREPARE, Storage))
    && forall name :: name in names ==> Ok(answers, To(PREPARE, Executor(name)))
  }

  /** All have answered and some executor has not prepared. */
  ghost predicate PrepareFailed(names: set<string>, answers: map<Request, Answer>) {
    && Ok(answers, To(PREPARE, Storage)) && AllAnswered(names, answers, PREPARE)
    && exists name :: name in names && Failed(answers, To(PREPARE, Executor(name)))
  }

  ghost predicate NeedsRollback(names: set<string>, answers: map<Request, Answer>) {
    PrepareFailed(names, answers) || Failed(answers, To(COMMIT, Storage))
  }

  /** Has this request been issued or is it about to be? */
  ghost predicate Wanted(names: set<string>, answers: map<Request, Answer>, req: Request) {
    match req
    case Prewrite => true
    case To(PREPARE, Storage) => Ok(answers, Prewrite)
    case To(PREPARE, Executor(name)) => name in names && Ok(answers, To(PREPARE, Storage))
    case To(COMMIT, Storage) => AllPrepared(names, answers)
    case To(COMMIT, Executor(name)) => name in names && Ok(answers, To(COMMIT, Storage))
    case To(ROLLBACK, Storage) => NeedsRollback(names, answers)
    case To(ROLLBACK, Executor(name)) => name in names && NeedsRollback(names, answers)
  }

  ghost predicate CommitJoined(names: set<string>, answers: map<Request, Answer>) {
    names != {} && Ok(answers, To(COMMIT, Storage)) && AllAnswered(names, answers, COMMIT)
  }

  ghost predicate RollbackJoined(names: set<string>, answers: map<Request, Answer>) {
    To(ROLLBACK, Storage) in answers && AllAnswered(names, answers, ROLLBACK)
  }

  /** The storage answered with any error, or an executor with one that is not about its term. */
  ghost predicate RollbackFailed(names: set<string>, answers: map<Request, Answer>) {
    || (To(ROLLBACK, Storage) in answers && answers[To(ROLLBACK, Storage)] in {Error, TermIdError})
    || exists name :: name in names && To(ROLLBACK, Executor(name)) in answers
                      && answers[To(ROLLBACK, Executor(name))] == Error
  }

  /** What the answers decide, when they decide anything. */
  ghost function Verdict(names: set<string>, answers: map<Request, Answer>): (r: seq<Outcome>) {
    if Failed(answers, Prewrite) then [PrewriteBlockError]
    else if Failed(answers, To(PREPARE, Storage)) then [PrepareError]
    else if CommitJoined(names, answers) then [Success]
    else if RollbackJoined(names, answers)
        then (if RollbackFailed(names, answers) then [RollbackError] else [CommitError])
    else []
  }

  // ----- the invariant -----

  /** The answers to one kind of request, as its join counts them. */
  ghost function Counted(names: set<string>, answers: map<Request, Answer>, kind: Kind): (r: map<Party, bool>) {
    map p | p in Parties(names) && To(kind, p) in answers :: Good(kind, p, answers[To(kind, p)])
  }

  ghost predicate RequestsOk(names: set<string>, due: set<Request>, asked: set<Request>,
                             answers: map<Request, Answer>)
  {
    && due !! asked && answers.Keys <= asked
    && forall req :: req in due || req in asked <==> Wanted(names, answers, req)
  }

  ghost predicate JoinsOk(s: State) {
    && (Ok(s.answers, Prewrite) ==> Tallies(s.prepare, Parties(s.executors), Counted(s.executors, s.answers, PREPARE)))
    && (AllPrepared(s.executors, s.answers) && !Failed(s.answers, To(COMMIT, Storage)) ==>
          Tallies(s.commit, Parties(s.executors), Counted(s.executors, s.answers, COMMIT)))
    && (NeedsRollback(s.executors, s.answers) ==>
          Tallies(s.rollback, Parties(s.executors), Counted(s.executors, s.answers, ROLLBACK)))
  }

  /** The callback has had its verdict, or the block was stopped before a join gave it. */
  ghost predicate CallbacksOk(s: State) {
    || s.callbacks == Verdict(s.executors, s.answers)
    || (!s.running && s.callbacks == [Stopped]
        && Verdict(s.executors, s.answers) in {[Success], [CommitError], [RollbackError]})
  }

  ghost predicate Inv(s: State) {
    RequestsOk(s.executors, s.due, s.asked, s.answers) && JoinsOk(s) && CallbacksOk(s)
  }

  lemma PartiesCount(names: set<string>)
    ensures |Parties(names)| == 1 + |names|
    ensures forall name :: Executor(name) in Parties(names) <==> name in names
  {
    ExecutorsCount(names);
    assert Storage !in Executors(names);
  }

  lemma {:induction false} ExecutorsCount(names: set<string>)
    ensures |Executors(names)| == |names|
  {
    if names == {} {
      assert Executors(names) == {};
    } else {
      var name :| name in names;
      ExecutorsCount(names - {name});
      assert Executors(names) == Executors(names - {name}) + {Executor(name)};
    }
  }

  lemma StartHolds(executors: set<string>)
    ensures Inv(Start(executors))
  {}

  lemma IssueKeeps(s: State, req: Request)
    requires Inv(s) && req in s.due
    ensures Inv(Apply(s, Issue(req)))
  {}

  lemma StopKeeps(s: State)
    requires Inv(s)
    ensures Inv(Apply(s, Stop))
  {}

  ghost function Good(kind: Kind, p: Party, answer: Answer): (r: bool) {
    match kind
    case PREPARE => answer == Done
    case COMMIT => true
    case ROLLBACK => RolledBack(p, answer)
  }

  lemma CountedStep(names: set<string>, answers: map<Request, Answer>, kind: Kind, p: Party, answer: Answer)
    requires p in Parties(names)
    ensures Counted(names, answers[To(kind, p) := answer], kind)
            == Counted(names, answers, kind)[p := Good(kind, p, answer)]
  {
    hide Parties, Good;
    var c, c' := Counted(names, answers, kind), Counted(names, answers[To(kind, p) := answer], kind);
    assert forall q :: q in c' <==> q in c || q == p;
    assert forall q :: q in c' ==> c'[q] == c[p := Good(kind, p, answer)][q];
  }

  lemma CountedOther(names: set<string>, answers: map<Request, Answer>, req: Request, answer: Answer, kind: Kind)
    requires req.Prewrite? || req.kind != kind
    ensures Counted(names, answers[req := answer], kind) == Counted(names, answers, kind)
  {
    hide Parties, Good;
    var c, c' := Counted(names, answers, kind), Counted(names, answers[req := answer], kind);
    assert forall q :: q in c' <==> q in c;
    assert forall q :: q in c' ==> c'[q] == c[q];
  }

  /** One more answer, as the join sees it. */
  lemma JoinStep(st: Status, names: set<string>, answers: map<Request, Answer>, kind: Kind, p: Party, answer: Answer)
    requires Tallies(st, Parties(names), Counted(names, answers, kind)) && p in Parties(names)
             && To(kind, p) !in answers
    ensures var now, st' := answers[To(kind, p) := answer], Count(st, Good(kind, p, answer));
            && Tallies(st', Parties(names), Counted(names, now, kind))
            && (Reached(st') <==> To(kind, Storage) in now && AllAnswered(names, now, kind))
            && (st'.failed > 0 <==> SomeFailed(Counted(names, now, kind)))
  {
    hide Tallies, SomeFailed, Count, Reached;
    var now := answers[To(kind, p) := answer];
    CountedStep(names, answers, kind, p, answer);
    CountTallies(st, Parties(names), Counted(names, answers, kind), p, Good(kind, p, answer));
    EveryoneAnswered(names, now, kind);
  }

  lemma EveryoneAnswered(names: set<string>, answers: map<Request, Answer>, kind: Kind)
    ensures Counted(names, answers, kind).Keys == Parties(names)
            <==> To(kind, Storage) in answers && AllAnswered(names, answers, kind)
  {
    PartiesCount(names);
    if To(kind, Storage) in answers && AllAnswered(names, answers, kind) {
      assert forall p :: p in Parties(names) ==> p in Counted(names, answers, kind).Keys;
    }
    if Counted(names, answers, kind).Keys == Parties(names) {
      assert Storage in Counted(names, answers, kind).Keys;
      forall name | name in names ensures To(kind, Executor(name)) in answers {
        assert Executor(name) in Counted(names, answers, kind).Keys;
      }
    }
  }

  lemma NoneYet(names: set<string>, answers: map<Request, Answer>, kind: Kind)
    requires forall p :: p in Parties(names) ==> To(kind, p) !in answers
    ensures Tallies(Status(1 + |names|, 0, 0), Parties(names), Counted(names, answers, kind))
  {
    PartiesCount(names);
    NothingCounted(Parties(names));
    assert Counted(names, answers, kind) == map[];
  }

  lemma PrewriteKeeps(s: State, answer: Answer)
    requires Inv(s) && Prewrite in s.asked && Prewrite !in s.answers
    ensures Inv(Apply(s, Reply(Prewrite, answer)))
  {
    hide Tallies, Counted, Parties;
    assert s.answers == map[];
    NoneYet(s.executors, s.answers[Prewrite := answer], PREPARE);
  }

  lemma PrepareStorageKeeps(s: State, answer: Answer)
    requires Inv(s) && To(PREPARE, Storage) in s.asked && To(PREPARE, Storage) !in s.answers
    ensures Inv(Apply(s, Reply(To(PREPARE, Storage), answer)))
  {
    hide Tallies, Counted, SomeFailed, Reached;
    forall req | req in s.answers ensures req == Prewrite { assert Wanted(s.executors, s.answers, req); }
    JoinStep(s.prepare, s.executors, s.answers, PREPARE, Storage, answer);
  }

  /** Nothing has been asked beyond the prepare phase. */
  lemma OnlyPrepares(s: State, name: string)
    requires RequestsOk(s.executors, s.due, s.asked, s.answers) && name in s.executors
             && To(PREPARE, Executor(name)) !in s.answers
    ensures forall req :: req in s.due || req in s.asked ==> req.Prewrite? || req.kind == PREPARE
    ensures forall req :: req in s.answers ==> req.Prewrite? || req.kind == PREPARE
  {
    forall req | req in s.due || req in s.asked ensures req.Prewrite? || req.kind == PREPARE {
      assert Wanted(s.executors, s.answers, req);
      assert !AllPrepared(s.executors, s.answers);
      assert !Wanted(s.executors, s.answers, To(COMMIT, Storage));
    }
  }

  /** What the prepare join learns from its failure count. */
  lemma PrepareVerdict(names: set<string>, answers: map<Request, Answer>)
    requires names != {} && Ok(answers, To(PREPARE, Storage))
    ensures AllAnswered(names, answers, PREPARE) ==>
              && (SomeFailed(Counted(names, answers, PREPARE)) <==> PrepareFailed(names, answers))
              && (!PrepareFailed(names, answers) <==> AllPrepared(names, answers))
    ensures !AllAnswered(names, answers, PREPARE) ==> !PrepareFailed(names, answers) && !AllPrepared(names, answers)
  {
    var c := Counted(names, answers, PREPARE);
    if SomeFailed(c) {
      var p :| p in c && !c[p];
    }
    if PrepareFailed(names, answers) {
      var name :| name in names && Failed(answers, To(PREPARE, Executor(name)));
      assert Executor(name) in c && !c[Executor(name)];
    }
  }

  /** An executor's answer to prepare leads where the answers say. */
  lemma PrepareExecutorLeads(s: State, name: string, answer: Answer)
    requires var req := To(PREPARE, Executor(name)); Inv(s) && req in s.asked && req !in s.answers
    ensures var req := To(PREPARE, Executor(name));
            var now, s1 := s.answers[req := answer],
                s.(answers := s.answers[req := answer], prepare := Count(s.prepare, answer == Done));
            && name in s.executors && Ok(s.answers, To(PREPARE, Storage)) && s.callbacks == []
            && Tallies(s1.prepare, Parties(s.executors), Counted(s.executors, now, PREPARE))
            && !(AllPrepared(s.executors, now) && NeedsRollback(s.executors, now))
            && Apply(s, Reply(req, answer)) == if AllPrepared(s.executors, now) then StartCommit(s1)
                                               else if NeedsRollback(s.executors, now) then StartRollback(s1) else s1
  {
    hide Tallies, Counted, SomeFailed, Reached, AllPrepared, PrepareFailed, AllAnswered, StartCommit, StartRollback;
    var req := To(PREPARE, Executor(name));
    assert Wanted(s.executors, s.answers, req);
    OnlyPrepares(s, name);
    JoinStep(s.prepare, s.executors, s.answers, PREPARE, Executor(name), answer);
    PrepareVerdict(s.executors, s.answers[req := answer]);
  }

  lemma PrepareExecutorKeeps(s: State, name: string, answer: Answer)
    requires var req := To(PREPARE, Executor(name)); Inv(s) && req in s.asked && req !in s.answers
    ensures Inv(Apply(s, Reply(To(PREPARE, Executor(name)), answer)))
  {
    hide Tallies, Counted, AllPrepared, PrepareFailed, AllAnswered, Apply, RequestsOk;
    var req := To(PREPARE, Executor(name));
    PrepareExecutorLeads(s, name, answer);
    OnlyPrepares(s, name);
    NoneYet(s.executors, s.answers[req := answer], COMMIT);
    NoneYet(s.executors, s.answers[req := answer], ROLLBACK);
    assert s.callbacks == Verdict(s.executors, s.answers[req := answer]);
    PrepareExecutorAsks(s, name, answer);
  }

  lemma PrepareExecutorAsks(s: State, name: string, answer: Answer)
    requires var req := To(PREPARE, Executor(name)); Inv(s) && req in s.asked && req !in s.answers
    ensures var s' := Apply(s, Reply(To(PREPARE, Executor(name)), answer));
            RequestsOk(s'.executors, s'.due, s'.asked, s'.answers)
  {
    hide JoinsOk, Tallies, Counted, AllPrepared, PrepareFailed, AllAnswered, Apply, CallbacksOk;
    PrepareExecutorLeads(s, name, answer);
    OnlyPrepares(s, name);
  }

  /** Once storage is asked to commit, the prepare phase is over and well. */
  lemma OnceAllPrepared(names: set<string>, answers: map<Request, Answer>, req: Request, answer: Answer)
    requires AllPrepared(names, answers) && req !in answers && Ok(answers, Prewrite)
    ensures var now := answers[req := answer];
            && AllPrepared(names, now) && !PrepareFailed(names, now) && !PrepareFailed(names, answers)
            && Ok(now, Prewrite) && Ok(now, To(PREPARE, Storage))
  {}

  /** When storage is asked to commit, nothing beyond the prepare phase has been answered. */
  lemma CommitIsNext(s: State, answer: Answer)
    requires Inv(s) && To(COMMIT, Storage) in s.asked && To(COMMIT, Storage) !in s.answers
    ensures var now := s.answers[To(COMMIT, Storage) := answer];
            && AllPrepared(s.executors, s.answers) && AllPrepared(s.executors, now) && s.executors != {}
            && !PrepareFailed(s.executors, now) && !PrepareFailed(s.executors, s.answers)
            && Ok(now, Prewrite) && Ok(now, To(PREPARE, Storage)) && Ok(s.answers, Prewrite)
            && (forall r :: r in s.answers ==> r.Prewrite? || r.kind == PREPARE) && s.callbacks == []
  {
    hide JoinsOk, AllPrepared, PrepareFailed;
    assert Wanted(s.executors, s.answers, To(COMMIT, Storage));
    StorageHasPrepared(s);
    OnceAllPrepared(s.executors, s.answers, To(COMMIT, Storage), answer);
    forall r | r in s.answers ensures r.Prewrite? || r.kind == PREPARE { assert Wanted(s.executors, s.answers, r); }
  }

  lemma CommitStorageAsks(s: State, answer: Answer)
    requires Inv(s) && To(COMMIT, Storage) in s.asked && To(COMMIT, Storage) !in s.answers
    ensures var s' := Apply(s, Reply(To(COMMIT, Storage), answer));
            RequestsOk(s'.executors, s'.due, s'.asked, s'.answers)
  {
    CommitIsNext(s, answer);
    hide JoinsOk, CallbacksOk, AllPrepared, PrepareFailed, Ok, Failed, Wanted, RequestsOk;
    var next := if answer == Done then set p | p in Executors(s.executors) :: To(COMMIT, p)
                else set p | p in Parties(s.executors) :: To(ROLLBACK, p);
    forall req ensures Wanted(s.executors, s.answers[To(COMMIT, Storage) := answer], req) <==>
      Wanted(s.executors, s.answers, req) || req in next {
      WantedAfterCommit(s.executors, s.answers, answer, req);
    }
    forall req | req in next ensures !Wanted(s.executors, s.answers, req) { NotWantedYet(s.executors, s.answers, req); }
    RequestsGrow(s, To(COMMIT, Storage), answer, next);
    assert Apply(s, Reply(To(COMMIT, Storage), answer)).due == s.due + next;
  }

  /** An answer that calls for some new requests, which are then due. */
  lemma RequestsGrow(s: State, req: Request, answer: Answer, next: set<Request>)
    requires RequestsOk(s.executors, s.due, s.asked, s.answers) && req in s.asked
    requires forall r :: Wanted(s.executors, s.answers[req := answer], r) <==>
               Wanted(s.executors, s.answers, r) || r in next
    requires forall r :: r in next ==> !Wanted(s.executors, s.answers, r)
    ensures RequestsOk(s.executors, s.due + next, s.asked, s.answers[req := answer])
  {
    hide Wanted;
  }

  lemma NotWantedYet(names: set<string>, answers: map<Request, Answer>, req: Request)
    requires forall r :: r in answers ==> r.Prewrite? || r.kind == PREPARE
    requires !PrepareFailed(names, answers) && req.To?
             && (req.kind == ROLLBACK || (req.kind == COMMIT && req.party != Storage))
    ensures !Wanted(names, answers, req)
  {
    hide AllPrepared, PrepareFailed;
  }

  /** What the answer of storage to commit calls for. */
  lemma WantedAfterCommit(names: set<string>, answers: map<Request, Answer>, answer: Answer, req: Request)
    requires To(COMMIT, Storage) !in answers && !PrepareFailed(names, answers)
    requires AllPrepared(names, answers) && AllPrepared(names, answers[To(COMMIT, Storage) := answer])
    requires !PrepareFailed(names, answers[To(COMMIT, Storage) := answer])
    ensures Wanted(names, answers[To(COMMIT, Storage) := answer], req) <==>
            || Wanted(names, answers, req)
            || req in if answer == Done then set p | p in Executors(names) :: To(COMMIT, p)
                      else set p | p in Parties(names) :: To(ROLLBACK, p)
  {
    hide AllPrepared, PrepareFailed;
    PartiesCount(names);
    if req.To? {
      assert req == To(req.kind, req.party);
    }
  }

  lemma CommitStorageKeeps(s: State, answer: Answer)
    requires Inv(s) && To(COMMIT, Storage) in s.asked && To(COMMIT, Storage) !in s.answers
    ensures Inv(Apply(s, Reply(To(COMMIT, Storage), answer)))
  {
    hide Tallies, Counted, AllPrepared, PrepareFailed, SomeFailed, Reached, RequestsOk;
    var req := To(COMMIT, Storage);
    var now := s.answers[req := answer];
    CommitIsNext(s, answer);
    CommitStorageAsks(s, answer);
    CountedOther(s.executors, s.answers, req, answer, PREPARE);
    JoinStep(s.commit, s.executors, s.answers, COMMIT, Storage, answer);
    NoneYet(s.executors, now, ROLLBACK);
    assert s.callbacks == [] == Verdict(s.executors, now);
  }

  lemma StorageHasPrepared(s: State)
    requires RequestsOk(s.executors, s.due, s.asked, s.answers) && AllPrepared(s.executors, s.answers)
    ensures Ok(s.answers, Prewrite) && s.executors != {}
  {
    assert Wanted(s.executors, s.answers, To(PREPARE, Storage));
  }

  lemma CommitExecutorKeeps(s: State, name: string, answer: Answer)
    requires var req := To(COMMIT, Executor(name)); Inv(s) && req in s.asked && req !in s.answers
    ensures Inv(Apply(s, Reply(To(COMMIT, Executor(name)), answer)))
  {
    hide Tallies, Counted, AllPrepared, PrepareFailed, SomeFailed, Reached, AllAnswered;
    var req := To(COMMIT, Executor(name));
    var now := s.answers[req := answer];
    assert Wanted(s.executors, s.answers, req);
    assert Wanted(s.executors, s.answers, To(COMMIT, Storage));
    StorageHasPrepared(s);
    OnceAllPrepared(s.executors, s.answers, req, answer);
    CountedOther(s.executors, s.answers, req, answer, PREPARE);
    JoinStep(s.commit, s.executors, s.answers, COMMIT, Executor(name), answer);
    NoCommitFails(s.executors, now);
    NotYet(s.executors, s.answers, name, COMMIT);
    assert !Wanted(s.executors, s.answers, To(ROLLBACK, Storage));
  }

  lemma NoCommitFails(names: set<string>, answers: map<Request, Answer>)
    ensures !SomeFailed(Counted(names, answers, COMMIT))
  {}

  lemma NotYet(names: set<string>, answers: map<Request, Answer>, name: string, kind: Kind)
    requires name in names && To(kind, Executor(name)) !in answers
    ensures !AllAnswered(names, answers, kind)
  {}

  lemma RollbackKeeps(s: State, p: Party, answer: Answer)
    requires var req := To(ROLLBACK, p); Inv(s) && req in s.asked && req !in s.answers
    ensures Inv(Apply(s, Reply(To(ROLLBACK, p), answer)))
  {
    hide Tallies, Counted, AllPrepared, PrepareFailed, SomeFailed, Reached, AllAnswered;
    var req := To(ROLLBACK, p);
    var now := s.answers[req := answer];
    assert Wanted(s.executors, s.answers, req);
    CountedOther(s.executors, s.answers, req, answer, PREPARE);
    CountedOther(s.executors, s.answers, req, answer, COMMIT);
    JoinStep(s.rollback, s.executors, s.answers, ROLLBACK, p, answer);
    RollbackVerdict(s.executors, now);
    SamePhases(s.executors, s.answers, p, answer);
    RollbackIsNotCommit(s);
    if p.Executor? {
      NotYet(s.executors, s.answers, p.name, ROLLBACK);
    }
    assert Failed(s.answers, Prewrite) ==> !Wanted(s.executors, s.answers, To(PREPARE, Storage));
    assert s.callbacks == [];
  }

  lemma SamePhases(names: set<string>, answers: map<Request, Answer>, p: Party, answer: Answer)
    ensures var now := answers[To(ROLLBACK, p) := answer];
            && (AllPrepared(names, now) <==> AllPrepared(names, answers))
            && (PrepareFailed(names, now) <==> PrepareFailed(names, answers))
            && (forall req :: req != To(ROLLBACK, p) ==>
                  (Ok(now, req) <==> Ok(answers, req)) && (Failed(now, req) <==> Failed(answers, req)))
  {}

  /** Rollback and commit exclude each other. */
  lemma RollbackIsNotCommit(s: State)
    requires RequestsOk(s.executors, s.due, s.asked, s.answers) && NeedsRollback(s.executors, s.answers)
    ensures Ok(s.answers, Prewrite) && Ok(s.answers, To(PREPARE, Storage)) && !Ok(s.answers, To(COMMIT, Storage))
  {
    assert Wanted(s.executors, s.answers, To(COMMIT, Storage)) <==> AllPrepared(s.executors, s.answers);
    assert Wanted(s.executors, s.answers, To(PREPARE, Storage)) <==> Ok(s.answers, Prewrite);
  }

  lemma RollbackVerdict(names: set<string>, answers: map<Request, Answer>)
    ensures SomeFailed(Counted(names, answers, ROLLBACK)) <==> RollbackFailed(names, answers)
  {
    var c := Counted(names, answers, ROLLBACK);
    if SomeFailed(c) {
      var p :| p in c && !c[p];
      if p.Executor? {
        assert p.name in names;
        assert answers[To(ROLLBACK, Executor(p.name))] == Error;
      }
    }
    if To(ROLLBACK, Storage) in answers && answers[To(ROLLBACK, Storage)] in {Error, TermIdError} {
      assert Storage in c && !c[Storage];
    }
    if name :| name in names && To(ROLLBACK, Executor(name)) in answers
               && answers[To(ROLLBACK, Executor(name))] == Error {
      assert Executor(name) in Parties(names);
      assert Executor(name) in c && !c[Executor(name)];
    }
  }

  // ----- theorems over every run -----

  lemma ReplyKeeps(s: State, req: Request, answer: Answer)
    requires Inv(s) && req in s.asked && req !in s.answers
    ensures Inv(Apply(s, Reply(req, answer)))
  {
    hide Inv, Apply;
    match req
    case Prewrite => PrewriteKeeps(s, answer);
    case To(PREPARE, Storage) => PrepareStorageKeeps(s, answer);
    case To(PREPARE, Executor(name)) => PrepareExecutorKeeps(s, name, answer);
    case To(COMMIT, Storage) => CommitStorageKeeps(s, answer);
    case To(COMMIT, Executor(name)) => CommitExecutorKeeps(s, name, answer);
    case To(ROLLBACK, p) => RollbackKeeps(s, p, answer);
  }

  lemma {:induction false} RunKeeps(executors: set<string>, events: seq<Event>)
    requires Legal(executors, events)
    ensures Inv(Play(executors, events)) && Play(executors, events).executors == executors
    decreases |events|
  {
    hide Inv;
    if events == [] {
      StartHolds(executors);
    } else {
      RunKeeps(executors, events[..|events| - 1]);
      var s := Play(executors, events[..|events| - 1]);
      match events[|events| - 1]
      case Issue(req) => IssueKeeps(s, req);
      case Reply(req, answer) => ReplyKeeps(s, req, answer);
      case Stop => StopKeeps(s);
    }
  }

  ghost predicate Requested(s: State, req: Request) {
    req in s.due || req in s.asked
  }

  /** Storage is asked to commit only after it and every executor acknowledged prepare; an
      executor only after storage has committed; and nobody is rolled back once storage has
      committed, or unless an executor failed to prepare or storage failed to commit. */
  lemma CommitNeedsEveryone(executors: set<string>, events: seq<Event>)
    requires Legal(executors, events)
    ensures var s := Play(executors, events);
            && (forall p :: Requested(s, To(COMMIT, p)) ==>
                  && Ok(s.answers, Prewrite) && Ok(s.answers, To(PREPARE, Storage))
                  && forall name :: name in executors ==> Ok(s.answers, To(PREPARE, Executor(name))))
            && (forall name :: Requested(s, To(COMMIT, Executor(name))) ==> Ok(s.answers, To(COMMIT, Storage)))
            && (forall p :: Requested(s, To(ROLLBACK, p)) ==>
                  && !Ok(s.answers, To(COMMIT, Storage)) && (forall name :: !Requested(s, To(COMMIT, Executor(name))))
                  && (|| Failed(s.answers, To(COMMIT, Storage))
                      || exists name :: name in executors && Failed(s.answers, To(PREPARE, Executor(name)))))
  {
    hide JoinsOk, CallbacksOk;
    RunKeeps(executors, events);
    var s := Play(executors, events);
    assert forall req :: Requested(s, req) <==> Wanted(executors, s.answers, req);
    assert Wanted(executors, s.answers, To(PREPARE, Storage)) <==> Ok(s.answers, Prewrite);
    forall p | Requested(s, To(COMMIT, p)) ensures AllPrepared(executors, s.answers) && Ok(s.answers, Prewrite) {
      assert Wanted(executors, s.answers, To(COMMIT, p));
      assert Wanted(executors, s.answers, To(COMMIT, Storage)) <==> AllPrepared(executors, s.answers);
    }
    forall p | Requested(s, To(ROLLBACK, p))
      ensures NeedsRollback(executors, s.answers) && !Ok(s.answers, To(COMMIT, Storage))
    {
      assert Wanted(executors, s.answers, To(ROLLBACK, p));
      RollbackIsNotCommit(s);
    }
  }

  /** The callback runs at most once, and reports success only after storage committed and
      every executor answered. */
  lemma CallbackAtMostOnce(executors: set<string>, events: seq<Event>)
    requires Legal(executors, events)
    ensures var s := Play(executors, events);
            && |s.callbacks| <= 1
            && (s.callbacks == [Success]
                ==> executors != {} && Ok(s.answers, To(COMMIT, Storage)) && AllAnswered(executors, s.answers, COMMIT))
  {
    hide RequestsOk, JoinsOk;
    RunKeeps(executors, events);
  }

  /** Nothing is left to issue and nothing is unanswered. */
  ghost predicate Quiescent(s: State) {
    s.due == {} && s.asked <= s.answers.Keys
  }

  /** When everything has been answered the callback has run exactly once, except that with no
      executor at all a successful prepare is never noticed and the callback never runs. */
  lemma EveryRunCallsBack(executors: set<string>, events: seq<Event>)
    requires Legal(executors, events) && Quiescent(Play(executors, events))
    ensures var s := Play(executors, events);
            |s.callbacks| == 1 <==>
              executors != {} || Failed(s.answers, Prewrite) || Failed(s.answers, To(PREPARE, Storage))
  {
    hide JoinsOk;
    RunKeeps(executors, events);
    var s := Play(executors, events);
    Settles(s);
  }

  lemma Settles(s: State)
    requires RequestsOk(s.executors, s.due, s.asked, s.answers) && Quiescent(s)
    ensures |Verdict(s.executors, s.answers)| == 1 <==>
              s.executors != {} || Failed(s.answers, Prewrite) || Failed(s.answers, To(PREPARE, Storage))
    ensures s.executors != {} && Ok(s.answers, Prewrite) && Ok(s.answers, To(PREPARE, Storage)) ==>
              Verdict(s.executors, s.answers)
              == if Ok(s.answers, To(COMMIT, Storage)) then [Success]
                 else if RollbackFailed(s.executors, s.answers) then [RollbackError] else [CommitError]
  {
    hide RollbackFailed;
    assert forall req :: req in s.answers <==> Wanted(s.executors, s.answers, req);
    assert Wanted(s.executors, s.answers, Prewrite);
    assert To(COMMIT, Storage) in s.answers ==> AllPrepared(s.executors, s.answers);
    assert To(ROLLBACK, Storage) in s.answers ==> NeedsRollback(s.executors, s.answers);
    if s.executors != {} && Ok(s.answers, Prewrite) && Ok(s.answers, To(PREPARE, Storage)) {
      assert forall name :: name in s.executors ==> Wanted(s.executors, s.answers, To(PREPARE, Executor(name)));
      PrepareVerdict(s.executors, s.answers);
      assert To(COMMIT, Storage) in s.answers <==> AllPrepared(s.executors, s.answers);
      if Ok(s.answers, To(COMMIT, Storage)) {
        assert forall name :: name in s.executors ==> Wanted(s.executors, s.answers, To(COMMIT, Executor(name)));
      } else {
        assert NeedsRollback(s.executors, s.answers);
        assert Wanted(s.executors, s.answers, To(ROLLBACK, Storage));
        assert forall name :: name in s.executors ==> Wanted(s.executors, s.answers, To(ROLLBACK, Executor(name)));
      }
    }
  }

  /** The outcome of a complete run that was not stopped: success exactly when storage
      committed, otherwise an error that tells a failed rollback from a clean one. A stop can
      only turn the outcome of a join into Stopped. */
  lemma OutcomeIsExact(executors: set<string>, events: seq<Event>)
    requires Legal(executors, events) && Quiescent(Play(executors, events)) && executors != {}
    ensures var s := Play(executors, events);
            var due := if Failed(s.answers, Prewrite) then PrewriteBlockError
                       else if Failed(s.answers, To(PREPARE, Storage)) then PrepareError
                       else if Ok(s.answers, To(COMMIT, Storage)) then Success
                       else if RollbackFailed(executors, s.answers) then RollbackError
                       else CommitError;
            s.callbacks == [due]
                || (!s.running && due in {Success, RollbackError, CommitError} && s.callbacks == [Stopped])
  {
    hide JoinsOk, RollbackFailed;
    RunKeeps(executors, events);
    var s := Play(executors, events);
    Settles(s);
    assert Wanted(executors, s.answers, Prewrite);
    assert Wanted(executors, s.answers, To(PREPARE, Storage)) <==> Ok(s.answers, Prewrite);
  }

  lemma OneEvent(executors: set<string>, events: seq<Event>, ev: Event)
    requires Legal(executors, events) && Enabled(Play(executors, events), ev)
    ensures Legal(executors, events + [ev]) && Play(executors, events + [ev]) == Apply(Play(executors, events), ev)
  {
    assert (events + [ev])[..|events|] == events;
  }

  /** No executor: once storage has prepared, nothing more happens. */
  lemma NobodyToAsk() returns (events: seq<Event>)
    ensures Legal({}, events) && Quiescent(Play({}, events)) && Play({}, events).callbacks == []
    ensures Ok(Play({}, events).answers, To(PREPARE, Storage))
  {
    events := [];
    OneEvent({}, events, Issue(Prewrite));
    events := events + [Issue(Prewrite)];
    OneEvent({}, events, Reply(Prewrite, Done));
    events := events + [Reply(Prewrite, Done)];
    assert Play({}, events).due == {To(PREPARE, Storage)};
    OneEvent({}, events, Issue(To(PREPARE, Storage)));
    events := events + [Issue(To(PREPARE, Storage))];
    OneEvent({}, events, Reply(To(PREPARE, Storage), Done));
    events := events + [Reply(To(PREPARE, Storage), Done)];
    assert Play({}, events).due == {};
  }

  // ----- runs end -----

  /** The requests issued and the answers given, stops not counted. */
  function Work(events: seq<Event>): (r: nat)
    decreases |events|
  {
    if events == [] then 0 else Work(events[..|events| - 1]) + if events[|events| - 1].Stop? then 0 else 1
  }

  ghost function AllRequests(names: set<string>): (r: set<Request>) {
    {Prewrite} + (set p | p in Parties(names) :: To(PREPARE, p)) + (set p | p in Parties(names) :: To(COMMIT, p))
    + (set p | p in Parties(names) :: To(ROLLBACK, p))
  }

  lemma {:induction false} AsManyRequests(parties: set<Party>, kind: Kind)
    ensures |set p | p in parties :: To(kind, p)| == |parties|
  {
    var requests := set p | p in parties :: To(kind, p);
    if parties == {} {
      assert requests == {};
    } else {
      var p :| p in parties;
      AsManyRequests(parties - {p}, kind);
      assert requests == (set q | q in parties - {p} :: To(kind, q)) + {To(kind, p)};
    }
  }

  lemma AllRequestsCount(names: set<string>)
    ensures |AllRequests(names)| == 4 + 3 * |names|
  {
    PartiesCount(names);
    AsManyRequests(Parties(names), PREPARE);
    AsManyRequests(Parties(names), COMMIT);
    AsManyRequests(Parties(names), ROLLBACK);
    var a := {Prewrite} + set p | p in Parties(names) :: To(PREPARE, p);
    var b := a + set p | p in Parties(names) :: To(COMMIT, p);
    assert Prewrite !in set p | p in Parties(names) :: To(PREPARE, p);
    assert a !! set p | p in Parties(names) :: To(COMMIT, p);
    assert b !! set p | p in Parties(names) :: To(ROLLBACK, p);
  }

  lemma RequestsAreKnown(s: State)
    requires RequestsOk(s.executors, s.due, s.asked, s.answers)
    ensures s.asked <= AllRequests(s.executors)
  {
    PartiesCount(s.executors);
    forall req | req in s.asked ensures req in AllRequests(s.executors) {
      assert Wanted(s.executors, s.answers, req);
      match req
      case Prewrite =>
      case To(kind, party) =>
        assert party in Parties(s.executors);
        assert req in set p | p in Parties(s.executors) :: To(kind, p);
    }
  }

  /** Every event but a stop issues a request or answers one. */
  lemma {:induction false} WorkIsProgress(executors: set<string>, events: seq<Event>)
    requires Legal(executors, events)
    ensures Work(events) == |Play(executors, events).asked| + |Play(executors, events).answers|
    decreases |events|
  {
    if events != [] {
      WorkIsProgress(executors, events[..|events| - 1]);
      RunKeeps(executors, events[..|events| - 1]);
      OneEventMore(Play(executors, events[..|events| - 1]), events[|events| - 1]);
    }
  }

  lemma OneEventMore(s: State, ev: Event)
    requires Inv(s) && Enabled(s, ev)
    ensures |Apply(s, ev).asked| + |Apply(s, ev).answers| == |s.asked| + |s.answers| + if ev.Stop? then 0 else 1
  {
    hide JoinsOk, CallbacksOk, Wanted;
    if ev.Reply? {
      SameRequests(s.(answers := s.answers[ev.req := ev.answer]), ev.req, ev.answer);
    }
  }

  lemma SameRequests(s: State, req: Request, answer: Answer)
    ensures OnReply(s, req, answer).asked == s.asked && OnReply(s, req, answer).answers == s.answers
  {}

  /** The number of requests is bounded, and until all of them are answered there is one to
      issue or to answer: every run that goes on as long as it can comes to rest. */
  lemma RunIsBounded(executors: set<string>, events: seq<Event>)
    requires Legal(executors, events)
    ensures Work(events) <= 2 * (4 + 3 * |executors|)
    ensures Quiescent(Play(executors, events)) || exists ev :: Enabled(Play(executors, events), ev) && !ev.Stop?
  {
    hide JoinsOk, CallbacksOk, Wanted, Work;
    RunKeeps(executors, events);
    WorkIsProgress(executors, events);
    var s := Play(executors, events);
    RequestsAreKnown(s);
    AllRequestsCount(executors);
    SameSize(s.asked, AllRequests(executors));
    SameSize(s.answers.Keys, s.asked);
    assert |s.answers| == |s.answers.Keys|;
    if req :| req in s.due {
      assert Enabled(s, Issue(req));
    } else if req :| req in s.asked && req !in s.answers {
      assert Enabled(s, Reply(req, Done));
    } else {
      assert s.due == {};
    }
  }

  // ----- determinism -----

  /** The answers are those an environment gives. */
  ghost predicate AnswersFrom(env: Request -> Answer, s: State) {
    forall req :: req in s.answers ==> s.answers[req] == env(req)
  }

  lemma SameStage(names: set<string>, env: Request -> Answer, s: State, t: State, kind: Kind)
    requires AnswersFrom(env, s) && AnswersFrom(env, t)
    requires forall req :: req in s.answers <==> Wanted(names, s.answers, req)
    requires forall req :: req in t.answers <==> Wanted(names, t.answers, req)
    requires kind != PREPARE ==> forall p :: To(PREPARE, p) in s.answers <==> To(PREPARE, p) in t.answers
    requires kind == ROLLBACK ==> forall p :: To(COMMIT, p) in s.answers <==> To(COMMIT, p) in t.answers
    ensures forall p :: To(kind, p) in s.answers <==> To(kind, p) in t.answers
  {
    assert Wanted(names, s.answers, Prewrite) && Wanted(names, t.answers, Prewrite);
    if kind == COMMIT {
      assert AllPrepared(names, s.answers) <==> AllPrepared(names, t.answers);
    }
    if kind == ROLLBACK {
      assert AllAnswered(names, s.answers, PREPARE) <==> AllAnswered(names, t.answers, PREPARE);
      assert PrepareFailed(names, s.answers) <==> PrepareFailed(names, t.answers);
    }
    assert To(kind, Storage) in s.answers <==> To(kind, Storage) in t.answers;
    forall p ensures To(kind, p) in s.answers <==> To(kind, p) in t.answers {
      assert To(kind, p) in s.answers <==> Wanted(names, s.answers, To(kind, p));
      assert To(kind, p) in t.answers <==> Wanted(names, t.answers, To(kind, p));
    }
  }

  /** Two complete runs that meet the same parties and are not stopped end with the same
      requests, answers and outcome, whatever the order of the answers. */
  lemma OrderDoesNotMatter(executors: set<string>, env: Request -> Answer, events: seq<Event>, events': seq<Event>)
    requires Legal(executors, events) && Legal(executors, events')
    requires var s, t := Play(executors, events), Play(executors, events');
             Quiescent(s) && Quiescent(t) && s.running && t.running && AnswersFrom(env, s) && AnswersFrom(env, t)
    ensures var s, t := Play(executors, events), Play(executors, events');
            s.answers == t.answers && s.callbacks == t.callbacks
  {
    hide JoinsOk, Verdict, Wanted, Legal, Play;
    RunKeeps(executors, events);
    RunKeeps(executors, events');
    var s, t := Play(executors, events), Play(executors, events');
    assert forall req :: req in s.answers <==> Wanted(executors, s.answers, req);
    assert forall req :: req in t.answers <==> Wanted(executors, t.answers, req);
    SameStage(executors, env, s, t, PREPARE);
    SameStage(executors, env, s, t, COMMIT);
    SameStage(executors, env, s, t, ROLLBACK);
    PrewriteAnswered(executors, s.answers);
    PrewriteAnswered(executors, t.answers);
    forall req ensures req in s.answers <==> req in t.answers {
      match req
      case Prewrite =>
      case To(PREPARE, p) => assert To(PREPARE, p) in s.answers <==> To(PREPARE, p) in t.answers;
      case To(COMMIT, p) => assert To(COMMIT, p) in s.answers <==> To(COMMIT, p) in t.answers;
      case To(ROLLBACK, p) => assert To(ROLLBACK, p) in s.answers <==> To(ROLLBACK, p) in t.answers;
    }
    assert s.answers == t.answers;
  }

  lemma PrewriteAnswered(names: set<string>, answers: map<Request, Answer>)
    ensures Wanted(names, answers, Prewrite)
  {}
}
