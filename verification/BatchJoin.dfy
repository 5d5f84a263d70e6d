/** A whole CommitStatus batch, such as batchNextBlock: one request to each party, answers in
    any order, a stop at any time, and a continuation that reports to the caller. */
module BatchJoin {
  import opened FanOut

  datatype Outcome = Completed | BatchError | Stopped

  datatype State<T> = State(parties: set<T>, running: bool, answers: map<T, bool>, status: Status,
                            callbacks: seq<Outcome>)

  datatype Event<T> = Answer(party: T, ok: bool) | Stop

  ghost function Start<T>(parties: set<T>): (s: State<T>) {
    State(parties, true, map[], Status(|parties|, 0, 0), [])
  }

  /** Each party answers once. */
  ghost predicate Enabled<T>(s: State<T>, ev: Event<T>) {
    ev.Stop? || (ev.party in s.parties && ev.party !in s.answers)
  }

  /** checkAndCommit, on the counters after the last answer. */
  function Report(running: bool, status: Status): (o: Outcome) {
    if !running then Stopped else if status.failed > 0 then BatchError else Completed
  }

  ghost function Apply<T>(s: State<T>, ev: Event<T>): (r: State<T>) {
    match ev
    case Stop => s.(running := false)
    case Answer(party, ok) =>
      var status := Count(s.status, ok);
      s.(answers := s.answers[party := ok], status := status,
         callbacks := if Reached(status) then s.callbacks + [Report(s.running, status)] else s.callbacks)
  }

  ghost function Play<T>(parties: set<T>, events: seq<Event<T>>): (s: State<T>)
    decreases |events|
  {
    if events == [] then Start(parties) else Apply(Play(parties, events[..|events| - 1]), events[|events| - 1])
  }

  ghost predicate Legal<T>(parties: set<T>, events: seq<Event<T>>)
    decreases |events|
  {
    events == []
    || (Legal(parties, events[..|events| - 1]) && Enabled(Play(parties, events[..|events| - 1]), events[|events| - 1]))
  }

  /** What the answers call for; with no party nobody is ever told. */
  ghost function Due<T>(s: State<T>): (r: seq<Outcome>) {
    if s.parties == {} || s.answers.Keys != s.parties then []
    else if SomeFailed(s.answers) then [BatchError]
    else [Completed]
  }

  ghost predicate Inv<T>(s: State<T>) {
    && Tallies(s.status, s.parties, s.answers)
    && (s.callbacks == Due(s) || (!s.running && Due(s) != [] && s.callbacks == [Stopped]))
  }

  lemma AnswerKeeps<T>(s: State<T>, party: T, ok: bool)
    requires Inv(s) && Enabled(s, Answer(party, ok))
    ensures Inv(Apply(s, Answer(party, ok)))
  {
    hide Tallies, SomeFailed, Count, Reached;
    CountTallies(s.status, s.parties, s.answers, party, ok);
  }

  /** Before an answer nothing has been reported; completion means that all have answered. */
  lemma AnswerReports<T>(s: State<T>, party: T, ok: bool)
    requires Inv(s) && Enabled(s, Answer(party, ok))
    ensures var r := Apply(s, Answer(party, ok));
            && s.callbacks == [] && Inv(r) && r.parties == s.parties && r.answers == s.answers[party := ok]
            && (r.callbacks == [Completed] ==> r.answers.Keys == s.parties)
  {
    AnswerKeeps(s, party, ok);
    hide Tallies, SomeFailed, Count, Reached;
  }

  lemma {:induction false} RunKeeps<T>(parties: set<T>, events: seq<Event<T>>)
    requires Legal(parties, events)
    ensures Inv(Play(parties, events)) && Play(parties, events).parties == parties
    decreases |events|
  {
    if events == [] {
      NothingCounted(parties);
    } else {
      RunKeeps(parties, events[..|events| - 1]);
      if events[|events| - 1].Answer? {
        AnswerKeeps(Play(parties, events[..|events| - 1]), events[|events| - 1].party, events[|events| - 1].ok);
      }
    }
  }

  /** The continuation runs once, when the last party has answered, and never before; with no
      party it never runs. It reports an error exactly if some party failed, unless the block
      was stopped before. */
  lemma JoinRunsOnce<T>(parties: set<T>, events: seq<Event<T>>)
    requires Legal(parties, events)
    ensures var s := Play(parties, events);
            && |s.callbacks| <= 1
            && (|s.callbacks| == 1 <==> parties != {} && s.answers.Keys == parties)
            && (|s.callbacks| == 1 ==>
                  s.callbacks[0] == (if SomeFailed(s.answers) then BatchError else Completed)
                  || (!s.running && s.callbacks[0] == Stopped))
  {
    RunKeeps(parties, events);
  }
}
