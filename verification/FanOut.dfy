/** CommitStatus: one request to each of several parties, and a continuation that must run
    once, after the last answer. */
module FanOut {
  /** The counters of CommitStatus. */
  datatype Status = Status(total: int, success: int, failed: int)

  function Count(st: Status, ok: bool): (r: Status) {
    if ok then st.(success := st.success + 1) else st.(failed := st.failed + 1)
  }

  predicate Reached(st: Status) {
    !(st.success + st.failed < st.total)
  }

  ghost function Those<T>(answers: map<T, bool>, ok: bool): (r: set<T>) {
    set p | p in answers && answers[p] == ok
  }

  /** The counters count the answers of these parties. */
  ghost predicate Tallies<T>(st: Status, all: set<T>, answers: map<T, bool>) {
    && st.total == |all| && answers.Keys <= all
    && st.success == |Those(answers, true)| && st.failed == |Those(answers, false)|
  }

  ghost predicate SomeFailed<T>(answers: map<T, bool>) {
    exists p :: p in answers && !answers[p]
  }

  lemma NothingCounted<T>(all: set<T>)
    ensures Tallies(Status(|all|, 0, 0), all, map[])
  {
    var none: map<T, bool> := map[];
    assert Those(none, true) == {} && Those(none, false) == {};
  }

  lemma SameSize<T>(a: set<T>, b: set<T>)
    requires a <= b
    ensures |a| <= |b| && (|a| == |b| <==> a == b)
  {
    assert b == a + (b - a);
    if |b - a| == 0 {
      assert a == b;
    }
  }

  lemma OneMoreOfThose<T>(answers: map<T, bool>, p: T, ok: bool, which: bool)
    requires p !in answers
    ensures forall q :: q in Those(answers[p := ok], which) <==> q in Those(answers, which) || (ok == which && q == p)
  {}

  lemma OneMore<T>(answers: map<T, bool>, p: T, ok: bool, which: bool)
    requires p !in answers
    ensures |Those(answers[p := ok], which)| == |Those(answers, which)| + if ok == which then 1 else 0
  {
    var before, after := Those(answers, which), Those(answers[p := ok], which);
    assert p !in before;
    OneMoreOfThose(answers, p, ok, which);
    hide Those;
    if ok == which {
      assert after == before + {p};
    } else {
      assert after == before;
    }
  }

  lemma BothKinds<T>(answers: map<T, bool>)
    ensures |answers.Keys| == |Those(answers, true)| + |Those(answers, false)|
    ensures |Those(answers, false)| > 0 <==> SomeFailed(answers)
  {
    assert answers.Keys == Those(answers, true) + Those(answers, false);
    assert Those(answers, true) !! Those(answers, false);
    if |Those(answers, false)| > 0 {
      assert Those(answers, false) != {};
      var p :| p in Those(answers, false);
    } else {
      assert Those(answers, false) == {};
    }
  }

  /** Counting one more answer reaches the total exactly when it is the last one, and
      something has failed exactly when some answer is an error. */
  lemma CountTallies<T>(st: Status, all: set<T>, answers: map<T, bool>, p: T, ok: bool)
    requires Tallies(st, all, answers) && p in all && p !in answers
    ensures Tallies(Count(st, ok), all, answers[p := ok])
    ensures Reached(Count(st, ok)) <==> answers[p := ok].Keys == all
    ensures Count(st, ok).failed > 0 <==> SomeFailed(answers[p := ok])
  {
    OneMore(answers, p, ok, true);
    OneMore(answers, p, ok, false);
    BothKinds(answers[p := ok]);
    SameSize(answers[p := ok].Keys, all);
  }
}
