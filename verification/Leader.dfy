/** Leader election through a lease on one key of a linearizable store, and the scheduler
    terms derived from the revisions of the store. */
module Leader {
  import opened Options

  /** The leader key at a revision; the value carries the member's ID and its configuration. */
  datatype Key = Absent | Present(member: string, config: string, lease: int, mod: int)

  /** What a member believes about the leader. */
  datatype Belief = Belief(member: string, lease: int, sequence: int)

  datatype Election = Election(member: string, lease: int, sequence: int)

  datatype State = State(
    history: seq<Key>,                    // the key after each revision of the store, the last one is now
    owners: map<int, string>, live: set<int>,
    beliefs: map<string, Belief>,         // absent: no known leader
    won: map<string, Belief>,             // the answer to a won campaign, not yet installed as leader
    drafts: map<string, int>,             // the lease a member has read in order to update its value
    seen: map<string, nat>,               // how much of the history a watcher has been told
    elections: seq<Election>)

  function Now(s: State): (k: Key)
    requires s.history != []
  {
    s.history[|s.history| - 1]
  }

  /** The modification revision the next write will get. */
  function NextRevision(s: State): (r: int) {
    |s.history|
  }

  function Write(s: State, k: Key): (r: State) {
    s.(history := s.history + [k])
  }

  function Believe(s: State, member: string, k: Key): (r: State) {
    s.(beliefs := match k
                  case Absent => s.beliefs - {member}
                  case Present(leader, _, lease, mod) => s.beliefs[member := Belief(leader, lease, mod)])
  }

  datatype Event =
    | Grant(member: string, lease: int)
    | Campaign(member: string, config: string, lease: int)
    | Install(member: string)
    | Draft(member: string)
    | UpdateSelf(member: string, config: string)
    | Expire(lease: int)
    | OtherKey
    | Fetch(member: string)
    | Watch(member: string)

  function Seen(s: State, member: string): (r: nat) {
    if member in s.seen then s.seen[member] else 0
  }

  predicate Enabled(s: State, ev: Event) {
    match ev
    case Grant(_, lease) => lease !in s.owners
    case Campaign(member, _, lease) => lease in s.owners && s.owners[lease] == member
    case Install(member) => member in s.won
    case Draft(member) => member in s.beliefs && s.beliefs[member].member == member
    case UpdateSelf(member, _) => member in s.drafts
    case Expire(lease) => lease in s.live
    case OtherKey => true
    case Fetch(_) => true
    case Watch(member) => Seen(s, member) + 1 < |s.history|
  }

  /** The transaction of campaignLeader: put the key with this lease if it does not exist. What
      the member believed when it asked for the lease may be out of date by now. */
  function DoCampaign(s: State, member: string, config: string, lease: int): (r: State)
    requires s.history != []
  {
    if Now(s).Absent? && lease in s.live then
      var revision := NextRevision(s);
      Write(s, Present(member, config, lease, revision))
        .(won := s.won[member := Belief(member, lease, revision)],
          elections := s.elections + [Election(member, lease, revision)])
    else s
  }

  /** The transaction of updateSelfConfig: rewrite the key if the lease read before is still
      attached. */
  function DoUpdateSelf(s: State, member: string, config: string): (r: State)
    requires s.history != []
  {
    if member in s.drafts && Now(s).Present? && Now(s).lease == s.drafts[member]
    then Write(s, Present(member, config, s.drafts[member], NextRevision(s)))
    else s
  }

  function DoExpire(s: State, lease: int): (r: State)
    requires s.history != []
  {
    var s1 := s.(live := s.live - {lease});
    if Now(s).Present? && Now(s).lease == lease then Write(s1, Absent) else s1
  }

  /** What the next revision tells a watcher: nothing, if it belongs to another key. */
  function Told(s: State, member: string): (r: State)
    requires Seen(s, member) + 1 < |s.history|
  {
    var n := Seen(s, member);
    if s.history[n + 1] == s.history[n] then s else Believe(s, member, s.history[n + 1])
  }

  function Apply(s: State, ev: Event): (r: State)
    requires s.history != []
    ensures r.history != []
  {
    match ev
    case Grant(member, lease) => s.(owners := s.owners[lease := member], live := s.live + {lease})
    case Campaign(member, config, lease) => DoCampaign(s, member, config, lease)
    case Install(member) =>
      if member in s.won then s.(beliefs := s.beliefs[member := s.won[member]], won := s.won - {member}) else s
    case Draft(member) =>
      if member in s.beliefs then s.(drafts := s.drafts[member := s.beliefs[member].lease]) else s
    case UpdateSelf(member, config) => DoUpdateSelf(s, member, config)
    case Expire(lease) => DoExpire(s, lease)
    case OtherKey => Write(s, Now(s))
    case Fetch(member) => Believe(s, member, Now(s))
    case Watch(member) =>
      if Seen(s, member) + 1 < |s.history| then
        Told(s, member).(seen := s.seen[member := Seen(s, member) + 1])
      else s
  }

  const START := State([Absent], map[], {}, map[], map[], map[], map[], [])

  function Play(events: seq<Event>): (s: State)
    ensures s.history != []
    decreases |events|
  {
    if events == [] then START else Apply(Play(events[..|events| - 1]), events[|events| - 1])
  }

  predicate Legal(events: seq<Event>)
    decreases |events|
  {
    events == [] || (Legal(events[..|events| - 1]) && Enabled(Play(events[..|events| - 1]), events[|events| - 1]))
  }

  // ----- the invariant -----

  /** Whoever the key names owns the lease attached to it, at every revision. */
  ghost predicate HistoryOk(history: seq<Key>, owners: map<int, string>) {
    forall r :: 0 <= r < |history| && history[r].Present? ==> WrittenBy(history, r, owners)
  }

  ghost predicate WrittenBy(history: seq<Key>, r: int, owners: map<int, string>)
    requires 0 <= r < |history| && history[r].Present?
  {
    && 0 <= history[r].mod <= r && history[history[r].mod] == history[r]
    && history[r].lease in owners && owners[history[r].lease] == history[r].member
  }

  lemma HistoryGrows(history: seq<Key>, owners: map<int, string>, k: Key)
    requires HistoryOk(history, owners)
    requires k.Present? ==> k.lease in owners && owners[k.lease] == k.member
    requires k.Present? ==> k.mod == |history| || (history != [] && k == history[|history| - 1])
    ensures HistoryOk(history + [k], owners)
  {
    var history' := history + [k];
    forall r | 0 <= r < |history'| && history'[r].Present? ensures WrittenBy(history', r, owners) {
      if r < |history| {
        assert WrittenBy(history, r, owners);
      } else if k.mod != |history| {
        assert WrittenBy(history, |history| - 1, owners);
      }
    }
  }

  /** The key named this member and lease at this revision. */
  ghost predicate Held(history: seq<Key>, member: string, lease: int, revision: int) {
    0 <= revision < |history| && history[revision].Present?
    && history[revision].member == member && history[revision].lease == lease
  }

  /** Every belief was once true. */
  ghost predicate BeliefsOk(history: seq<Key>, beliefs: map<string, Belief>) {
    forall m :: m in beliefs ==> Held(history, beliefs[m].member, beliefs[m].lease, beliefs[m].sequence)
  }

  /** The key was released between two revisions. */
  ghost predicate ReleasedBetween(history: seq<Key>, from: int, to: int) {
    exists r :: from < r < to && 0 <= r < |history| && history[r].Absent?
  }

  /** Some election was won with this lease. */
  ghost predicate Elected(elections: seq<Election>, lease: int) {
    exists i :: 0 <= i < |elections| && elections[i].lease == lease
  }

  ghost predicate ElectionsOk(history: seq<Key>, elections: seq<Election>) {
    && (forall i :: 0 <= i < |elections| ==>
          Held(history, elections[i].member, elections[i].lease, elections[i].sequence))
    && (forall i, j :: 0 <= i < j < |elections| ==>
          ReleasedBetween(history, elections[i].sequence, elections[j].sequence))
    && (forall r :: 0 <= r < |history| && history[r].Present? ==> Elected(elections, history[r].lease))
  }

  /** Only the last election can have a live lease, and then the key is attached to it. */
  ghost predicate LeasesOk(now: Key, live: set<int>, elections: seq<Election>) {
    && (forall i :: 0 <= i < |elections| && elections[i].lease in live ==>
          i == |elections| - 1 && now.Present? && now.lease == elections[i].lease)
    && (now.Present? ==> elections != [] && now.lease == elections[|elections| - 1].lease && now.lease in live)
  }

  /** A draft holds a lease of the member that made it. */
  ghost predicate DraftsOk(drafts: map<string, int>, owners: map<int, string>) {
    forall m :: m in drafts ==> drafts[m] in owners && owners[drafts[m]] == m
  }

  ghost predicate Inv(s: State) {
    && s.history != [] && HistoryOk(s.history, s.owners) && BeliefsOk(s.history, s.beliefs)
    && BeliefsOk(s.history, s.won) && DraftsOk(s.drafts, s.owners)
    && ElectionsOk(s.history, s.elections) && LeasesOk(Now(s), s.live, s.elections)
    && forall lease :: lease in s.live ==> lease in s.owners
  }

  lemma BelieveKeeps(s: State, member: string, r: int)
    requires Inv(s) && 0 <= r < |s.history|
    ensures Inv(Believe(s, member, s.history[r]))
  {
    hide ElectionsOk, LeasesOk;
    if s.history[r].Present? {
      assert WrittenBy(s.history, r, s.owners);
    }
  }

  /** What one more revision does to the past: nothing. */
  lemma OneMoreRevision(s: State, k: Key)
    requires BeliefsOk(s.history, s.beliefs) && BeliefsOk(s.history, s.won) && ElectionsOk(s.history, s.elections)
    requires k.Present? ==> Elected(s.elections, k.lease)
    ensures BeliefsOk(s.history + [k], s.beliefs) && BeliefsOk(s.history + [k], s.won)
    ensures ElectionsOk(s.history + [k], s.elections)
  {
    var history' := s.history + [k];
    forall i, j | 0 <= i < j < |s.elections|
      ensures ReleasedBetween(history', s.elections[i].sequence, s.elections[j].sequence)
    {
      assert ReleasedBetween(s.history, s.elections[i].sequence, s.elections[j].sequence);
      var r :| s.elections[i].sequence < r < s.elections[j].sequence && 0 <= r < |s.history| && s.history[r].Absent?;
      assert history'[r].Absent?;
    }
  }

  lemma GrantKeeps(s: State, member: string, lease: int)
    requires Inv(s) && lease !in s.owners
    ensures Inv(Apply(s, Grant(member, lease)))
  {
    hide BeliefsOk;
    forall i | 0 <= i < |s.elections| ensures s.elections[i].lease in s.owners {
      assert Held(s.history, s.elections[i].member, s.elections[i].lease, s.elections[i].sequence);
    }
  }

  lemma ExpireKeeps(s: State, lease: int)
    requires Inv(s) && lease in s.live
    ensures Inv(Apply(s, Expire(lease)))
  {
    hide BeliefsOk, ElectionsOk, HistoryOk;
    OneMoreRevision(s, Absent);
    HistoryGrows(s.history, s.owners, Absent);
  }

  lemma UpdateSelfKeeps(s: State, member: string, config: string)
    requires Inv(s)
    ensures Inv(Apply(s, UpdateSelf(member, config)))
  {
    var s' := Apply(s, UpdateSelf(member, config));
    if s' != s {
      assert Elected(s.elections, Now(s).lease);
      hide ElectionsOk, BeliefsOk, HistoryOk;
      OneMoreRevision(s, Now(s'));
      HistoryGrows(s.history, s.owners, Now(s'));
    }
  }

  lemma NowIsElected(s: State)
    requires Inv(s) && Now(s).Present?
    ensures Elected(s.elections, Now(s).lease) && Now(s).lease in s.owners && s.owners[Now(s).lease] == Now(s).member
  {
    hide BeliefsOk, Held;
    assert WrittenBy(s.history, |s.history| - 1, s.owners);
  }

  lemma OtherKeyKeeps(s: State)
    requires Inv(s)
    ensures Inv(Apply(s, OtherKey))
  {
    if Now(s).Present? { NowIsElected(s); }
    hide ElectionsOk, BeliefsOk, HistoryOk, Elected, LeasesOk;
    OneMoreRevision(s, Now(s));
    HistoryGrows(s.history, s.owners, Now(s));
  }

  lemma InstallKeeps(s: State, member: string)
    requires Inv(s)
    ensures Inv(Apply(s, Install(member)))
  {
    hide ElectionsOk, LeasesOk, HistoryOk, Held;
  }

  lemma DraftKeeps(s: State, member: string)
    requires Inv(s) && member in s.beliefs && s.beliefs[member].member == member
    ensures Inv(Apply(s, Draft(member)))
  {
    hide ElectionsOk, LeasesOk;
    assert Held(s.history, member, s.beliefs[member].lease, s.beliefs[member].sequence);
  }

  /** A won election: the key was absent, so every earlier election lies before a release. */
  lemma WonElection(s: State, member: string, config: string, lease: int)
    requires Inv(s) && Now(s).Absent?
    ensures var k, e := Present(member, config, lease, NextRevision(s)), Election(member, lease, NextRevision(s));
            ElectionsOk(s.history + [k], s.elections + [e])
  {
    hide BeliefsOk, HistoryOk, LeasesOk;
    var k, e := Present(member, config, lease, NextRevision(s)), Election(member, lease, NextRevision(s));
    var history', elections' := s.history + [k], s.elections + [e];
    forall i, j | 0 <= i < j < |elections'|
      ensures ReleasedBetween(history', elections'[i].sequence, elections'[j].sequence)
    {
      if j < |s.elections| {
        var r :| s.elections[i].sequence < r < s.elections[j].sequence && 0 <= r < |s.history| && s.history[r].Absent?;
        assert history'[r].Absent?;
      } else {
        assert Held(s.history, s.elections[i].member, s.elections[i].lease, s.elections[i].sequence);
        assert history'[NextRevision(s) - 1].Absent?;
      }
    }
    forall r | 0 <= r < |history'| && history'[r].Present? ensures Elected(elections', history'[r].lease) {
      if r < |s.history| {
        assert Elected(s.elections, s.history[r].lease);
        var i :| 0 <= i < |s.elections| && s.elections[i].lease == s.history[r].lease;
        assert elections'[i].lease == history'[r].lease;
      } else {
        assert elections'[|s.elections|].lease == lease;
      }
    }
  }

  lemma WonBelief(s: State, member: string, config: string, lease: int)
    requires BeliefsOk(s.history, s.beliefs) && BeliefsOk(s.history, s.won)
    ensures var history' := s.history + [Present(member, config, lease, NextRevision(s))];
            && BeliefsOk(history', s.beliefs)
            && BeliefsOk(history', s.won[member := Belief(member, lease, NextRevision(s))])
  {}

  lemma CampaignKeeps(s: State, member: string, config: string, lease: int)
    requires Inv(s) && lease in s.owners && s.owners[lease] == member
    ensures Inv(Apply(s, Campaign(member, config, lease)))
  {
    hide ElectionsOk, BeliefsOk, HistoryOk;
    if Now(s).Absent? && lease in s.live {
      WonElection(s, member, config, lease);
      WonBelief(s, member, config, lease);
      HistoryGrows(s.history, s.owners, Present(member, config, lease, NextRevision(s)));
    }
  }

  lemma StartHolds()
    ensures Inv(START)
  {}

  lemma WatchKeeps(s: State, member: string)
    requires Inv(s) && Seen(s, member) + 1 < |s.history|
    ensures Inv(Apply(s, Watch(member)))
  {
    hide Inv, Believe;
    BelieveKeeps(s, member, Seen(s, member) + 1);
    SeenKeeps(Told(s, member), s.seen[member := Seen(s, member) + 1]);
  }

  lemma StepKeeps(s: State, ev: Event)
    requires Inv(s) && Enabled(s, ev)
    ensures Inv(Apply(s, ev))
  {
    match ev
    case Grant(member, lease) => GrantKeeps(s, member, lease);
    case Campaign(member, config, lease) => CampaignKeeps(s, member, config, lease);
    case Install(member) => InstallKeeps(s, member);
    case Draft(member) => DraftKeeps(s, member);
    case UpdateSelf(member, config) => UpdateSelfKeeps(s, member, config);
    case Expire(lease) => ExpireKeeps(s, lease);
    case OtherKey => OtherKeyKeeps(s);
    case Fetch(member) => BelieveKeeps(s, member, |s.history| - 1);
    case Watch(member) => WatchKeeps(s, member);
  }

  lemma {:induction false} RunKeeps(events: seq<Event>)
    requires Legal(events)
    ensures Inv(Play(events))
    decreases |events|
  {
    hide Inv, Apply, Enabled;
    if events == [] {
      StartHolds();
    } else {
      RunKeeps(events[..|events| - 1]);
      StepKeeps(Play(events[..|events| - 1]), events[|events| - 1]);
    }
  }

  lemma SeenKeeps(s: State, seen: map<string, nat>)
    requires Inv(s)
    ensures Inv(s.(seen := seen))
  {
    hide ElectionsOk, LeasesOk, BeliefsOk, HistoryOk;
  }

  /** Between two successful campaigns the key was released; the later one has the larger
      sequence and only the last one can still have its lease. */
  lemma ElectionsAreSeparated(events: seq<Event>, i: nat, j: nat)
    requires Legal(events) && i < j < |Play(events).elections|
    ensures var s := Play(events);
            && s.elections[i].sequence < s.elections[j].sequence
            && ReleasedBetween(s.history, s.elections[i].sequence, s.elections[j].sequence)
            && s.elections[i].lease !in s.live
  {
    RunKeeps(events);
    var s := Play(events);
    assert ReleasedBetween(s.history, s.elections[i].sequence, s.elections[j].sequence);
  }

  /** The key always names the owner of a live lease: the winner of the last election. */
  lemma KeyNamesTheLeader(events: seq<Event>)
    requires Legal(events) && Now(Play(events)).Present?
    ensures var s := Play(events);
            && Now(s).lease in s.live && Now(s).lease in s.owners && s.owners[Now(s).lease] == Now(s).member
            && s.elections != [] && s.elections[|s.elections| - 1].member == Now(s).member
            && s.elections[|s.elections| - 1].lease == Now(s).lease
  {
    RunKeeps(events);
  }

  /** A member that believes in a leader whose lease is live believes in the present leader,
      however old its information is. */
  lemma LiveBeliefIsTrue(events: seq<Event>, m: string)
    requires Legal(events)
    requires var s := Play(events); m in s.beliefs && s.beliefs[m].lease in s.live
    ensures var s := Play(events);
            Now(s).Present? && Now(s).lease == s.beliefs[m].lease && Now(s).member == s.beliefs[m].member
  {
    RunKeeps(events);
    var s := Play(events);
    assert Held(s.history, s.beliefs[m].member, s.beliefs[m].lease, s.beliefs[m].sequence);
    assert Elected(s.elections, s.beliefs[m].lease);
  }

  // ----- what every event of a run brings about -----

  lemma LastStep(events: seq<Event>, ev: Event)
    ensures Play(events + [ev]) == Apply(Play(events), ev)
    ensures Legal(events + [ev]) <==> Legal(events) && Enabled(Play(events), ev)
  {
    assert (events + [ev])[..|events|] == events;
  }

  /** One key was written and the earlier revisions are as they were. */
  ghost predicate Writes(s: State, s': State, k: Key) {
    |s'.history| == |s.history| + 1 && s'.history[|s.history|] == k
    && forall r :: 0 <= r < |s.history| ==> s'.history[r] == s.history[r]
  }

  /** Two maps agree but for one member. */
  ghost predicate SameButFor<T>(m: map<string, T>, m': map<string, T>, member: string) {
    forall x :: x != member ==> (x in m' <==> x in m) && (x in m ==> m'[x] == m[x])
  }

  /** A campaign succeeds exactly when the key is absent and its lease is alive: then the key
      carries the member, its configuration and its lease, with the revision of this write, one
      election is recorded, and the member has its answer. Otherwise nothing changes. */
  ghost predicate Campaigned(s: State, s': State, member: string, config: string, lease: int)
    requires s.history != []
  {
    var revision := |s.history|;
    if s.history[revision - 1].Absent? && lease in s.live then
      && Writes(s, s', Present(member, config, lease, revision))
      && |s'.elections| == |s.elections| + 1 && s'.elections[|s.elections|] == Election(member, lease, revision)
      && (forall i :: 0 <= i < |s.elections| ==> s'.elections[i] == s.elections[i])
      && member in s'.won && s'.won[member] == Belief(member, lease, revision)
      && SameButFor(s.won, s'.won, member)
      && s' == s.(history := s'.history, elections := s'.elections, won := s'.won)
    else s' == s
  }

  lemma CampaignOutcome(events: seq<Event>, member: string, config: string, lease: int)
    requires Legal(events + [Campaign(member, config, lease)])
    ensures var s, s' := Play(events), Play(events + [Campaign(member, config, lease)]);
            lease in s.owners && s.owners[lease] == member && Campaigned(s, s', member, config, lease)
  {
    hide Play, Legal;
    LastStep(events, Campaign(member, config, lease));
  }

  /** The answer to a won campaign makes its winner believe in itself, with the lease and the
      revision it won with. */
  lemma InstallOutcome(events: seq<Event>, member: string)
    requires Legal(events + [Install(member)])
    ensures var s, s' := Play(events), Play(events + [Install(member)]);
            && member in s.won && member !in s'.won && member in s'.beliefs && s'.beliefs[member] == s.won[member]
            && SameButFor(s.won, s'.won, member) && SameButFor(s.beliefs, s'.beliefs, member)
            && s' == s.(beliefs := s'.beliefs, won := s'.won)
  {
    hide Play, Legal;
    LastStep(events, Install(member));
  }

  /** A member that believes it leads reads the lease it believes it leads with. */
  lemma DraftOutcome(events: seq<Event>, member: string)
    requires Legal(events + [Draft(member)])
    ensures var s, s' := Play(events), Play(events + [Draft(member)]);
            && member in s.beliefs && s.beliefs[member].member == member
            && member in s'.drafts && s'.drafts[member] == s.beliefs[member].lease
            && SameButFor(s.drafts, s'.drafts, member) && s' == s.(drafts := s'.drafts)
  {
    hide Play, Legal;
    LastStep(events, Draft(member));
  }

  /** A member whose drafted lease is still attached to the key is the leader: it replaces its
      configuration, under the same lease and with a new revision, and no election takes place.
      Otherwise nothing changes. */
  lemma UpdateSelfOutcome(events: seq<Event>, member: string, config: string)
    requires Legal(events + [UpdateSelf(member, config)])
    ensures var s, s' := Play(events), Play(events + [UpdateSelf(member, config)]);
            && member in s.drafts
            && if Now(s).Present? && Now(s).lease == s.drafts[member] then
                 && Now(s).member == member && s' == s.(history := s'.history)
                 && Writes(s, s', Present(member, config, Now(s).lease, |s.history|))
               else s' == s
  {
    hide Play, Legal, Inv;
    LastStep(events, UpdateSelf(member, config));
    RunKeeps(events);
    DraftIsOwn(Play(events), member);
  }

  lemma DraftIsOwn(s: State, member: string)
    requires Inv(s)
    ensures s.history != []
    ensures member in s.drafts && Now(s).Present? && Now(s).lease == s.drafts[member] ==> Now(s).member == member
  {
    hide ElectionsOk, LeasesOk, BeliefsOk;
    if Now(s).Present? { assert WrittenBy(s.history, |s.history| - 1, s.owners); }
  }

  /** The end of a lease removes the key that is attached to it, and no other. */
  lemma ExpireOutcome(events: seq<Event>, lease: int)
    requires Legal(events + [Expire(lease)])
    ensures var s, s' := Play(events), Play(events + [Expire(lease)]);
            && lease !in s'.live && (forall l :: l != lease ==> (l in s'.live <==> l in s.live))
            && s' == s.(history := s'.history, live := s'.live)
            && if Now(s).Present? && Now(s).lease == lease then Writes(s, s', Absent) else s'.history == s.history
  {
    hide Play, Legal;
    LastStep(events, Expire(lease));
  }

  /** A write to another key of the store repeats the leader key at one more revision. */
  lemma OtherKeyOutcome(events: seq<Event>)
    requires Legal(events + [OtherKey])
    ensures var s, s' := Play(events), Play(events + [OtherKey]);
            Writes(s, s', Now(s)) && s' == s.(history := s'.history)
  {
    hide Play, Legal;
    LastStep(events, OtherKey);
  }

  /** A granted lease is new, alive and belongs to the member that asked. */
  lemma GrantOutcome(events: seq<Event>, member: string, lease: int)
    requires Legal(events + [Grant(member, lease)])
    ensures var s, s' := Play(events), Play(events + [Grant(member, lease)]);
            && lease !in s.owners && lease in s'.owners && s'.owners[lease] == member && lease in s'.live
            && (forall l :: l != lease ==> (l in s'.live <==> l in s.live) && (l in s'.owners <==> l in s.owners)
                                           && (l in s.owners ==> s'.owners[l] == s.owners[l]))
            && s' == s.(owners := s'.owners, live := s'.live)
  {
    hide Play, Legal;
    LastStep(events, Grant(member, lease));
  }

  /** A member's belief is what a key says. */
  ghost predicate BelievesKey(s: State, m: string, k: Key) {
    && (k.Absent? ==> m !in s.beliefs)
    && (k.Present? ==> m in s.beliefs && s.beliefs[m] == Belief(k.member, k.lease, k.mod))
  }

  /** A watcher is told one revision more: it believes what the key says there if the key
      changed there, and what it believed before otherwise. */
  ghost predicate Watched(s: State, s': State, member: string) {
    var n := Seen(s, member);
    && n + 1 < |s.history| && Seen(s', member) == n + 1
    && SameButFor(s.seen, s'.seen, member) && SameButFor(s.beliefs, s'.beliefs, member)
    && s' == s.(beliefs := s'.beliefs, seen := s'.seen)
    && if s.history[n + 1] != s.history[n] then BelievesKey(s', member, s.history[n + 1]) else s'.beliefs == s.beliefs
  }

  lemma WatchOutcome(events: seq<Event>, member: string)
    requires Legal(events + [Watch(member)])
    ensures Watched(Play(events), Play(events + [Watch(member)]), member)
  {
    hide Play, Legal;
    LastStep(events, Watch(member));
  }

  /** A member that fetches the leader believes what the key says now. */
  lemma FetchOutcome(events: seq<Event>, member: string)
    requires Legal(events + [Fetch(member)])
    ensures var s, s' := Play(events), Play(events + [Fetch(member)]);
            && BelievesKey(s', member, Now(s)) && SameButFor(s.beliefs, s'.beliefs, member)
            && s' == s.(beliefs := s'.beliefs)
  {
    hide Play, Legal;
    LastStep(events, Fetch(member));
  }

  /** The member believes what the key said at the revision it has been told of. */
  ghost predicate Follows(s: State, m: string) {
    Seen(s, m) < |s.history| && BelievesKey(s, m, s.history[Seen(s, m)])
  }

  /** No event rewrites the history. */
  lemma HistoryGrowsOnly(s: State, ev: Event)
    requires s.history != []
    ensures s.history <= Apply(s, ev).history
  {}

  /** What a member believes and has been told changes only with its own events. */
  lemma OthersLeaveAlone(s: State, ev: Event, m: string)
    requires s.history != [] && ev != Install(m) && ev != Fetch(m) && ev != Watch(m)
    ensures var s' := Apply(s, ev);
            Seen(s', m) == Seen(s, m) && (m in s'.beliefs <==> m in s.beliefs)
            && (m in s.beliefs ==> s'.beliefs[m] == s.beliefs[m])
  {
    hide DoCampaign, DoUpdateSelf, DoExpire;
    match ev
    case Campaign(member, config, lease) => StoreLeavesAlone(s, member, config, lease);
    case UpdateSelf(member, config) => StoreLeavesAlone(s, member, config, 0);
    case Expire(lease) => StoreLeavesAlone(s, "", "", lease);
    case _ =>
  }

  lemma StoreLeavesAlone(s: State, member: string, config: string, lease: int)
    requires s.history != []
    ensures var s' := DoCampaign(s, member, config, lease); s'.beliefs == s.beliefs && s'.seen == s.seen
    ensures var s' := DoUpdateSelf(s, member, config); s'.beliefs == s.beliefs && s'.seen == s.seen
    ensures var s' := DoExpire(s, lease); s'.beliefs == s.beliefs && s'.seen == s.seen
  {}

  lemma FollowsOn(s: State, ev: Event, m: string)
    requires s.history != [] && Follows(s, m) && ev != Install(m) && ev != Fetch(m)
    ensures Follows(Apply(s, ev), m)
  {
    if ev != Watch(m) {
      hide Apply;
      HistoryGrowsOnly(s, ev);
      OthersLeaveAlone(s, ev, m);
    }
  }

  /** A member that only watches believes, throughout every run, what the key said at the
      revision it has been told of; when it has been told everything it knows the leader. */
  lemma {:induction false} WatcherFollowsTheKey(events: seq<Event>, m: string)
    requires Legal(events) && Install(m) !in events && Fetch(m) !in events
    ensures var s := Play(events);
            Follows(s, m) && (Seen(s, m) + 1 == |s.history| ==> BelievesKey(s, m, Now(s)))
    decreases |events|
  {
    hide Apply, Enabled, BelievesKey;
    if events == [] {
      NothingToFollow(m);
    } else {
      var init, ev := events[..|events| - 1], events[|events| - 1];
      assert events == init + [ev];
      assert forall x :: x in init ==> x in events;
      assert ev in events;
      WatcherFollowsTheKey(init, m);
      FollowsOn(Play(init), ev, m);
    }
  }

  lemma NothingToFollow(m: string)
    ensures Follows(START, m)
  {}

  // ----- elections take place -----

  /** After the lease of the leader, if any, has ended the key is absent and a member with a new
      lease is elected. */
  lemma ElectedAfter(s: State, member: string, config: string, lease: int)
    requires s.history != [] && Now(s).Absent? && lease !in s.owners
    ensures var s1 := Apply(s, Grant(member, lease));
            var s2 := Apply(s1, Campaign(member, config, lease));
            && Enabled(s, Grant(member, lease)) && Enabled(s1, Campaign(member, config, lease))
            && Now(s2) == Present(member, config, lease, |s2.history| - 1)
            && s2.elections == s.elections + [Election(member, lease, |s2.history| - 1)]
            && s2.owners == s.owners[lease := member]
  {}

  /** From every state of every run another member can become leader: the present lease, if
      any, ends, and the member campaigns with a new lease. */
  lemma ElectionIsAlwaysPossible(events: seq<Event>, member: string, config: string, lease: int)
      returns (more: seq<Event>)
    requires Legal(events) && lease !in Play(events).owners
    ensures Legal(events + more)
    ensures var s, s' := Play(events), Play(events + more);
            && Now(s') == Present(member, config, lease, |s'.history| - 1)
            && s'.elections == s.elections + [Election(member, lease, |s'.history| - 1)]
            && s'.owners == s.owners[lease := member]
  {
    hide Play, Legal, Apply, Enabled, Inv;
    var g, c := Grant(member, lease), Campaign(member, config, lease);
    var free := KeyCanBeFreed(events);
    ElectedAfter(Play(events + free), member, config, lease);
    LastStep(events + free, g);
    LastStep(events + free + [g], c);
    more := free + [g, c];
    assert events + more == events + free + [g] + [c];
  }

  lemma KeyCanBeFreed(events: seq<Event>) returns (free: seq<Event>)
    requires Legal(events)
    ensures Legal(events + free) && Now(Play(events + free)).Absent?
    ensures var s, s' := Play(events), Play(events + free); s'.owners == s.owners && s'.elections == s.elections
  {
    hide Play, Legal;
    RunKeeps(events);
    var s := Play(events);
    if Now(s).Present? {
      free := [Expire(Now(s).lease)];
      LastStep(events, Expire(Now(s).lease));
    } else {
      free := [];
      assert events + free == events;
    }
  }

  lemma EmptyRun()
    ensures Legal([]) && Play([]) == START
  {}

  /** A run with two elections: the second leader takes over when the lease of the first ends. */
  lemma TwoElections(a: string, b: string, config: string) returns (events: seq<Event>)
    ensures Legal(events)
    ensures exists i, j :: Play(events).elections == [Election(a, 1, i), Election(b, 2, j)]
  {
    hide Play, Legal, Apply;
    EmptyRun();
    var first := ElectionIsAlwaysPossible([], a, config, 1);
    assert [] + first == first;
    var second := ElectionIsAlwaysPossible(first, b, config, 2);
    events := first + second;
  }

  // ----- scheduler terms -----

  const TWO32 := 0x1_0000_0000
  const TWO31 := 0x8000_0000

  /** A value as a 64-bit signed integer. */
  function Int64(x: int): (r: int)
    ensures -TWO31 * TWO32 <= r < TWO31 * TWO32
  {
    var y := x % (TWO32 * TWO32);
    if y < TWO31 * TWO32 then y else y - TWO32 * TWO32
  }

  /** getSchedulerTermID: the sequence of the leader in the upper half, the clock of the switch
      in the lower half. */
  function TermID(schedulerSeq: int, executorSeq: int): (r: int) {
    Int64(Int64(schedulerSeq * TWO32) + executorSeq)
  }

  /** The term ID is exact exactly for the sequences below two to the power 31. */
  lemma TermIsExact(schedulerSeq: int, executorSeq: int)
    requires 0 <= schedulerSeq && 0 <= executorSeq < TWO32
    ensures TermID(schedulerSeq, executorSeq) == schedulerSeq * TWO32 + executorSeq <==> schedulerSeq < TWO31
  {}

  /** Terms of later leaders are larger whatever their clocks say, and terms of the same leader
      grow with the clock. */
  lemma TermsIncrease(seq1: int, clock1: int, seq2: int, clock2: int)
    requires 0 <= seq1 && seq2 < TWO31 && 0 < clock1 < TWO32 && 0 < clock2 < TWO32
    requires seq1 < seq2 || (seq1 == seq2 && clock1 < clock2)
    ensures 0 < TermID(seq1, clock1) < TermID(seq2, clock2)
  {
    TermIsExact(seq1, clock1);
    TermIsExact(seq2, clock2);
  }

  /** The overflow that is logged: the term of a larger sequence is negative. */
  lemma TermOverflows(executorSeq: int)
    requires 0 <= executorSeq < TWO32
    ensures TermID(TWO31, executorSeq) < 0 < TermID(TWO31 - 1, 1)
  {}

  /** Over every run a later leader has the larger term, as long as its sequence is below two to
      the power 31. */
  lemma LaterLeaderHasLargerTerm(events: seq<Event>, i: nat, j: nat, clock1: int, clock2: int)
    requires Legal(events) && i < j < |Play(events).elections| && Play(events).elections[j].sequence < TWO31
    requires 0 < clock1 < TWO32 && 0 < clock2 < TWO32
    ensures var s := Play(events);
            0 < TermID(s.elections[i].sequence, clock1) < TermID(s.elections[j].sequence, clock2)
  {
    ElectionsAreSeparated(events, i, j);
    RunKeeps(events);
    var s := Play(events);
    TermsIncrease(s.elections[i].sequence, clock1, s.elections[j].sequence, clock2);
  }
}
