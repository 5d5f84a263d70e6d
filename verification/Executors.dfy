/** ExecutorManager: which executor serves which contract. */
module Executors {
  import opened Options
  import opened PriorityQueue

  // ----- the assignment as a value -----

  datatype Assignment = Assignment(executors: set<string>, owner: map<string, string>)

  ghost function ContractsOf(s: Assignment, name: string): (r: set<string>) {
    set c | c in s.owner && s.owner[c] == name
  }

  ghost function Load(s: Assignment, name: string): (r: nat) {
    |ContractsOf(s, name)|
  }

  ghost predicate LeastLoaded(s: Assignment, name: string) {
    name in s.executors && forall other :: other in s.executors ==> Load(s, name) <= Load(s, other)
  }

  /** Every assigned contract belongs to an executor that is present. */
  ghost predicate Served(s: Assignment) {
    forall c :: c in s.owner ==> s.owner[c] in s.executors
  }

  datatype Op = Add(name: string) | Dispatch(contract: string, chosen: string) | Remove(name: string) | Clear

  ghost function Without(s: Assignment, name: string): (r: Assignment) {
    Assignment(s.executors - {name}, map c | c in s.owner && s.owner[c] != name :: s.owner[c])
  }

  /** What the operations may do; dispatch is free to choose among the least loaded. */
  ghost predicate Next(s: Assignment, op: Op, s': Assignment) {
    match op
    case Add(name) => s' == s.(executors := s.executors + {name})
    case Dispatch(contract, chosen) =>
      if s.executors == {} then s' == s
      else if contract in s.owner then s.owner[contract] == chosen && s' == s
      else LeastLoaded(s, chosen) && s' == s.(owner := s.owner[contract := chosen])
    case Remove(name) => s' == if name in s.executors then Without(s, name) else s
    case Clear => s' == Assignment({}, map[])
  }

  // ----- the priority queue -----

  /** The number of contracts of an executor, which its place in the heap depends on. */
  function LoadOf(contracts: map<string, set<string>>): (load: string -> nat) {
    n => if n in contracts then |contracts[n]| else 0
  }

  /** The heap holds each executor once and is in the order of the loads they have now. */
  ghost predicate QueueOk(queue: seq<string>, contracts: map<string, set<string>>) {
    Ordered(queue, LoadOf(contracts)) && multiset(queue) == multiset(contracts.Keys)
  }

  lemma QueueHas(queue: seq<string>, contracts: map<string, set<string>>, n: string)
    requires multiset(queue) == multiset(contracts.Keys)
    ensures n in queue <==> n in contracts
  {
    assert n in queue <==> n in multiset(queue);
  }

  /** An executor that is not in the heap may change its load without disturbing the order. */
  lemma ChangeOutside(queue: seq<string>, contracts: map<string, set<string>>, n: string, mine: set<string>)
    requires Ordered(queue, LoadOf(contracts)) && n !in queue
    ensures Ordered(queue, LoadOf(contracts[n := mine]))
  {
    OrderedFrame(queue, LoadOf(contracts), LoadOf(contracts[n := mine]));
  }

  lemma OneMoreKey(contracts: map<string, set<string>>, n: string, mine: set<string>)
    requires n !in contracts
    ensures multiset(contracts[n := mine].Keys) == multiset(contracts.Keys) + multiset{n}
  {
    assert contracts[n := mine].Keys == contracts.Keys + {n};
  }

  /** What is left in the heap when the top has been popped. */
  lemma AfterPop(queue: seq<string>, rest: seq<string>, contracts: map<string, set<string>>)
    requires queue != [] && multiset(queue) == multiset(contracts.Keys)
    requires multiset(rest) + multiset{queue[0]} == multiset(queue)
    ensures queue[0] in contracts && queue[0] !in rest
  {
    QueueHas(queue, contracts, queue[0]);
    assert multiset(queue)[queue[0]] == 1;
    assert multiset(rest)[queue[0]] == 0;
  }

  // ----- the manager -----

  /** The sets of contracts and the map of contracts agree. */
  ghost predicate Agree(contracts: map<string, set<string>>, owner: map<string, string>) {
    forall n, c :: (n in contracts && c in contracts[n]) <==> (c in owner && owner[c] == n)
  }

  lemma AgreeAdd(contracts: map<string, set<string>>, owner: map<string, string>, n: string)
    requires Agree(contracts, owner) && n !in contracts
    ensures Agree(contracts[n := {}], owner)
  {}

  lemma AgreeRemove(contracts: map<string, set<string>>, owner: map<string, string>, n: string)
    requires Agree(contracts, owner) && n in contracts
    ensures contracts[n] <= owner.Keys && Agree(contracts - {n}, owner - contracts[n])
    ensures Assignment((contracts - {n}).Keys, owner - contracts[n]) == Without(Assignment(contracts.Keys, owner), n)
  {
    var owner' := owner - contracts[n];
    forall c | c in owner ensures c in owner' <==> owner[c] != n {
      assert n in contracts && c in contracts[n] <==> c in owner && owner[c] == n;
    }
  }

  lemma AgreeAssign(contracts: map<string, set<string>>, owner: map<string, string>, n: string, c: string)
    requires Agree(contracts, owner) && n in contracts && c !in owner
    ensures c !in contracts[n] && Agree(contracts[n := contracts[n] + {c}], owner[c := n])
  {
    assert c in contracts[n] ==> c in owner;
    var cs, o := contracts[n := contracts[n] + {c}], owner[c := n];
    forall m, d ensures (m in cs && d in cs[m]) <==> (d in o && o[d] == m) {
      assert m in contracts && d in contracts[m] <==> d in owner && owner[d] == m;
    }
  }

  class ExecutorManager {
    var contracts: map<string, set<string>>            // m_name2Executors: the contracts of each executor
    var contract2ExecutorInfo: map<string, string>
    var queue: seq<string>                             // m_executorPriorityQueue

    ghost predicate Valid()
      reads this
    {
      Agree(contracts, contract2ExecutorInfo) && QueueOk(queue, contracts)
    }

    ghost function View(): (s: Assignment)
      reads this
    {
      Assignment(contracts.Keys, contract2ExecutorInfo)
    }

    lemma Loads(n: string)
      requires Valid() && n in contracts
      ensures ContractsOf(View(), n) == contracts[n] && Load(View(), n) == |contracts[n]|
    {
      assert forall c :: c in ContractsOf(View(), n) <==> c in contracts[n];
    }

    constructor ()
      ensures Valid() && View() == Assignment({}, map[])
    {
      contracts, contract2ExecutorInfo, queue := map[], map[], [];
    }

    /** addExecutor */
    method AddExecutor(name: string)
      requires Valid()
      modifies this
      ensures Valid() && Next(old(View()), Add(name), View())
    {
      if name in contracts {
        assert View().executors == old(View()).executors + {name};
        return;
      }
      hide Agree, LoadOf, Ordered;
      AgreeAdd(contracts, contract2ExecutorInfo, name);
      QueueHas(queue, contracts, name);
      ChangeOutside(queue, contracts, name, {});
      OneMoreKey(contracts, name, {});
      contracts := contracts[name := {}];
      queue := Push(queue, LoadOf(contracts), name);
    }

    /** The top of the heap is least loaded now. */
    method Top() returns (name: string)
      requires Valid() && contracts != map[]
      ensures queue != [] && name == queue[0] && LeastLoaded(View(), name)
    {
      ghost var some :| some in contracts;
      QueueHas(queue, contracts, some);
      name := queue[0];
      QueueHas(queue, contracts, name);
      forall other | other in contracts ensures Load(View(), name) <= Load(View(), other) {
        QueueHas(queue, contracts, other);
        var i :| 0 <= i < |queue| && queue[i] == other;
        TopIsLeast(queue, LoadOf(contracts), i);
        Loads(name);
        Loads(other);
      }
    }

    /** dispatchExecutor. The exception for a contract that is already in the set of the
        executor on top cannot happen. */
    method DispatchExecutor(contract: string) returns (r: Option<string>, inserted: bool)
      requires Valid()
      modifies this
      ensures Valid() && inserted
      ensures r.None? <==> old(View()).executors == {}
      ensures Next(old(View()), Dispatch(contract, if r.Some? then r.value else ""), View())
      ensures r.Some? ==> contract in View().owner && View().owner[contract] == r.value
    {
      if contracts == map[] {
        return None, true;
      }
      if contract in contract2ExecutorInfo {
        return Some(contract2ExecutorInfo[contract]), true;
      }
      hide Agree, LeastLoaded, LoadOf, Ordered;
      var name := Top();
      var rest := Pop(queue, LoadOf(contracts));
      AfterPop(queue, rest, contracts);
      var mine := contracts[name];
      inserted := contract !in mine;
      AgreeAssign(contracts, contract2ExecutorInfo, name, contract);
      ChangeOutside(rest, contracts, name, mine + {contract});
      contracts := contracts[name := mine + {contract}];
      queue := Push(rest, LoadOf(contracts), name);
      contract2ExecutorInfo := contract2ExecutorInfo[contract := name];
      r := Some(name);
      assert contracts.Keys == old(contracts.Keys);
    }

    /** getExecutorInfo */
    method GetExecutorInfo(contract: string) returns (r: Option<string>)
      requires Valid()
      ensures r == (if contract in View().owner then Some(View().owner[contract]) else None)
      ensures r.Some? ==> r.value in View().executors
    {
      if contract !in contract2ExecutorInfo {
        return None;
      }
      return Some(contract2ExecutorInfo[contract]);
    }

    /** removeExecutor; false is the exception for an unknown name. The exception for a
        contract that is not in the contract map cannot happen. */
    method RemoveExecutor(name: string) returns (found: bool)
      requires Valid()
      modifies this
      ensures Valid() && (found <==> name in old(View()).executors) && Next(old(View()), Remove(name), View())
    {
      if name !in contracts {
        return false;
      }
      hide Agree, QueueOk;
      AgreeRemove(contracts, contract2ExecutorInfo, name);
      var rest := contracts[name];
      while rest != {}
        invariant rest <= old(contracts[name])
        invariant unchanged(`contracts)
        invariant contract2ExecutorInfo == old(contract2ExecutorInfo) - (old(contracts[name]) - rest)
      {
        var c :| c in rest;
        assert c in contract2ExecutorInfo;  // the erase removes something
        contract2ExecutorInfo := contract2ExecutorInfo - {c};
        rest := rest - {c};
      }
      contracts := contracts - {name};
      RebuildQueue();
      assert contract2ExecutorInfo == old(contract2ExecutorInfo) - old(contracts[name]);
      return true;
    }

    /** The queue is filled anew from the executors that remain. */
    method RebuildQueue()
      modifies this`queue
      ensures QueueOk(queue, contracts)
    {
      hide LoadOf, Ordered;
      queue := [];
      var done: map<string, set<string>> := map[];
      EmptyQueue();
      while done != contracts
        invariant done.Keys <= contracts.Keys && forall n :: n in done ==> done[n] == contracts[n]
        invariant QueueOk(queue, done)
        decreases |contracts| - |done|
      {
        Missing(done, contracts);
        var n :| n in contracts && n !in done;
        QueueHas(queue, done, n);
        ChangeOutside(queue, done, n, contracts[n]);
        OneMoreKey(done, n, contracts[n]);
        done := done[n := contracts[n]];
        queue := Push(queue, LoadOf(done), n);
        Smaller(done, contracts);
      }
    }

    /** clear */
    method ClearAll()
      modifies this
      ensures Valid() && Next(old(View()), Clear, View())
    {
      contracts, contract2ExecutorInfo, queue := map[], map[], [];
    }
  }

  lemma EmptyQueue()
    ensures QueueOk([], map[])
  {}

  lemma Missing(done: map<string, set<string>>, all: map<string, set<string>>)
    requires done != all && done.Keys <= all.Keys && forall n :: n in done ==> done[n] == all[n]
    ensures exists n :: n in all && n !in done
  {
    assert (forall n :: n in all ==> n in done) ==> done == all;
  }

  lemma Smaller(done: map<string, set<string>>, all: map<string, set<string>>)
    requires done.Keys <= all.Keys
    ensures |done| <= |all|
  {
    assert all.Keys == done.Keys + (all.Keys - done.Keys);
    assert |done| == |done.Keys| && |all| == |all.Keys|;
  }

  // ----- runs -----

  /** The states of a run from an empty manager, one operation apart. */
  ghost predicate IsRun(tr: seq<Assignment>, ops: seq<Op>) {
    && |tr| == |ops| + 1 && tr[0] == Assignment({}, map[])
    && forall i, j :: 0 <= i < |ops| && j == i + 1 ==> Next(tr[i], ops[i], tr[j])
  }

  ghost predicate Balanced(s: Assignment) {
    forall a, b :: a in s.executors && b in s.executors ==> Load(s, a) <= Load(s, b) + 1
  }

  lemma NextKeepsServed(s: Assignment, op: Op, s': Assignment)
    requires Served(s) && Next(s, op, s')
    ensures Served(s')
  {}

  lemma LoadOfOthers(s: Assignment, contract: string, chosen: string, name: string)
    requires contract !in s.owner
    ensures Load(s.(owner := s.owner[contract := chosen]), name) == Load(s, name) + if name == chosen then 1 else 0
  {
    var before, after := ContractsOf(s, name), ContractsOf(s.(owner := s.owner[contract := chosen]), name);
    if name == chosen {
      assert after == before + {contract};
    } else {
      assert after == before;
    }
  }

  lemma DispatchKeepsBalance(s: Assignment, contract: string, chosen: string)
    requires Balanced(s) && contract !in s.owner && LeastLoaded(s, chosen)
    ensures Balanced(s.(owner := s.owner[contract := chosen]))
  {
    hide Load;
    var s' := s.(owner := s.owner[contract := chosen]);
    forall a, b | a in s.executors && b in s.executors ensures Load(s', a) <= Load(s', b) + 1 {
      LoadOfOthers(s, contract, chosen, a);
      LoadOfOthers(s, contract, chosen, b);
    }
  }

  lemma RemoveKeepsBalance(s: Assignment, name: string)
    requires Balanced(s)
    ensures Balanced(Without(s, name))
  {
    forall a | a in s.executors && a != name ensures Load(Without(s, name), a) == Load(s, a) {
      assert ContractsOf(Without(s, name), a) == ContractsOf(s, a);
    }
  }

  /** A newcomer keeps the balance exactly when nobody has more than one contract. */
  lemma AddKeepsBalance(s: Assignment, name: string)
    requires Balanced(s) && Served(s)
    ensures Balanced(s.(executors := s.executors + {name})) <==>
              name in s.executors || forall a :: a in s.executors ==> Load(s, a) <= 1
  {
    var s' := s.(executors := s.executors + {name});
    assert forall a :: ContractsOf(s', a) == ContractsOf(s, a);
    if name !in s.executors {
      assert ContractsOf(s', name) == {};
      if Balanced(s') {
        assert forall a :: a in s.executors ==> Load(s', a) <= Load(s', name) + 1;
      }
    }
  }

  /** An executor joins when it is known already or nobody has more than one contract. */
  ghost predicate FairlyAdded(s: Assignment, op: Op) {
    op.Add? ==> op.name in s.executors || forall a :: a in s.executors ==> Load(s, a) <= 1
  }

  /** Over every run the loads of two executors differ by at most one, as long as executors
      join fairly. */
  lemma {:induction false} RunIsBalanced(tr: seq<Assignment>, ops: seq<Op>, i: nat)
    requires IsRun(tr, ops) && i <= |ops|
    requires forall j :: 0 <= j < i ==> FairlyAdded(tr[j], ops[j])
    ensures Served(tr[i]) && Balanced(tr[i])
  {
    if i > 0 {
      hide Balanced, Load, LeastLoaded;
      RunIsBalanced(tr, ops, i - 1);
      var s, op := tr[i - 1], ops[i - 1];
      assert Next(s, op, tr[i]) && FairlyAdded(s, op);
      NextKeepsServed(s, op, tr[i]);
      match op
      case Add(name) => AddKeepsBalance(s, name);
      case Dispatch(contract, chosen) =>
        if s.executors != {} && contract !in s.owner {
          DispatchKeepsBalance(s, contract, chosen);
        }
      case Remove(name) => RemoveKeepsBalance(s, name);
      case Clear => NobodyIsBalanced();
    }
  }

  lemma NobodyIsBalanced()
    ensures Balanced(Assignment({}, map[]))
  {}

  /** A contract stays with its executor until that executor is removed or all are cleared. */
  lemma {:induction false} OwnerIsSticky(tr: seq<Assignment>, ops: seq<Op>, i: nat, k: nat, contract: string)
    requires IsRun(tr, ops) && i <= k <= |ops| && contract in tr[i].owner
    requires forall j :: i <= j < k ==> !ops[j].Clear? && !(ops[j].Remove? && ops[j].name == tr[i].owner[contract])
    ensures contract in tr[k].owner && tr[k].owner[contract] == tr[i].owner[contract]
    decreases k - i
  {
    if i < k {
      hide LeastLoaded;
      OwnerIsSticky(tr, ops, i, k - 1, contract);
      assert Next(tr[k - 1], ops[k - 1], tr[k]);
    }
  }

  /** Without that condition the balance can fail: an executor that joins late stays idle. */
  lemma LateJoinerIsUnbalanced()
    ensures exists tr: seq<Assignment>, ops: seq<Op> :: IsRun(tr, ops) && !Balanced(tr[|ops|])
  {
    var s1 := Assignment({"a"}, map[]);
    var s2 := Assignment({"a"}, map["x" := "a"]);
    var s3 := Assignment({"a"}, map["x" := "a", "y" := "a"]);
    var s4 := Assignment({"a", "b"}, map["x" := "a", "y" := "a"]);
    var tr := [Assignment({}, map[]), s1, s2, s3, s4];
    var ops := [Add("a"), Dispatch("x", "a"), Dispatch("y", "a"), Add("b")];
    assert IsRun(tr, ops);
    assert ContractsOf(s4, "a") == {"x", "y"} && ContractsOf(s4, "b") == {};
  }
}
