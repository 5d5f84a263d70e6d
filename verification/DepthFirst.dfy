/** The depth-first visit behind detectDeadLock, on the edge list of the lock graph:
    an explicit stack, three colours, and a terminator that stops descending once a
    back edge has been seen. */
module DepthFirst {
  import Ordering
  import opened Walks

  datatype Color = Gray | Black
  datatype Frame = Frame(u: nat, ei: nat)

  /** boost::adjacency_list: the targets of the out-edges of each vertex. */
  type Adjacency = map<nat, seq<nat>>

  function Out(g: Adjacency, u: nat): (r: seq<nat>) {
    if u in g then g[u] else []
  }

  ghost function AdjacencySteps(g: Adjacency): (r: set<(nat, nat)>)
    ensures forall u: nat, v: nat :: (u, v) in r <==> v in Out(g, u)
  {
    var r := set u, i | u in g && 0 <= i < |g[u]| :: (u, g[u][i]);
    assert forall u: nat, v: nat :: v in Out(g, u) ==> (u, v) in r by {
      forall u: nat, v: nat | v in Out(g, u) ensures (u, v) in r {
        var i :| 0 <= i < |g[u]| && g[u][i] == v;
      }
    }
    r
  }

  ghost function Us(stack: seq<Frame>): (r: seq<nat>)
    ensures |r| == |stack|
  {
    seq(|stack|, i requires 0 <= i < |stack| => stack[i].u)
  }

  /** Every vertex is finished after all its successors. */
  ghost predicate Topological(steps: set<(nat, nat)>, done: seq<nat>) {
    && Ordering.NoDuplicates(done)
    && forall t, v :: 0 <= t < |done| && (done[t], v) in steps ==> v in done[..t]
  }

  lemma {:induction false} Descends(steps: set<(nat, nat)>, done: seq<nat>, p: seq<nat>, t: nat, k: nat)
    requires Topological(steps, done) && Walk(steps, p) && k < |p|
    requires t < |done| && done[t] == p[0]
    ensures p[k] in done[..t + 1] && (k > 0 ==> p[k] in done[..t])
    decreases k
  {
    if k > 0 {
      Descends(steps, done, p, t, k - 1);
      var s :| 0 <= s <= t && done[s] == p[k - 1];
      assert (p[k - 1], p[k]) in steps;
      assert p[k] in done[..s];
      var r :| 0 <= r < s && done[r] == p[k];
      assert done[..t][r] == p[k] && done[..t + 1][r] == p[k];
    } else {
      assert done[..t + 1][t] == p[0];
    }
  }

  lemma TopologicalHasNoCycle(steps: set<(nat, nat)>, done: seq<nat>, root: nat)
    requires Topological(steps, done) && root in done
    ensures !ReachesCycle(steps, root)
  {
    forall p, i | Lasso(steps, root, p, i) ensures false {
      var t :| 0 <= t < |done| && done[t] == root;
      Descends(steps, done, p, t, i);
      var s :| 0 <= s <= t && done[s] == p[i];
      var q := p[i..];
      forall j, k | 0 <= j < |q| - 1 && k == j + 1 ensures (q[j], q[k]) in steps {
        assert (p[i + j], p[i + k]) in steps;
      }
      Descends(steps, done, q, s, |q| - 1);
    }
  }

  /** The gray vertices form a walk from the root, the black ones are the finished ones. */
  ghost predicate OnPath(g: Adjacency, root: nat, colors: map<nat, Color>, path: seq<nat>, done: seq<nat>) {
    && (forall v :: v in colors && colors[v] == Gray <==> v in path)
    && (forall v :: v in colors && colors[v] == Black <==> v in done)
    && (if path == [] then root in done else path[0] == root && Walk(AdjacencySteps(g), path))
    && Ordering.NoDuplicates(path)
  }

  ghost predicate IsNext(stack: seq<Frame>, i: int, v: nat) {
    0 <= i < |stack| - 1 && stack[i + 1].u == v
  }

  /** Each examined successor is finished or is the next vertex of the gray path. */
  ghost predicate Examined(g: Adjacency, stack: seq<Frame>, done: seq<nat>) {
    forall i, j :: 0 <= i < |stack| && 0 <= j < stack[i].ei && j < |Out(g, stack[i].u)| ==>
      Out(g, stack[i].u)[j] in done || IsNext(stack, i, Out(g, stack[i].u)[j])
  }

  /** What the visit has established: a cycle, or an order of what it has finished. */
  ghost predicate Progress(g: Adjacency, root: nat, stack: seq<Frame>, done: seq<nat>, back: bool) {
    if back then ReachesCycle(AdjacencySteps(g), root)
    else Examined(g, stack, done) && Topological(AdjacencySteps(g), done)
  }

  ghost predicate Visiting(g: Adjacency, root: nat, colors: map<nat, Color>, stack: seq<Frame>,
                           done: seq<nat>, back: bool)
  {
    OnPath(g, root, colors, Us(stack), done) && Progress(g, root, stack, done, back)
  }

  lemma BackEdgeClosesCycle(g: Adjacency, root: nat, colors: map<nat, Color>, path: seq<nat>,
                            done: seq<nat>, v: nat)
    requires OnPath(g, root, colors, path, done) && path != []
    requires v in Out(g, path[|path| - 1]) && v in path
    ensures ReachesCycle(AdjacencySteps(g), root)
  {
    var i :| 0 <= i < |path| && path[i] == v;
    var p := path + [v];
    WalkAppend(AdjacencySteps(g), path, v);
    assert Lasso(AdjacencySteps(g), root, p, i);
  }

  lemma FinishColors(colors: map<nat, Color>, path: seq<nat>, u: nat, done: seq<nat>)
    requires forall v :: v in colors && colors[v] == Gray <==> v in path + [u]
    requires forall v :: v in colors && colors[v] == Black <==> v in done
    requires u !in path
    ensures u in colors && u !in done
    ensures forall v :: v in colors[u := Black] && colors[u := Black][v] == Gray <==> v in path
    ensures forall v :: v in colors[u := Black] && colors[u := Black][v] == Black <==> v in done + [u]
  {
    assert forall v :: v in path + [u] <==> v in path || v == u;
    assert u in path + [u];
  }

  lemma ShorterPath(g: Adjacency, root: nat, path: seq<nat>, u: nat)
    requires (path + [u])[0] == root && Walk(AdjacencySteps(g), path + [u])
    ensures if path == [] then root == u else path[0] == root && Walk(AdjacencySteps(g), path)
  {
    hide Walk, AdjacencySteps;
    if path != [] {
      WalkTake(AdjacencySteps(g), path + [u], |path|);
      assert (path + [u])[..|path|] == path;
    }
  }

  lemma LastIsNew(path: seq<nat>, u: nat)
    requires Ordering.NoDuplicates(path + [u])
    ensures u !in path && Ordering.NoDuplicates(path)
  {
    var full := path + [u];
    assert full[|path|] == u && forall i :: 0 <= i < |path| ==> path[i] == full[i];
  }

  lemma FinishPath(g: Adjacency, root: nat, colors: map<nat, Color>, path: seq<nat>, u: nat, done: seq<nat>)
    requires OnPath(g, root, colors, path + [u], done)
    ensures OnPath(g, root, colors[u := Black], path, done + [u])
    ensures u in colors && u !in done
  {
    hide Walk, AdjacencySteps, Ordering.NoDuplicates;
    LastIsNew(path, u);
    FinishColors(colors, path, u, done);
    ShorterPath(g, root, path, u);
  }

  lemma FinishOrder(g: Adjacency, stack: seq<Frame>, top: Frame, done: seq<nat>)
    requires Examined(g, stack + [top], done) && Topological(AdjacencySteps(g), done)
    requires top.ei == |Out(g, top.u)| && top.u !in done
    ensures Examined(g, stack, done + [top.u]) && Topological(AdjacencySteps(g), done + [top.u])
  {
    var full, outs, done' := stack + [top], Out(g, top.u), done + [top.u];
    forall t, v | 0 <= t < |done'| && (done'[t], v) in AdjacencySteps(g) ensures v in done'[..t] {
      if t < |done| {
        assert done'[..t] == done[..t];
      } else {
        assert done'[..t] == done;
        var j :| 0 <= j < |outs| && outs[j] == v;
        assert full[|stack|] == top;
      }
    }
    forall i, j | 0 <= i < |stack| && 0 <= j < stack[i].ei && j < |Out(g, stack[i].u)|
      ensures Out(g, stack[i].u)[j] in done' || IsNext(stack, i, Out(g, stack[i].u)[j])
    {
      assert full[i] == stack[i];
      if IsNext(full, i, Out(g, stack[i].u)[j]) && i + 1 == |stack| {
        assert done'[|done|] == top.u;
      }
    }
  }

  lemma FinishVertex(g: Adjacency, root: nat, colors: map<nat, Color>, stack: seq<Frame>, top: Frame,
                     done: seq<nat>, back: bool)
    requires Visiting(g, root, colors, stack + [top], done, back)
    requires top.ei == |Out(g, top.u)|
    ensures top.u in colors && top.u !in done
    ensures Visiting(g, root, colors[top.u := Black], stack, done + [top.u], back)
  {
    assert Us(stack + [top]) == Us(stack) + [top.u];
    FinishPath(g, root, colors, Us(stack), top.u, done);
    if !back {
      FinishOrder(g, stack, top, done);
    }
  }

  lemma EnterPath(g: Adjacency, root: nat, colors: map<nat, Color>, path: seq<nat>, done: seq<nat>, v: nat)
    requires OnPath(g, root, colors, path, done) && path != []
    requires v !in colors && v in Out(g, path[|path| - 1])
    ensures OnPath(g, root, colors[v := Gray], path + [v], done)
  {
    assert v !in path && v !in done;
    WalkAppend(AdjacencySteps(g), path, v);
  }

  lemma EnterVertex(g: Adjacency, root: nat, colors: map<nat, Color>, stack: seq<Frame>, top: Frame,
                    done: seq<nat>, back: bool, v: nat, ei: nat)
    requires Visiting(g, root, colors, stack + [top], done, back)
    requires v !in colors && top.ei < |Out(g, top.u)| && Out(g, top.u)[top.ei] == v
    requires !back ==> ei == 0
    ensures Visiting(g, root, colors[v := Gray], stack + [Frame(top.u, top.ei + 1)] + [Frame(v, ei)], done, back)
  {
    hide AdjacencySteps, OnPath, Topological, ReachesCycle;
    var full, full' := stack + [top], stack + [Frame(top.u, top.ei + 1)] + [Frame(v, ei)];
    assert Us(full') == Us(full) + [v];
    EnterPath(g, root, colors, Us(full), done, v);
    if !back {
      EnterExamined(g, stack, top, done, v, ei);
    }
  }

  lemma EnterExamined(g: Adjacency, stack: seq<Frame>, top: Frame, done: seq<nat>, v: nat, ei: nat)
    requires Examined(g, stack + [top], done) && ei == 0
    requires top.ei < |Out(g, top.u)| && Out(g, top.u)[top.ei] == v
    ensures Examined(g, stack + [Frame(top.u, top.ei + 1)] + [Frame(v, ei)], done)
  {
    hide Out;
    var full, full' := stack + [top], stack + [Frame(top.u, top.ei + 1)] + [Frame(v, ei)];
    forall i, j | 0 <= i < |full'| && 0 <= j < full'[i].ei && j < |Out(g, full'[i].u)|
      ensures Out(g, full'[i].u)[j] in done || IsNext(full', i, Out(g, full'[i].u)[j])
    {
      assert i <= |stack| && full'[i].u == full[i].u;
      if i < |stack| {
        assert full[i] == full'[i];
        assert full'[i + 1].u == full[i + 1].u;
      }
    }
  }

  lemma AdvanceEdge(g: Adjacency, root: nat, colors: map<nat, Color>, stack: seq<Frame>, top: Frame,
                    done: seq<nat>, back: bool, back': bool)
    requires Visiting(g, root, colors, stack + [top], done, back) && top.ei < |Out(g, top.u)|
    requires var v := Out(g, top.u)[top.ei];
             v in colors && (if colors[v] == Gray then back' else back' == back)
    ensures Visiting(g, root, colors, stack + [Frame(top.u, top.ei + 1)], done, back')
  {
    var full, full' := stack + [top], stack + [Frame(top.u, top.ei + 1)];
    var v := Out(g, top.u)[top.ei];
    assert Us(full') == Us(full);
    if colors[v] == Gray {
      BackEdgeClosesCycle(g, root, colors, Us(full), done, v);
    } else if !back {
      forall i, j | 0 <= i < |full'| && 0 <= j < full'[i].ei && j < |Out(g, full'[i].u)|
        ensures Out(g, full'[i].u)[j] in done || IsNext(full', i, Out(g, full'[i].u)[j])
      {
        assert full'[i].u == full[i].u;
        if i < |stack| {
          assert full[i] == full'[i];
          assert full'[i + 1].u == full[i + 1].u;
        }
      }
    }
  }

  ghost function Elements(done: seq<nat>): (r: set<nat>) {
    set v | v in done
  }

  lemma MarkShrinks(universe: set<nat>, keys: set<nat>, v: nat)
    requires v in universe && v !in keys
    ensures |universe - (keys + {v})| < |universe - keys|
  {
    assert universe - keys == (universe - (keys + {v})) + {v};
  }

  ghost predicate Within(g: Adjacency, universe: set<nat>) {
    forall u: nat, v: nat :: v in Out(g, u) ==> v in universe
  }

  ghost predicate InRange(g: Adjacency, stack: seq<Frame>) {
    forall i :: 0 <= i < |stack| ==> stack[i].ei <= |Out(g, stack[i].u)|
  }

  lemma EnterShrinks(g: Adjacency, colors: map<nat, Color>, universe: set<nat>, u: nat, v: nat)
    requires v !in colors && v in Out(g, u) && colors.Keys <= universe
    requires Within(g, universe)
    ensures colors[v := Gray].Keys <= universe
    ensures |universe - colors[v := Gray].Keys| < |universe - colors.Keys|
  {
    assert v in universe;
    hide Within, Out;
    MarkShrinks(universe, colors.Keys, v);
    assert colors[v := Gray].Keys == colors.Keys + {v};
  }

  /** One turn of the inner loop: the edge of the vertex u on top of the path leads to a
      white vertex (descend), a gray one (a back edge) or a black one (skip). */
  method ExamineEdge(g: Adjacency, root: nat, frames: seq<Frame>, top: Frame, marks: map<nat, Color>,
                     seen: bool, ghost done: seq<nat>, ghost universe: set<nat>)
    returns (stack: seq<Frame>, next: Frame, colors: map<nat, Color>, backEdge: bool)
    requires InRange(g, frames) && marks.Keys <= universe && Within(g, universe)
    requires top.ei < |Out(g, top.u)|
    requires Visiting(g, root, marks, frames + [top], done, seen)
    ensures Visiting(g, root, colors, stack + [next], done, backEdge)
    ensures InRange(g, stack) && next.ei <= |Out(g, next.u)| && colors.Keys <= universe
    ensures |universe - colors.Keys| < |universe - marks.Keys|
         || (colors == marks && next == Frame(top.u, top.ei + 1))
  {
    var v := Out(g, top.u)[top.ei];
    if v !in marks {
      var ei := if seen then |Out(g, v)| else 0;
      EnterVertex(g, root, marks, frames, top, done, seen, v, ei);
      EnterShrinks(g, marks, universe, top.u, v);
      stack, next := frames + [Frame(top.u, top.ei + 1)], Frame(v, ei);
      colors, backEdge := marks[v := Gray], seen;
    } else {
      AdvanceEdge(g, root, marks, frames, top, done, seen, seen || marks[v] == Gray);
      stack, next := frames, Frame(top.u, top.ei + 1);
      colors, backEdge := marks, seen || marks[v] == Gray;
    }
  }

  /** The inner loop: walk the out-edges of the vertex on top of the path, descending into
      white vertices, until the vertex on top has no edge left. */
  method Explore(g: Adjacency, root: nat, frames: seq<Frame>, marks: map<nat, Color>, seen: bool,
                 ghost done: seq<nat>, ghost universe: set<nat>)
    returns (stack: seq<Frame>, top: Frame, colors: map<nat, Color>, backEdge: bool)
    requires frames != [] && InRange(g, frames) && marks.Keys <= universe && Within(g, universe)
    requires Visiting(g, root, marks, frames, done, seen)
    ensures InRange(g, stack) && colors.Keys <= universe
    ensures top.ei == |Out(g, top.u)|
    ensures Visiting(g, root, colors, stack + [top], done, backEdge)
  {
    hide Visiting, Out;
    colors, backEdge := marks, seen;
    stack, top := frames[..|frames| - 1], frames[|frames| - 1];
    assert frames == stack + [top];
    while top.ei != |Out(g, top.u)|
      invariant Visiting(g, root, colors, stack + [top], done, backEdge)
      invariant InRange(g, stack) && top.ei <= |Out(g, top.u)|
      invariant colors.Keys <= universe
      decreases |universe - colors.Keys|, |Out(g, top.u)| - top.ei
    {
      stack, top, colors, backEdge := ExamineEdge(g, root, stack, top, colors, backEdge, done, universe);
    }
  }

  lemma StartVisit(g: Adjacency, root: nat)
    ensures Visiting(g, root, map[root := Gray], [Frame(root, 0)], [], false)
  {
    assert Us([Frame(root, 0)]) == [root];
  }

  lemma FinishShrinks(universe: set<nat>, colors: map<nat, Color>, done: seq<nat>, u: nat)
    requires colors.Keys <= universe && u in colors && u !in done
    ensures colors[u := Black].Keys <= universe
    ensures |universe - Elements(done + [u])| < |universe - Elements(done)|
  {
    MarkShrinks(universe, Elements(done), u);
    assert Elements(done + [u]) == Elements(done) + {u};
  }

  lemma EndVisit(g: Adjacency, root: nat, colors: map<nat, Color>, done: seq<nat>, back: bool)
    requires Visiting(g, root, colors, [], done, back)
    ensures back <==> ReachesCycle(AdjacencySteps(g), root)
  {
    if !back {
      TopologicalHasNoCycle(AdjacencySteps(g), done, root);
    }
  }

  /** boost::depth_first_visit with the deadlock visitor: it reports a back edge exactly
      when a cycle can be reached from the root, although it stops descending early. */
  method DepthFirstVisit(g: Adjacency, root: nat) returns (backEdge: bool)
    ensures backEdge <==> ReachesCycle(AdjacencySteps(g), root)
  {
    ghost var universe: set<nat> := {root} + set e | e in AdjacencySteps(g) :: e.1;
    ghost var done: seq<nat> := [];
    backEdge := false;
    var colors: map<nat, Color> := map[root := Gray];
    var stack := [Frame(root, 0)];
    StartVisit(g, root);
    while stack != []
      invariant Visiting(g, root, colors, stack, done, backEdge)
      invariant InRange(g, stack)
      invariant colors.Keys <= universe
      decreases |universe - Elements(done)|
    {
      var top;
      stack, top, colors, backEdge := Explore(g, root, stack, colors, backEdge, done, universe);
      FinishVertex(g, root, colors, stack, top, done, backEdge);
      FinishShrinks(universe, colors, done, top.u);
      colors := colors[top.u := Black];
      done := done + [top.u];
    }
    EndVisit(g, root, colors, done, backEdge);
  }
}
