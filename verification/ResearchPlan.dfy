/** Declarative research tasks: cycle detection by depth-first search and the layered execution plan. */
module ResearchPlan {
  import opened OrderedMaps
  import opened TaskGraph
  import WorkQueue

  datatype TaskType = Search | Read | Analyze | Synthesize | Cartograph

  datatype ResearchTaskSpec = ResearchTaskSpec(
    id: string, kind: TaskType, query: string, depth: int,
    priority: Option<WorkQueue.Priority>, dependsOn: Option<seq<string>>)

  function DependsOn(spec: ResearchTaskSpec): seq<string> {
    if spec.dependsOn.Some? then spec.dependsOn.value else []
  }

  /** The dependency map of a batch; a repeated id keeps the last specification's dependencies. */
  function GraphOf(specs: seq<ResearchTaskSpec>): Graph {
    if specs == [] then map[]
    else
      var last := specs[|specs| - 1];
      GraphOf(specs[..|specs| - 1])[last.id := DependsOn(last)]
  }

  lemma {:induction false} GraphKeys(specs: seq<ResearchTaskSpec>, v: string)
    ensures v in GraphOf(specs) <==> exists i :: 0 <= i < |specs| && specs[i].id == v
  {
    if specs != [] { GraphKeys(specs[..|specs| - 1], v); }
  }

  // ----- the search as a function -----

  /** What the search knows: the tasks visited, those reported so far, and those it is done with, in that order. */
  datatype Trail = Trail(visited: set<string>, found: seq<string>, finished: seq<string>)

  ghost predicate Closed(g: Graph, universe: set<string>) {
    forall v, d :: v in universe && d in Deps(g, v) ==> d in universe
  }

  /** Visits a task while `stack` is the walk that leads to it. */
  ghost function Visit(g: Graph, node: string, stack: seq<string>, s: Trail, universe: set<string>): (r: Trail)
    requires s.visited <= universe && node in universe && Closed(g, universe)
    ensures s.visited <= r.visited <= universe
    decreases universe - s.visited, 0
  {
    if node in stack then s.(found := s.found + [node])
    else if node in s.visited then s
    else
      var r := VisitDeps(g, node, 0, stack + [node], s.(visited := s.visited + {node}), universe);
      r.(finished := r.finished + [node])
  }

  /** Visits the dependencies of `node` from the `i`-th on. */
  ghost function VisitDeps(g: Graph, node: string, i: nat, path: seq<string>, s: Trail, universe: set<string>): (r: Trail)
    requires s.visited <= universe && node in universe && Closed(g, universe) && i <= |Deps(g, node)|
    ensures s.visited <= r.visited <= universe
    decreases universe - s.visited, 1 + |Deps(g, node)| - i
  {
    if i == |Deps(g, node)| then s
    else
      var d := Deps(g, node)[i];
      var r := Visit(g, d, path, s, universe);
      VisitDeps(g, node, i + 1, path, AfterDep(node, d, path, r), universe)
  }

  /** An edge back into the walk reports its source, once. */
  function AfterDep(node: string, d: string, path: seq<string>, s: Trail): Trail {
    if d in path && node !in s.found then s.(found := s.found + [node]) else s
  }

  /** The outer loop from the `i`-th id on. */
  ghost function SearchFrom(g: Graph, ids: seq<string>, i: nat, s: Trail, universe: set<string>): (r: Trail)
    requires s.visited <= universe && Closed(g, universe) && i <= |ids| && forall v :: v in ids ==> v in universe
    ensures s.visited <= r.visited <= universe
    decreases |ids| - i
  {
    if i == |ids| then s
    else SearchFrom(g, ids, i + 1, if ids[i] in s.visited then s else Visit(g, ids[i], [], s, universe), universe)
  }

  const START := Trail({}, [], [])

  function IdsOf(specs: seq<ResearchTaskSpec>): (ids: seq<string>)
    ensures |ids| == |specs| && forall i :: 0 <= i < |specs| ==> ids[i] == specs[i].id
  {
    seq(|specs|, i requires 0 <= i < |specs| => specs[i].id)
  }

  ghost function Mentioned(g: Graph): (u: set<string>)
    ensures forall v :: v in g ==> v in u
    ensures Closed(g, u)
  {
    g.Keys + set v, d | v in g && d in g[v] :: d
  }

  lemma IdsMentioned(specs: seq<ResearchTaskSpec>, v: string)
    ensures v in IdsOf(specs) <==> v in GraphOf(specs)
  {
    GraphKeys(specs, v);
    if v in IdsOf(specs) { var i :| 0 <= i < |specs| && IdsOf(specs)[i] == v; }
    if v in GraphOf(specs) { var i :| 0 <= i < |specs| && specs[i].id == v; assert IdsOf(specs)[i] == v; }
  }

  /** The whole search over a batch. */
  ghost function Searched(specs: seq<ResearchTaskSpec>): Trail {
    var g := GraphOf(specs);
    assert forall v :: v in IdsOf(specs) ==> v in Mentioned(g) by {
      forall v | v in IdsOf(specs) ensures v in Mentioned(g) { IdsMentioned(specs, v); }
    }
    SearchFrom(g, IdsOf(specs), 0, START, Mentioned(g))
  }

  // ----- the search as it is implemented -----

  /** The depth-first search, with the state its recursive closure shares. */
  class CycleFinder {
    const graph: Graph
    var visited: set<string>
    var inStack: set<string>
    var cycleNodes: seq<string>
    ghost var finished: seq<string>

    constructor (graph: Graph)
      ensures this.graph == graph && Known() == START && inStack == {}
    {
      this.graph := graph;
      visited, inStack, cycleNodes, finished := {}, {}, [], [];
    }

    ghost function Known(): Trail
      reads this
    {
      Trail(visited, cycleNodes, finished)
    }

    /** One call of the closure: the visit, with `inStack` as it was, and whether the task is on the walk. */
    method Dfs(node: string, ghost stack: seq<string>, ghost universe: set<string>) returns (hit: bool)
      requires forall v :: v in inStack <==> v in stack
      requires visited <= universe && node in universe && Closed(graph, universe)
      modifies this
      ensures Known() == Visit(graph, node, stack, old(Known()), universe)
      ensures inStack == old(inStack) && hit == (node in stack)
      decreases universe - visited
    {
      if node in inStack {
        cycleNodes := cycleNodes + [node];
        return true;
      }
      if node in visited { return false; }
      ghost var path := stack + [node];
      visited := visited + {node};
      inStack := inStack + {node};
      ghost var begun := Known();
      var deps := if node in graph then graph[node] else [];
      for i := 0 to |deps|
        invariant begun.visited <= visited <= universe && inStack == old(inStack) + {node}
        invariant VisitDeps(graph, node, i, path, Known(), universe) == VisitDeps(graph, node, 0, path, begun, universe)
      {
        var found := Dfs(deps[i], path, universe);
        if found {
          if node !in cycleNodes { cycleNodes := cycleNodes + [node]; }
        }
      }
      inStack := inStack - {node};
      finished := finished + [node];
      hit := false;
    }
  }

  // ----- what the search keeps -----

  /** An edge whose target is not done before its source: it leads back into the walk. */
  ghost predicate Late(g: Graph, stack: seq<string>, finished: seq<string>, x: string, d: string) {
    d in Deps(g, x) && (DoneLate(finished, x, d) || OpenLate(stack, finished, x, d))
  }

  ghost predicate DoneLate(finished: seq<string>, x: string, d: string) {
    x in finished && d !in finished[..IndexOf(finished, x)]
  }

  ghost predicate OpenLate(stack: seq<string>, finished: seq<string>, x: string, d: string) {
    x !in finished && x in stack && d in stack[..IndexOf(stack, x) + 1]
  }

  ghost predicate IsEnd(g: Graph, stack: seq<string>, finished: seq<string>, v: string) {
    exists x, d :: Late(g, stack, finished, x, d) && (v == x || v == d)
  }

  /** Every dependency of a finished task is finished before it, or both ends of the edge are reported. */
  ghost predicate Accounted(g: Graph, s: Trail) {
    forall i, d :: 0 <= i < |s.finished| && d in Deps(g, s.finished[i]) ==>
      d in s.finished[..i] || (s.finished[i] in s.found && d in s.found)
  }

  ghost predicate Consistent(g: Graph, stack: seq<string>, s: Trail) {
    && Distinct(stack) && (stack != [] ==> IsPath(g, stack))
    && Distinct(s.finished) && (forall v :: v in stack ==> v !in s.finished)
    && (forall v :: v in s.visited <==> v in stack || v in s.finished)
    && Accounted(g, s)
    && (forall v :: v in s.found ==> OnCycle(g, v) && IsEnd(g, stack, s.finished, v))
  }

  /** The dependencies before the `i`-th are finished, or reported together with `node`. */
  ghost predicate DepsDone(g: Graph, node: string, i: nat, s: Trail)
    requires i <= |Deps(g, node)|
  {
    forall j :: 0 <= j < i ==> Deps(g, node)[j] in s.finished || (node in s.found && Deps(g, node)[j] in s.found)
  }

  /** The edge back into the walk closes a cycle through both of its ends. */
  lemma BackEdge(g: Graph, stack: seq<string>, node: string)
    requires stack != [] && IsPath(g, stack) && node in stack && node in Deps(g, stack[|stack| - 1])
    ensures OnCycle(g, node) && OnCycle(g, stack[|stack| - 1])
  {
    var top := stack[|stack| - 1];
    var i :| 0 <= i < |stack| && stack[i] == node;
    Slice(g, stack, i, |stack|);
    var round := stack[i..];
    assert round == stack[i..|stack|];
    PathCons(g, top, round);
    assert IsCycle(g, [top] + round, top);
    assert IsCycle(g, round + [node], node);
  }

  lemma LateWhenEntering(g: Graph, stack: seq<string>, finished: seq<string>, node: string, v: string)
    requires node !in stack && IsEnd(g, stack, finished, v)
    ensures IsEnd(g, stack + [node], finished, v)
  {
    var x, d :| Late(g, stack, finished, x, d) && (v == x || v == d);
    if x !in finished {
      AppendIndex(stack, node, x);
      assert (stack + [node])[..IndexOf(stack, x) + 1] == stack[..IndexOf(stack, x) + 1];
    }
    assert Late(g, stack + [node], finished, x, d);
  }

  lemma Enter(g: Graph, stack: seq<string>, s: Trail, node: string)
    requires Consistent(g, stack, s) && node !in s.visited
    requires stack != [] ==> node in Deps(g, stack[|stack| - 1])
    ensures Consistent(g, stack + [node], s.(visited := s.visited + {node}))
  {
    forall v | v in s.found ensures IsEnd(g, stack + [node], s.finished, v) { LateWhenEntering(g, stack, s.finished, node, v); }
  }

  lemma DoneStays(finished: seq<string>, node: string, x: string, d: string)
    requires node !in finished && DoneLate(finished, x, d)
    ensures DoneLate(finished + [node], x, d)
  {
    AppendIndex(finished, node, x);
    assert (finished + [node])[..IndexOf(finished, x)] == finished[..IndexOf(finished, x)];
  }

  lemma TopBecomesDone(finished: seq<string>, node: string, d: string)
    requires node !in finished && d !in finished
    ensures DoneLate(finished + [node], node, d)
  {
    AppendIndex(finished, node, node);
    assert (finished + [node])[..|finished|] == finished;
  }

  lemma OpenStays(stack: seq<string>, finished: seq<string>, node: string, x: string, d: string)
    requires node !in stack && x != node && OpenLate(stack + [node], finished, x, d)
    ensures OpenLate(stack, finished + [node], x, d)
  {
    AppendIndex(stack, node, x);
    assert (stack + [node])[..IndexOf(stack, x) + 1] == stack[..IndexOf(stack, x) + 1];
  }

  lemma InSlice(s: seq<string>, k: nat, d: string)
    requires k <= |s| && d in s[..k]
    ensures d in s
  {
  }

  lemma EdgeWhenLeaving(g: Graph, stack: seq<string>, finished: seq<string>, node: string, x: string, d: string)
    requires Distinct(stack + [node]) && (forall v :: v in stack + [node] ==> v !in finished)
    requires Late(g, stack + [node], finished, x, d)
    ensures Late(g, stack, finished + [node], x, d)
  {
    hide DoneLate, IndexOf;
    assert (stack + [node])[|stack|] == node;
    OnlyPlace(stack, node);
    if DoneLate(finished, x, d) {
      DoneStays(finished, node, x, d);
    } else if x == node {
      InSlice(stack + [node], IndexOf(stack + [node], x) + 1, d);
      TopBecomesDone(finished, node, d);
    } else {
      OpenStays(stack, finished, node, x, d);
    }
  }

  lemma LateWhenLeaving(g: Graph, stack: seq<string>, finished: seq<string>, node: string, v: string)
    requires Distinct(stack + [node]) && (forall x :: x in stack + [node] ==> x !in finished)
    requires IsEnd(g, stack + [node], finished, v)
    ensures IsEnd(g, stack, finished + [node], v)
  {
    hide Late;
    var x, d :| Late(g, stack + [node], finished, x, d) && (v == x || v == d);
    EdgeWhenLeaving(g, stack, finished, node, x, d);
  }

  lemma OnlyPlace(stack: seq<string>, node: string)
    requires Distinct(stack + [node])
    ensures node !in stack && Distinct(stack)
  {
    var path := stack + [node];
    assert path[|stack|] == node;
    forall i | 0 <= i < |stack| ensures stack[i] != node { assert path[i] == stack[i]; }
    forall i, j | 0 <= i < j < |stack| ensures stack[i] != stack[j] { assert path[i] == stack[i] && path[j] == stack[j]; }
  }

  lemma AccountedWhenLeaving(g: Graph, s: Trail, node: string)
    requires Accounted(g, s) && DepsDone(g, node, |Deps(g, node)|, s)
    ensures Accounted(g, s.(finished := s.finished + [node]))
  {
    var done := s.finished + [node];
    forall i, d | 0 <= i < |done| && d in Deps(g, done[i]) ensures d in done[..i] || (done[i] in s.found && d in s.found) {
      assert done[..i] == s.finished[..i];
      if i == |s.finished| { assert s.finished[..i] == s.finished; }
    }
  }

  lemma WalkWhenLeaving(g: Graph, stack: seq<string>, node: string)
    requires Distinct(stack + [node]) && IsPath(g, stack + [node])
    ensures Distinct(stack) && node !in stack && (stack != [] ==> IsPath(g, stack))
    ensures forall v :: v in stack + [node] <==> v in stack || v == node
  {
    OnlyPlace(stack, node);
    if stack != [] {
      Slice(g, stack + [node], 0, |stack|);
      assert (stack + [node])[0..|stack|] == stack;
    }
  }

  lemma Leave(g: Graph, stack: seq<string>, s: Trail, node: string)
    requires Consistent(g, stack + [node], s) && DepsDone(g, node, |Deps(g, node)|, s)
    ensures Consistent(g, stack, s.(finished := s.finished + [node]))
  {
    hide Accounted, IsPath, IsEnd, OnCycle, DepsDone, Deps;
    WalkWhenLeaving(g, stack, node);
    AccountedWhenLeaving(g, s, node);
    forall v | v in s.found ensures IsEnd(g, stack, s.finished + [node], v) { LateWhenLeaving(g, stack, s.finished, node, v); }
  }

  /** A report of `v`, an end of an edge from the top of the walk back into it, keeps the state consistent. */
  lemma Report(g: Graph, path: seq<string>, s: Trail, d: string, v: string)
    requires Consistent(g, path, s) && path != [] && d in path && d in Deps(g, path[|path| - 1])
    requires v == d || v == path[|path| - 1]
    ensures Consistent(g, path, s.(found := s.found + [v]))
  {
    var top := path[|path| - 1];
    BackEdge(g, path, d);
    IndexUnique(path, |path| - 1);
    assert path[..|path|] == path;
    assert Late(g, path, s.finished, top, d);
  }

  lemma VisitConsistent(g: Graph, node: string, stack: seq<string>, s: Trail, universe: set<string>)
    requires s.visited <= universe && node in universe && Closed(g, universe) && Consistent(g, stack, s)
    requires stack != [] ==> node in Deps(g, stack[|stack| - 1])
    ensures var r := Visit(g, node, stack, s, universe);
            && Consistent(g, stack, r) && s.found <= r.found && s.finished <= r.finished
            && node in r.visited && (node in stack ==> node in r.found)
    decreases universe - s.visited, 0
  {
    hide Consistent;
    if node in stack {
      Report(g, stack, s, node, node);
      OnStackIsVisited(g, stack, s, node);
    } else if node !in s.visited {
      var entered := s.(visited := s.visited + {node});
      Enter(g, stack, s, node);
      VisitDepsConsistent(g, node, 0, stack + [node], entered, universe);
      Leave(g, stack, VisitDeps(g, node, 0, stack + [node], entered, universe), node);
    }
  }

  lemma OnStackIsVisited(g: Graph, stack: seq<string>, s: Trail, v: string)
    requires Consistent(g, stack, s)
    ensures v in stack ==> v in s.visited
    ensures v in s.visited && v !in stack ==> v in s.finished
  {
  }

  lemma VisitDepsConsistent(g: Graph, node: string, i: nat, path: seq<string>, s: Trail, universe: set<string>)
    requires s.visited <= universe && node in universe && Closed(g, universe) && i <= |Deps(g, node)|
    requires Consistent(g, path, s) && DepsDone(g, node, i, s) && path != [] && path[|path| - 1] == node
    ensures var r := VisitDeps(g, node, i, path, s, universe);
            && Consistent(g, path, r) && s.found <= r.found && s.finished <= r.finished
            && DepsDone(g, node, |Deps(g, node)|, r)
    decreases universe - s.visited, 1 + |Deps(g, node)| - i
  {
    hide Consistent;
    if i < |Deps(g, node)| {
      var d := Deps(g, node)[i];
      VisitConsistent(g, d, path, s, universe);
      var r := Visit(g, d, path, s, universe);
      var r' := AfterDep(node, d, path, r);
      if d in path && node !in r.found { Report(g, path, r, d, node); }
      OnStackIsVisited(g, path, r, d);
      assert DepsDone(g, node, i + 1, r');
      VisitDepsConsistent(g, node, i + 1, path, r', universe);
    }
  }

  lemma SearchConsistent(g: Graph, ids: seq<string>, i: nat, s: Trail, universe: set<string>)
    requires s.visited <= universe && Closed(g, universe) && i <= |ids| && forall v :: v in ids ==> v in universe
    requires Consistent(g, [], s) && forall j :: 0 <= j < i ==> ids[j] in s.visited
    ensures var r := SearchFrom(g, ids, i, s, universe);
            Consistent(g, [], r) && forall v :: v in ids ==> v in r.visited
    decreases |ids| - i
  {
    if i < |ids| {
      if ids[i] !in s.visited { VisitConsistent(g, ids[i], [], s, universe); }
      SearchConsistent(g, ids, i + 1, if ids[i] in s.visited then s else Visit(g, ids[i], [], s, universe), universe);
    }
  }

  // ----- what the search reports -----

  /** An edge of the batch whose target the search is not done with before its source. */
  ghost predicate LeadsBack(specs: seq<ResearchTaskSpec>, x: string, d: string) {
    Late(GraphOf(specs), [], Searched(specs).finished, x, d)
  }

  lemma SearchedFacts(specs: seq<ResearchTaskSpec>)
    ensures Consistent(GraphOf(specs), [], Searched(specs))
    ensures forall v :: v in GraphOf(specs) ==> v in Searched(specs).finished
  {
    var g := GraphOf(specs);
    forall v | v in IdsOf(specs) ensures v in Mentioned(g) { IdsMentioned(specs, v); }
    assert Consistent(g, [], START);
    SearchConsistent(g, IdsOf(specs), 0, START, Mentioned(g));
    forall v | v in g ensures v in Searched(specs).finished { IdsMentioned(specs, v); }
  }

  /** The search reports exactly the ends of the edges that lead back into its walk. */
  lemma ReportedIff(specs: seq<ResearchTaskSpec>, v: string)
    ensures v in Searched(specs).found <==> exists x, d :: LeadsBack(specs, x, d) && (v == x || v == d)
    ensures v in Searched(specs).found ==> OnCycle(GraphOf(specs), v)
  {
    var g, s := GraphOf(specs), Searched(specs);
    SearchedFacts(specs);
    if v in s.found {
      var x, d :| Late(g, [], s.finished, x, d) && (v == x || v == d);
      assert LeadsBack(specs, x, d);
    }
    if x, d :| LeadsBack(specs, x, d) && (v == x || v == d) {
      var i := IndexOf(s.finished, x);
      assert s.finished[i] == x;
    }
  }

  /** Along a walk either some edge leads back, or the search is done with each task before the one ahead of it. */
  lemma {:induction false} SomeEdgeLeadsBack(g: Graph, finished: seq<string>, p: seq<string>) returns (i: nat)
    requires IsPath(g, p) && p[0] in finished
    ensures i < |p|
    ensures i < |p| - 1 ==> Late(g, [], finished, p[i], p[i + 1])
    ensures i == |p| - 1 ==> p[i] in finished && IndexOf(finished, p[i]) <= IndexOf(finished, p[0]) - i
    decreases |p|
  {
    if |p| == 1 {
      i := 0;
    } else if Late(g, [], finished, p[0], p[1]) {
      i := 0;
    } else {
      PathTail(g, p);
      var k := IndexOf(finished, p[0]);
      assert p[1] in finished[..k];
      EarlierIndex(finished, p[1], k);
      i := SomeEdgeLeadsBack(g, finished, p[1..]);
      i := i + 1;
    }
  }

  lemma EarlierIndex(s: seq<string>, x: string, k: nat)
    requires k <= |s| && x in s[..k]
    ensures x in s && IndexOf(s, x) < k
  {
    var j :| 0 <= j < k && s[..k][j] == x;
    assert s[j] == x;
    var i := IndexOf(s, x);
    assert i <= j by { assert forall m :: 0 <= m < i ==> s[..i][m] == s[m]; }
  }

  /** Every cycle has an edge of which both ends are reported. */
  lemma EveryCycleIsHit(specs: seq<ResearchTaskSpec>, p: seq<string>, v: string) returns (i: nat)
    requires IsCycle(GraphOf(specs), p, v)
    ensures i < |p| - 1 && p[i] in Searched(specs).found && p[i + 1] in Searched(specs).found
  {
    var g, s := GraphOf(specs), Searched(specs);
    SearchedFacts(specs);
    assert p[1] in Deps(g, v);
    i := SomeEdgeLeadsBack(g, s.finished, p);
    assert LeadsBack(specs, p[i], p[i + 1]);
    ReportedIff(specs, p[i]);
    ReportedIff(specs, p[i + 1]);
  }

  /** A task on a cycle of one or two tasks is always reported. */
  lemma ShortCyclesAreReported(specs: seq<ResearchTaskSpec>, p: seq<string>, v: string)
    requires IsCycle(GraphOf(specs), p, v) && |p| <= 3
    ensures v in Searched(specs).found
  {
    var i := EveryCycleIsHit(specs, p, v);
    assert p[i] == v || p[i + 1] == v;
  }

  /** Nothing is reported exactly for acyclic batches. */
  lemma SilentIffAcyclic(specs: seq<ResearchTaskSpec>)
    ensures Searched(specs).found == [] <==> Acyclic(GraphOf(specs))
  {
    if Searched(specs).found == [] {
      forall v ensures !OnCycle(GraphOf(specs), v) {
        if p :| IsCycle(GraphOf(specs), p, v) {
          var i := EveryCycleIsHit(specs, p, v);
          assert false;
        }
      }
    } else {
      ReportedIff(specs, Searched(specs).found[0]);
    }
  }

  function Needs(id: string, dep: string): ResearchTaskSpec {
    ResearchTaskSpec(id, TaskType.Search, "", 1, None, Some([dep]))
  }

  ghost predicate Triangle(g: Graph, a: string, b: string, c: string) {
    && a != b && b != c && a != c
    && Deps(g, a) == [b] && Deps(g, b) == [c] && Deps(g, c) == [a]
  }

  /** The walk around a triangle, innermost task first. */
  lemma AroundTriangle(g: Graph, a: string, b: string, c: string, universe: set<string>)
    requires Triangle(g, a, b, c) && Closed(g, universe) && a in universe && b in universe && c in universe
    ensures Visit(g, a, [], START, universe) == Trail({a, b, c}, [a, c], [c, b, a])
  {
    var s3 := Trail({a, b, c}, [], []);
    var hit := Trail({a, b, c}, [a], []);
    var both := Trail({a, b, c}, [a, c], []);
    assert [a] + [b] == [a, b] && [a, b] + [c] == [a, b, c] && [] + [a] == [a];
    assert {a} + {b} == {a, b} && {a, b} + {c} == {a, b, c};
    assert a in [a, b, c];
    assert Visit(g, a, [a, b, c], s3, universe) == hit;
    assert AfterDep(c, a, [a, b, c], hit) == both;
    assert VisitDeps(g, c, 1, [a, b, c], both, universe) == both;
    assert VisitDeps(g, c, 0, [a, b, c], s3, universe) == both;
    assert Visit(g, c, [a, b], Trail({a, b}, [], []), universe) == both.(finished := [c]);
    assert VisitDeps(g, b, 1, [a, b], both.(finished := [c]), universe) == both.(finished := [c]);
    assert VisitDeps(g, b, 0, [a, b], Trail({a, b}, [], []), universe) == both.(finished := [c]);
    assert Visit(g, b, [a], Trail({a}, [], []), universe) == both.(finished := [c, b]);
    assert VisitDeps(g, a, 1, [a], both.(finished := [c, b]), universe) == both.(finished := [c, b]);
    assert VisitDeps(g, a, 0, [a], Trail({a}, [], []), universe) == both.(finished := [c, b]);
    assert START.(visited := START.visited + {a}) == Trail({a}, [], []);
    assert [c, b] + [a] == [c, b, a];
  }

  lemma GraphAppend(specs: seq<ResearchTaskSpec>, x: ResearchTaskSpec)
    ensures GraphOf(specs + [x]) == GraphOf(specs)[x.id := DependsOn(x)]
  {
    assert (specs + [x])[..|specs|] == specs;
  }

  lemma RingIsTriangle(a: string, b: string, c: string)
    requires a != b && b != c && a != c
    ensures Triangle(GraphOf([Needs(a, b), Needs(b, c), Needs(c, a)]), a, b, c)
  {
    GraphAppend([], Needs(a, b));
    GraphAppend([Needs(a, b)], Needs(b, c));
    GraphAppend([Needs(a, b), Needs(b, c)], Needs(c, a));
    assert [] + [Needs(a, b)] == [Needs(a, b)] && [Needs(a, b)] + [Needs(b, c)] == [Needs(a, b), Needs(b, c)];
    assert [Needs(a, b), Needs(b, c)] + [Needs(c, a)] == [Needs(a, b), Needs(b, c), Needs(c, a)];
  }

  lemma SearchTriangle(g: Graph, a: string, b: string, c: string, u: set<string>)
    requires Triangle(g, a, b, c) && Closed(g, u) && a in u && b in u && c in u
    ensures SearchFrom(g, [a, b, c], 0, START, u).found == [a, c]
  {
    hide Visit;
    AroundTriangle(g, a, b, c, u);
    var s, ids := Trail({a, b, c}, [a, c], [c, b, a]), [a, b, c];
    assert SearchFrom(g, ids, 3, s, u) == s;
    assert SearchFrom(g, ids, 2, s, u) == s;
    assert SearchFrom(g, ids, 1, s, u) == s;
  }

  /** Three tasks in a ring all lie on a cycle, and one of them is not reported. */
  lemma TriangleIsNotReported(a: string, b: string, c: string)
    requires a != b && b != c && a != c
    ensures var specs := [Needs(a, b), Needs(b, c), Needs(c, a)];
            OnCycle(GraphOf(specs), b) && Searched(specs).found == [a, c]
  {
    hide GraphOf, SearchFrom, Triangle;
    var specs := [Needs(a, b), Needs(b, c), Needs(c, a)];
    RingIsTriangle(a, b, c);
    RingIsCycle(GraphOf(specs), a, b, c);
    assert IdsOf(specs) == [a, b, c];
    forall v | v in IdsOf(specs) ensures v in Mentioned(GraphOf(specs)) { IdsMentioned(specs, v); }
    SearchTriangle(GraphOf(specs), a, b, c, Mentioned(GraphOf(specs)));
  }

  lemma RingIsCycle(g: Graph, a: string, b: string, c: string)
    requires Triangle(g, a, b, c)
    ensures OnCycle(g, b)
  {
    assert IsCycle(g, [b, c, a, b], b);
  }

  method BuildGraph(specs: seq<ResearchTaskSpec>) returns (graph: Graph)
    ensures graph == GraphOf(specs)
  {
    graph := map[];
    for i := 0 to |specs|
      invariant graph == GraphOf(specs[..i])
    {
      assert specs[..i + 1][..i] == specs[..i];
      graph := graph[specs[i].id := DependsOn(specs[i])];
    }
    assert specs[..|specs|] == specs;
  }

  lemma FoundFacts(specs: seq<ResearchTaskSpec>)
    ensures var found := Searched(specs).found;
            && (forall v :: v in found <==> exists x, d :: LeadsBack(specs, x, d) && (v == x || v == d))
            && (found == [] <==> Acyclic(GraphOf(specs)))
            && (forall v :: v in found ==> OnCycle(GraphOf(specs), v))
  {
    hide LeadsBack, GraphOf, Searched, Acyclic, OnCycle;
    SilentIffAcyclic(specs);
    forall v ensures v in Searched(specs).found <==> exists x, d :: LeadsBack(specs, x, d) && (v == x || v == d) { ReportedIff(specs, v); }
    forall v | v in Searched(specs).found ensures OnCycle(GraphOf(specs), v) { ReportedIff(specs, v); }
  }

  /** Reports exactly the ends of the edges that lead back into the walk: none for an acyclic batch, and otherwise
      only tasks that lie on a cycle. */
  method DetectCycles(specs: seq<ResearchTaskSpec>) returns (cycleNodes: seq<string>)
    ensures cycleNodes == Searched(specs).found
    ensures forall v :: v in cycleNodes <==> exists x, d :: LeadsBack(specs, x, d) && (v == x || v == d)
    ensures cycleNodes == [] <==> Acyclic(GraphOf(specs))
    ensures forall v :: v in cycleNodes ==> OnCycle(GraphOf(specs), v)
  {
    hide LeadsBack, GraphOf, Acyclic, OnCycle;
    var graph := BuildGraph(specs);
    var finder := new CycleFinder(graph);
    ghost var universe := Mentioned(graph);
    forall v | v in IdsOf(specs) ensures v in universe { IdsMentioned(specs, v); }
    for i := 0 to |specs|
      invariant finder.graph == graph && finder.visited <= universe && finder.inStack == {}
      invariant SearchFrom(graph, IdsOf(specs), i, finder.Known(), universe) == Searched(specs)
    {
      if specs[i].id !in finder.visited {
        var _ := finder.Dfs(specs[i].id, [], universe);
      }
    }
    cycleNodes := finder.cycleNodes;
    FoundFacts(specs);
  }

  /** The work queue's view of a batch; a priority that is not given becomes normal. */
  function ToWorkQueueTasks(specs: seq<ResearchTaskSpec>): seq<WorkQueue.TaskSpec> {
    seq(|specs|, i requires 0 <= i < |specs| =>
      WorkQueue.TaskSpec(specs[i].id, Some(if specs[i].priority.Some? then specs[i].priority.value else WorkQueue.Normal),
                         Some(DependsOn(specs[i]))))
  }

  lemma SetKeepsGraph(t: WorkQueue.Tasks, spec: WorkQueue.TaskSpec)
    ensures WorkQueue.GraphOfTasks(t.Set(spec.id, WorkQueue.NewTask(spec))) ==
            WorkQueue.GraphOfTasks(t)[spec.id := WorkQueue.DependsOn(spec)]
  {
  }

  /** The queue made from a batch has the batch's dependency graph, repeated ids included. */
  lemma {:induction false} QueueKeepsGraph(specs: seq<ResearchTaskSpec>)
    ensures WorkQueue.GraphOfTasks(WorkQueue.TasksOfSpecs(ToWorkQueueTasks(specs))) == GraphOf(specs)
  {
    var tasks := ToWorkQueueTasks(specs);
    if specs != [] {
      var n := |specs| - 1;
      QueueKeepsGraph(specs[..n]);
      assert tasks[..n] == ToWorkQueueTasks(specs[..n]);
      SetKeepsGraph(WorkQueue.TasksOfSpecs(tasks[..n]), tasks[n]);
    }
  }
}
