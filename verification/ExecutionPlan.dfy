/** The layered execution plan of an acyclic batch. */
module ExecutionPlan {
  import opened OrderedMaps
  import opened TaskGraph
  import opened ResearchPlan

  datatype Group = Group(depth: int, taskIds: seq<string>, canRunInParallel: bool)

  datatype Plan = Plan(groups: seq<Group>, totalTasks: nat, estimatedDepth: nat, hasCycles: bool,
                       cycleTaskIds: Option<seq<string>>)

  ghost predicate UniqueIds(specs: seq<ResearchTaskSpec>) {
    forall i, j :: 0 <= i < j < |specs| ==> specs[i].id != specs[j].id
  }

  /** The specifications whose ids are (not) in `ids`, in batch order. */
  function Select(specs: seq<ResearchTaskSpec>, ids: set<string>, keep: bool): seq<ResearchTaskSpec> {
    if specs == [] then []
    else
      var last := specs[|specs| - 1];
      Select(specs[..|specs| - 1], ids, keep) + (if (last.id in ids) == keep then [last] else [])
  }

  function Ids(specs: seq<ResearchTaskSpec>): seq<string> {
    seq(|specs|, i requires 0 <= i < |specs| => specs[i].id)
  }

  predicate AllIn(deps: seq<string>, done: set<string>) {
    forall d :: d in deps ==> d in done
  }

  /** Ids of the specifications that only depend on `done`, in batch order. */
  function Ready(specs: seq<ResearchTaskSpec>, done: set<string>): seq<string> {
    if specs == [] then []
    else
      var last := specs[|specs| - 1];
      Ready(specs[..|specs| - 1], done) + (if AllIn(DependsOn(last), done) then [last.id] else [])
  }

  lemma {:induction false} ReadyMembers(specs: seq<ResearchTaskSpec>, done: set<string>, v: string)
    ensures v in Ready(specs, done) <==> exists s :: s in specs && s.id == v && AllIn(DependsOn(s), done)
  {
    if specs != [] {
      var n := |specs| - 1;
      ReadyMembers(specs[..n], done, v);
      assert forall s :: s in specs <==> s in specs[..n] || s == specs[n];
    }
  }

  lemma {:induction false} SelectMembers(specs: seq<ResearchTaskSpec>, ids: set<string>, keep: bool, s: ResearchTaskSpec)
    ensures s in Select(specs, ids, keep) <==> s in specs && (s.id in ids) == keep
  {
    if specs != [] {
      var n := |specs| - 1;
      SelectMembers(specs[..n], ids, keep, s);
      assert s in specs <==> s in specs[..n] || s == specs[n];
    }
  }

  lemma SelectAppend(specs: seq<ResearchTaskSpec>, x: ResearchTaskSpec, ids: set<string>, keep: bool)
    ensures Select(specs + [x], ids, keep) == Select(specs, ids, keep) + (if (x.id in ids) == keep then [x] else [])
  {
    assert (specs + [x])[..|specs|] == specs;
  }

  lemma ReadyAppend(specs: seq<ResearchTaskSpec>, x: ResearchTaskSpec, done: set<string>)
    ensures Ready(specs + [x], done) == Ready(specs, done) + (if AllIn(DependsOn(x), done) then [x.id] else [])
  {
    assert (specs + [x])[..|specs|] == specs;
  }

  lemma {:induction false} SelectTwice(specs: seq<ResearchTaskSpec>, a: set<string>, b: set<string>)
    ensures Select(Select(specs, a, false), b, false) == Select(specs, a + b, false)
  {
    if specs != [] {
      var n := |specs| - 1;
      SelectTwice(specs[..n], a, b);
      var rest := Select(specs[..n], a, false);
      assert rest + [] == rest;
      SelectAppend(rest, specs[n], b, false);
    }
  }

  lemma {:induction false} SelectShrinks(specs: seq<ResearchTaskSpec>, ids: set<string>)
    ensures |Select(specs, ids, false)| <= |specs|
    ensures |Select(specs, ids, false)| == |specs| ==> forall s :: s in specs ==> s.id !in ids
  {
    if specs != [] {
      var n := |specs| - 1;
      SelectShrinks(specs[..n], ids);
      assert forall s :: s in specs <==> s in specs[..n] || s == specs[n];
    }
  }

  /** `v` belongs to the layer after `k` others: grounded, and its longest chain has `k + 1` tasks. */
  ghost predicate InLayer(g: Graph, v: string, k: nat) {
    Complete(g, v, k + 1) && !Complete(g, v, k)
  }

  /** The tasks of layer `k`, in batch order. */
  ghost function LayerIds(specs: seq<ResearchTaskSpec>, g: Graph, k: nat): seq<string> {
    if specs == [] then []
    else
      var last := specs[|specs| - 1];
      if InLayer(g, last.id, k) then LayerIds(specs[..|specs| - 1], g, k) + [last.id]
      else LayerIds(specs[..|specs| - 1], g, k)
  }

  lemma LastOrBefore(specs: seq<ResearchTaskSpec>, v: string)
    requires specs != []
    ensures (exists s :: s in specs && s.id == v) <==>
            (exists s :: s in specs[..|specs| - 1] && s.id == v) || specs[|specs| - 1].id == v
  {
    assert specs == specs[..|specs| - 1] + [specs[|specs| - 1]];
  }

  lemma {:induction false} LayerMembers(specs: seq<ResearchTaskSpec>, g: Graph, k: nat, v: string)
    ensures v in LayerIds(specs, g, k) <==> InLayer(g, v, k) && exists s :: s in specs && s.id == v
  {
    hide InLayer;
    if specs != [] {
      var n := |specs| - 1;
      LayerMembers(specs[..n], g, k, v);
      LastOrBefore(specs, v);
      assert LayerIds(specs, g, k) ==
             if InLayer(g, specs[n].id, k) then LayerIds(specs[..n], g, k) + [specs[n].id] else LayerIds(specs[..n], g, k);
    }
  }

  lemma {:induction false} UniqueDeps(specs: seq<ResearchTaskSpec>, i: nat)
    requires UniqueIds(specs) && i < |specs|
    ensures specs[i].id in GraphOf(specs) && GraphOf(specs)[specs[i].id] == DependsOn(specs[i])
  {
    if i < |specs| - 1 { UniqueDeps(specs[..|specs| - 1], i); }
  }

  ghost predicate DoneThrough(g: Graph, done: set<string>, k: nat) {
    forall v :: v in done <==> Complete(g, v, k)
  }

  lemma ReadyIffInLayer(all: seq<ResearchTaskSpec>, i: nat, done: set<string>, k: nat)
    requires UniqueIds(all) && i < |all| && DoneThrough(GraphOf(all), done, k)
    ensures InLayer(GraphOf(all), all[i].id, k) <==> all[i].id !in done && AllIn(DependsOn(all[i]), done)
  {
    var g, v := GraphOf(all), all[i].id;
    UniqueDeps(all, i);
    CompleteStep(g, v, k);
    assert Deps(g, v) == DependsOn(all[i]);
    assert v in done <==> Complete(g, v, k);
  }

  /** One round of the layer loop collects exactly the next layer. */
  lemma {:induction false} RoundIsLayer(specs: seq<ResearchTaskSpec>, all: seq<ResearchTaskSpec>, done: set<string>, k: nat)
    requires UniqueIds(all) && specs <= all && DoneThrough(GraphOf(all), done, k)
    ensures Ready(Select(specs, done, false), done) == LayerIds(specs, GraphOf(all), k)
  {
    if specs != [] {
      var n := |specs| - 1;
      var rest := Select(specs[..n], done, false);
      assert rest + [] == rest;
      RoundIsLayer(specs[..n], all, done, k);
      ReadyIffInLayer(all, n, done, k);
      ReadyAppend(rest, specs[n], done);
      assert specs[n] == all[n];
    }
  }

  lemma RoundAdvances(specs: seq<ResearchTaskSpec>, done: set<string>, layer: seq<string>, k: nat)
    requires UniqueIds(specs) && DoneThrough(GraphOf(specs), done, k) && layer == LayerIds(specs, GraphOf(specs), k)
    ensures DoneThrough(GraphOf(specs), done + Elements(layer), k + 1)
  {
    var g, done' := GraphOf(specs), done + Elements(layer);
    forall v ensures v in done' <==> Complete(g, v, k + 1) {
      LayerMembers(specs, g, k, v);
      if Complete(g, v, k + 1) {
        CompleteIsTask(g, v, k + 1);
        GraphKeys(specs, v);
      }
    }
  }

  function Elements(s: seq<string>): set<string> {
    set v | v in s
  }

  function MaxDepth(specs: seq<ResearchTaskSpec>): int
    requires specs != []
  {
    var last := specs[|specs| - 1].depth;
    if |specs| == 1 then last
    else
      var before := MaxDepth(specs[..|specs| - 1]);
      if before >= last then before else last
  }

  method MaxDepthOf(specs: seq<ResearchTaskSpec>) returns (m: int)
    requires specs != []
    ensures m == MaxDepth(specs)
    ensures exists s :: s in specs && s.depth == m
    ensures forall s :: s in specs ==> s.depth <= m
  {
    m := specs[0].depth;
    assert specs[..1][..0] == [];
    for i := 1 to |specs|
      invariant m == MaxDepth(specs[..i])
      invariant exists s :: s in specs && s.depth == m
      invariant forall j :: 0 <= j < i ==> specs[j].depth <= m
    {
      assert specs[..i + 1][..i] == specs[..i];
      if m < specs[i].depth { m := specs[i].depth; }
    }
    assert specs[..|specs|] == specs;
  }

  /** What a plan is for a batch with unique ids: the layers in order, none empty, until nothing more
      can be planned. */
  ghost predicate IsLayered(specs: seq<ResearchTaskSpec>, groups: seq<Group>) {
    var g := GraphOf(specs);
    && (forall k :: 0 <= k < |groups| ==> groups[k].taskIds != [] && groups[k].canRunInParallel)
    && Layers(specs, groups)
    && (forall v :: Grounded(g, v) ==> Complete(g, v, |groups|))
  }

  lemma LoopEnds(specs: seq<ResearchTaskSpec>, remaining: seq<ResearchTaskSpec>, done: set<string>, k: nat)
    requires UniqueIds(specs) && Acyclic(GraphOf(specs)) && DoneThrough(GraphOf(specs), done, k)
    requires remaining == Select(specs, done, false)
    requires remaining == [] || LayerIds(specs, GraphOf(specs), k) == []
    ensures forall v :: Grounded(GraphOf(specs), v) ==> Complete(GraphOf(specs), v, k)
  {
    var g := GraphOf(specs);
    forall v | Complete(g, v, k + 1) ensures Complete(g, v, k) {
      CompleteIsTask(g, v, k + 1);
      GraphKeys(specs, v);
      LayerMembers(specs, g, k, v);
      var i :| 0 <= i < |specs| && specs[i].id == v;
      SelectMembers(specs, done, false, specs[i]);
    }
    forall v | Grounded(g, v) ensures Complete(g, v, k) {
      GroundedIsComplete(g, v);
      if k < |g| { CompleteSaturates(g, k, |g|); }
    }
  }

  /** The ids in the first `k` groups. */
  function DoneIds(groups: seq<Group>, k: nat): set<string>
    requires k <= |groups|
  {
    if k == 0 then {} else DoneIds(groups, k - 1) + Elements(groups[k - 1].taskIds)
  }

  /** Repeated ids or not, each group holds what is ready after the groups before it. */
  ghost predicate Rounds(specs: seq<ResearchTaskSpec>, groups: seq<Group>) {
    forall k :: 0 <= k < |groups| ==>
      && groups[k].taskIds != [] && groups[k].canRunInParallel
      && groups[k].taskIds == Ready(Select(specs, DoneIds(groups, k), false), DoneIds(groups, k))
  }

  /** Every specification is planned or depends on something that is not. */
  ghost predicate NothingReady(specs: seq<ResearchTaskSpec>, done: set<string>) {
    forall s :: s in specs ==> s.id in done || !AllIn(DependsOn(s), done)
  }

  /** Group `k` holds exactly the ids, not planned before, of specifications that depend only on earlier groups. */
  lemma RoundMembers(specs: seq<ResearchTaskSpec>, groups: seq<Group>, k: nat, v: string)
    requires Rounds(specs, groups) && k < |groups|
    ensures v in groups[k].taskIds <==>
            v !in DoneIds(groups, k) && exists s :: s in specs && s.id == v && AllIn(DependsOn(s), DoneIds(groups, k))
  {
    hide Ready, Select, DependsOn;
    var done := DoneIds(groups, k);
    ReadyMembers(Select(specs, done, false), done, v);
    forall s ensures s in Select(specs, done, false) <==> s in specs && s.id !in done { SelectMembers(specs, done, false, s); }
  }

  lemma {:induction false} DonePrefix(groups: seq<Group>, group: Group, k: nat)
    requires k <= |groups|
    ensures DoneIds(groups + [group], k) == DoneIds(groups, k)
  {
    if k > 0 { DonePrefix(groups, group, k - 1); }
  }

  lemma RoundsExtend(specs: seq<ResearchTaskSpec>, groups: seq<Group>, group: Group)
    requires Rounds(specs, groups) && group.taskIds != [] && group.canRunInParallel
    requires group.taskIds == Ready(Select(specs, DoneIds(groups, |groups|), false), DoneIds(groups, |groups|))
    ensures Rounds(specs, groups + [group])
    ensures DoneIds(groups + [group], |groups| + 1) == DoneIds(groups, |groups|) + Elements(group.taskIds)
  {
    hide Ready, Select;
    forall k | 0 <= k <= |groups| ensures DoneIds(groups + [group], k) == DoneIds(groups, k) { DonePrefix(groups, group, k); }
  }

  lemma LastRound(specs: seq<ResearchTaskSpec>, done: set<string>)
    requires Ready(Select(specs, done, false), done) == []
    ensures NothingReady(specs, done)
  {
    forall s | s in specs && s.id !in done ensures !AllIn(DependsOn(s), done) {
      SelectMembers(specs, done, false, s);
      ReadyMembers(Select(specs, done, false), done, s.id);
    }
  }

  /** Where the loop ends, the plan is what it should be. */
  lemma PlanDone(specs: seq<ResearchTaskSpec>, groups: seq<Group>, visited: set<string>, remaining: seq<ResearchTaskSpec>)
    requires Acyclic(GraphOf(specs)) && Planning(specs, groups, visited, remaining)
    requires remaining == [] || Ready(remaining, visited) == []
    ensures Rounds(specs, groups) && NothingReady(specs, DoneIds(groups, |groups|))
    ensures UniqueIds(specs) ==> IsLayered(specs, groups)
  {
    hide GraphOf, UniqueIds, Acyclic;
    LastRound(specs, visited);
    if UniqueIds(specs) {
      RoundIsLayer(specs, specs, visited, |groups|);
      LoopEnds(specs, remaining, visited, |groups|);
    }
  }

  method ComputeExecutionPlan(specs: seq<ResearchTaskSpec>) returns (plan: Plan)
    ensures plan.hasCycles <==> !Acyclic(GraphOf(specs))
    ensures plan.cycleTaskIds == if plan.hasCycles then Some(Searched(specs).found) else None
    ensures plan.hasCycles ==> plan.groups == [] && plan.cycleTaskIds.Some? && plan.cycleTaskIds.value != []
                               && forall v :: v in plan.cycleTaskIds.value ==> OnCycle(GraphOf(specs), v)
    ensures plan.totalTasks == |specs| && plan.estimatedDepth == |plan.groups|
    ensures !plan.hasCycles ==> Rounds(specs, plan.groups) && NothingReady(specs, DoneIds(plan.groups, |plan.groups|))
    ensures !plan.hasCycles && UniqueIds(specs) ==> IsLayered(specs, plan.groups)
    ensures DepthsSet(specs, plan.groups)
  {
    hide GraphOf, Acyclic, OnCycle, Rounds, NothingReady, IsLayered, UniqueIds, DoneIds;
    var cycleNodes := DetectCycles(specs);
    if |cycleNodes| > 0 {
      return Plan([], |specs|, 0, true, Some(cycleNodes));
    }
    var visited: set<string> := {};
    var groups: seq<Group> := [];
    var remaining := specs;
    Start(specs);
    while |remaining| > 0
      invariant Planning(specs, groups, visited, remaining)
      invariant DepthsSet(specs, groups)
      decreases |remaining|
    {
      var layer := Ready(remaining, visited);
      if |layer| == 0 {
        break;
      }
      var layerSpecs := Select(specs, Elements(layer), true);
      LayerSpecsNotEmpty(specs, remaining, visited, layer[0]);
      var maxDepth := MaxDepthOf(layerSpecs);
      var group := Group(if |groups| == 0 then 1 else maxDepth, layer, true);
      PlanningAdvances(specs, groups, visited, remaining, group);
      DepthsExtend(specs, groups, group);
      RoundsExtend(specs, groups, group);
      groups := groups + [group];
      visited := visited + Elements(layer);
      remaining := Select(remaining, Elements(layer), false);
    }
    PlanDone(specs, groups, visited, remaining);
    plan := Plan(groups, |specs|, |groups|, false, None);
  }

  /** The first group has depth 1, every other the greatest depth among its tasks. */
  ghost predicate DepthsSet(specs: seq<ResearchTaskSpec>, groups: seq<Group>) {
    && (groups != [] ==> groups[0].depth == 1)
    && (forall k :: 0 < k < |groups| ==>
          var layer := Select(specs, Elements(groups[k].taskIds), true);
          layer != [] && groups[k].depth == MaxDepth(layer))
  }

  lemma DepthsExtend(specs: seq<ResearchTaskSpec>, groups: seq<Group>, group: Group)
    requires DepthsSet(specs, groups)
    requires Select(specs, Elements(group.taskIds), true) != []
    requires group.depth == if groups == [] then 1 else MaxDepth(Select(specs, Elements(group.taskIds), true))
    ensures DepthsSet(specs, groups + [group])
  {
  }

  ghost predicate Planning(specs: seq<ResearchTaskSpec>, groups: seq<Group>, visited: set<string>, remaining: seq<ResearchTaskSpec>) {
    && remaining == Select(specs, visited, false)
    && Rounds(specs, groups) && visited == DoneIds(groups, |groups|)
    && (UniqueIds(specs) ==> DoneThrough(GraphOf(specs), visited, |groups|) && Layers(specs, groups))
  }

  ghost predicate Layers(specs: seq<ResearchTaskSpec>, groups: seq<Group>) {
    forall k :: 0 <= k < |groups| ==> groups[k].taskIds == LayerIds(specs, GraphOf(specs), k)
  }

  lemma LayersExtend(specs: seq<ResearchTaskSpec>, groups: seq<Group>, group: Group)
    requires Layers(specs, groups) && group.taskIds == LayerIds(specs, GraphOf(specs), |groups|)
    ensures Layers(specs, groups + [group])
  {
  }

  lemma PlanningAdvances(specs: seq<ResearchTaskSpec>, groups: seq<Group>, visited: set<string>,
                         remaining: seq<ResearchTaskSpec>, group: Group)
    requires Planning(specs, groups, visited, remaining)
    requires group.taskIds == Ready(remaining, visited) != [] && group.canRunInParallel
    ensures Planning(specs, groups + [group], visited + Elements(group.taskIds), Select(remaining, Elements(group.taskIds), false))
  {
    hide Layers, DoneThrough, LayerIds, GraphOf, UniqueIds, Rounds, Ready, Select, DoneIds, Elements;
    RoundsExtend(specs, groups, group);
    SelectTwice(specs, visited, Elements(group.taskIds));
    if UniqueIds(specs) {
      RoundIsLayer(specs, specs, visited, |groups|);
      RoundAdvances(specs, visited, group.taskIds, |groups|);
      LayersExtend(specs, groups, group);
    }
  }

  lemma Start(specs: seq<ResearchTaskSpec>)
    ensures Planning(specs, [], {}, specs)
  {
    forall v ensures !Complete(GraphOf(specs), v, 0) { assert IsPath(GraphOf(specs), [v]); }
    SelectNothing(specs);
  }

  lemma {:induction false} SelectNothing(specs: seq<ResearchTaskSpec>)
    ensures Select(specs, {}, false) == specs
  {
    if specs != [] { SelectNothing(specs[..|specs| - 1]); }
  }

  lemma LayerSpecsNotEmpty(specs: seq<ResearchTaskSpec>, remaining: seq<ResearchTaskSpec>, visited: set<string>, v: string)
    requires remaining == Select(specs, visited, false) && v in Ready(remaining, visited)
    ensures Select(specs, Elements(Ready(remaining, visited)), true) != []
    ensures |Select(remaining, Elements(Ready(remaining, visited)), false)| < |remaining|
  {
    ReadyMembers(remaining, visited, v);
    SelectShrinks(remaining, Elements(Ready(remaining, visited)));
    var s :| s in remaining && s.id == v;
    SelectMembers(specs, visited, false, s);
    SelectMembers(specs, Elements(Ready(remaining, visited)), true, s);
  }

  // ----- what a plan guarantees -----

  lemma {:induction false} CompleteGrows(g: Graph, v: string, k: nat, m: nat)
    requires Complete(g, v, k) && k <= m
    ensures Complete(g, v, m)
  {
  }

  /** The least number of layers that completes a grounded task of an acyclic batch. */
  lemma {:induction false} LayerExists(g: Graph, v: string, m: nat) returns (k: nat)
    requires Complete(g, v, m)
    ensures k < m && InLayer(g, v, k)
  {
    CompleteIsTask(g, v, m);
    if Complete(g, v, m - 1) {
      k := LayerExists(g, v, m - 1);
    } else {
      k := m - 1;
    }
  }

  lemma {:induction false} LayerDistinct(specs: seq<ResearchTaskSpec>, g: Graph, k: nat)
    requires UniqueIds(specs)
    ensures Distinct(LayerIds(specs, g, k))
  {
    if specs != [] {
      var n := |specs| - 1;
      LayerDistinct(specs[..n], g, k);
      LayerMembers(specs[..n], g, k, specs[n].id);
    }
  }

  /** Exactly the grounded tasks are planned, each in one group only and once in it. */
  lemma PlannedOnce(specs: seq<ResearchTaskSpec>, groups: seq<Group>, v: string)
    requires UniqueIds(specs) && IsLayered(specs, groups)
    ensures forall k :: 0 <= k < |groups| ==> Distinct(groups[k].taskIds)
    ensures Grounded(GraphOf(specs), v) <==> exists k :: 0 <= k < |groups| && v in groups[k].taskIds
    ensures forall j, k :: 0 <= j < |groups| && 0 <= k < |groups| && v in groups[j].taskIds && v in groups[k].taskIds ==> j == k
  {
    var g := GraphOf(specs);
    forall k | 0 <= k < |groups| ensures Distinct(groups[k].taskIds) { LayerDistinct(specs, g, k); }
    if Grounded(g, v) {
      var k := LayerExists(g, v, |groups|);
      CompleteIsTask(g, v, k + 1);
      GraphKeys(specs, v);
      LayerMembers(specs, g, k, v);
      assert v in groups[k].taskIds;
    }
    forall k | 0 <= k < |groups| && v in groups[k].taskIds ensures InLayer(g, v, k) {
      LayerMembers(specs, g, k, v);
    }
    forall j, k | 0 <= j < k < |groups| && InLayer(g, v, j) ensures !InLayer(g, v, k) {
      CompleteGrows(g, v, j + 1, k);
    }
  }

  /** A task's group index is the length of its longest chain of dependencies. */
  lemma GroupIsLongestChain(specs: seq<ResearchTaskSpec>, groups: seq<Group>, k: nat, v: string)
    requires UniqueIds(specs) && IsLayered(specs, groups) && k < |groups| && v in groups[k].taskIds
    ensures exists p :: IsPath(GraphOf(specs), p) && p[0] == v && |p| == k + 1
    ensures forall p :: IsPath(GraphOf(specs), p) && p[0] == v ==> |p| <= k + 1
  {
    var g := GraphOf(specs);
    LayerMembers(specs, g, k, v);
    var p :| IsPath(g, p) && p[0] == v && !(|p| <= k && p[|p| - 1] in g);
  }

  /** Any order of groups that keeps dependencies in earlier groups. */
  ghost predicate ValidLayering(g: Graph, layers: seq<set<string>>) {
    && (forall v :: Grounded(g, v) ==> exists i :: 0 <= i < |layers| && v in layers[i])
    && (forall i, v, d :: 0 <= i < |layers| && v in layers[i] && d in Deps(g, v) ==> exists j :: 0 <= j < i && d in layers[j])
  }

  lemma {:induction false} ChainNeedsLayers(g: Graph, layers: seq<set<string>>, p: seq<string>, i: nat)
    requires ValidLayering(g, layers) && IsPath(g, p) && i < |layers| && p[0] in layers[i]
    ensures |p| <= i + 1
  {
    if |p| > 1 {
      PathTail(g, p);
      var j :| 0 <= j < i && p[1] in layers[j];
      ChainNeedsLayers(g, layers, p[1..], j);
    }
  }

  /** No plan of the same tasks has fewer groups. */
  lemma FewestGroups(specs: seq<ResearchTaskSpec>, groups: seq<Group>, layers: seq<set<string>>)
    requires UniqueIds(specs) && IsLayered(specs, groups) && ValidLayering(GraphOf(specs), layers)
    ensures |groups| <= |layers|
  {
    if groups != [] {
      var k := |groups| - 1;
      var v := groups[k].taskIds[0];
      PlannedOnce(specs, groups, v);
      GroupIsLongestChain(specs, groups, k, v);
      var p :| IsPath(GraphOf(specs), p) && p[0] == v && |p| == k + 1;
      var i :| 0 <= i < |layers| && v in layers[i];
      ChainNeedsLayers(GraphOf(specs), layers, p, i);
    }
  }

  /** When no dependency is missing, every task of an acyclic batch is planned. */
  lemma EverythingPlanned(specs: seq<ResearchTaskSpec>, groups: seq<Group>, i: nat)
    requires UniqueIds(specs) && IsLayered(specs, groups) && NoMissing(GraphOf(specs)) && i < |specs|
    ensures exists k :: 0 <= k < |groups| && specs[i].id in groups[k].taskIds
  {
    GraphKeys(specs, specs[i].id);
    NothingMissingIsGrounded(GraphOf(specs), specs[i].id);
    PlannedOnce(specs, groups, specs[i].id);
  }

  function Pairs(id: string, deps: seq<string>): seq<(string, string)> {
    seq(|deps|, i requires 0 <= i < |deps| => (id, deps[i]))
  }

  /** Every reference of the batch: specification by specification, in the order of its dependencies. */
  function References(specs: seq<ResearchTaskSpec>): seq<(string, string)> {
    if specs == [] then []
    else
      var last := specs[|specs| - 1];
      References(specs[..|specs| - 1]) + Pairs(last.id, DependsOn(last))
  }

  /** The references to ids outside `known`, in order. */
  function Unknown(refs: seq<(string, string)>, known: set<string>): seq<(string, string)> {
    if refs == [] then []
    else
      var before, last := Unknown(refs[..|refs| - 1], known), refs[|refs| - 1];
      if last.1 in known then before else before + [last]
  }

  lemma {:induction false} UnknownSplit(a: seq<(string, string)>, b: seq<(string, string)>, known: set<string>)
    ensures Unknown(a + b, known) == Unknown(a, known) + Unknown(b, known)
  {
    if b == [] {
      assert a + b == a;
    } else {
      var n := |b| - 1;
      assert (a + b)[..|a + b| - 1] == a + b[..n];
      UnknownSplit(a, b[..n], known);
    }
  }

  lemma {:induction false} UnknownMembers(refs: seq<(string, string)>, known: set<string>, x: (string, string))
    ensures x in Unknown(refs, known) <==> x in refs && x.1 !in known
  {
    if refs != [] {
      var n := |refs| - 1;
      UnknownMembers(refs[..n], known, x);
      assert refs == refs[..n] + [refs[n]];
    }
  }

  lemma {:induction false} ReferenceMembers(specs: seq<ResearchTaskSpec>, v: string, d: string)
    ensures (v, d) in References(specs) <==> exists s :: s in specs && s.id == v && d in DependsOn(s)
  {
    if specs != [] {
      var n := |specs| - 1;
      ReferenceMembers(specs[..n], v, d);
      PairMembers(specs[n].id, DependsOn(specs[n]), v, d);
      assert forall s :: s in specs <==> s in specs[..n] || s == specs[n];
    }
  }

  lemma PairMembers(id: string, deps: seq<string>, v: string, d: string)
    ensures (v, d) in Pairs(id, deps) <==> v == id && d in deps
  {
    if v == id && d in deps {
      var i :| 0 <= i < |deps| && deps[i] == d;
      assert Pairs(id, deps)[i] == (v, d);
    }
  }

  lemma IdsAreTasks(specs: seq<ResearchTaskSpec>)
    ensures Elements(Ids(specs)) == GraphOf(specs).Keys
  {
    forall v ensures v in Elements(Ids(specs)) <==> v in GraphOf(specs) {
      GraphKeys(specs, v);
      if v in GraphOf(specs) { var i :| 0 <= i < |specs| && specs[i].id == v; assert Ids(specs)[i] == v; }
    }
  }

  /** The references of a batch to ids that it does not contain: each as often as it occurs, and in order. */
  method MissingDependencies(specs: seq<ResearchTaskSpec>) returns (missing: seq<(string, string)>)
    ensures missing == Unknown(References(specs), GraphOf(specs).Keys)
    ensures forall v, d :: (v, d) in missing <==>
              (exists s :: s in specs && s.id == v && d in DependsOn(s)) && d !in GraphOf(specs)
    ensures missing == [] ==> NoMissing(GraphOf(specs))
    ensures UniqueIds(specs) && NoMissing(GraphOf(specs)) ==> missing == []
  {
    hide GraphOf, DependsOn;
    var ids := Elements(Ids(specs));
    IdsAreTasks(specs);
    missing := [];
    for i := 0 to |specs|
      invariant missing == Unknown(References(specs[..i]), ids)
    {
      var deps := DependsOn(specs[i]);
      assert specs[..i + 1][..i] == specs[..i];
      UnknownSplit(References(specs[..i]), Pairs(specs[i].id, deps), ids);
      var more := MissingOf(specs[i].id, deps, ids);
      missing := missing + more;
    }
    assert specs[..|specs|] == specs;
    forall v, d ensures (v, d) in missing <==> (exists s :: s in specs && s.id == v && d in DependsOn(s)) && d !in GraphOf(specs) {
      UnknownMembers(References(specs), ids, (v, d));
      ReferenceMembers(specs, v, d);
    }
    if missing == [] {
      NoneMissing(specs, missing);
    } else if UniqueIds(specs) {
      SomeMissing(specs, missing[0].0, missing[0].1);
    }
  }

  /** The inner loop, over the dependencies of one specification. */
  method MissingOf(id: string, deps: seq<string>, ids: set<string>) returns (missing: seq<(string, string)>)
    ensures missing == Unknown(Pairs(id, deps), ids)
  {
    missing := [];
    for j := 0 to |deps|
      invariant missing == Unknown(Pairs(id, deps)[..j], ids)
    {
      assert Pairs(id, deps)[..j + 1][..j] == Pairs(id, deps)[..j];
      if deps[j] !in ids { missing := missing + [(id, deps[j])]; }
    }
    assert Pairs(id, deps)[..|deps|] == Pairs(id, deps);
  }

  lemma SomeMissing(specs: seq<ResearchTaskSpec>, v: string, d: string)
    requires UniqueIds(specs) && (exists s :: s in specs && s.id == v && d in DependsOn(s)) && d !in GraphOf(specs)
    ensures !NoMissing(GraphOf(specs))
  {
    var s :| s in specs && s.id == v && d in DependsOn(s);
    var i :| 0 <= i < |specs| && specs[i] == s;
    UniqueDeps(specs, i);
  }

  lemma NoneMissing(specs: seq<ResearchTaskSpec>, missing: seq<(string, string)>)
    requires forall v, d :: (v, d) in missing <==>
              (exists s :: s in specs && s.id == v && d in DependsOn(s)) && d !in GraphOf(specs)
    requires missing == []
    ensures NoMissing(GraphOf(specs))
  {
    forall v, d | v in GraphOf(specs) && d in GraphOf(specs)[v] ensures d in GraphOf(specs) {
      GraphDeps(specs, v);
      assert (v, d) !in missing;
    }
  }

  lemma {:induction false} GraphDeps(specs: seq<ResearchTaskSpec>, v: string)
    requires v in GraphOf(specs)
    ensures exists s :: s in specs && s.id == v && DependsOn(s) == GraphOf(specs)[v]
  {
    var n := |specs| - 1;
    if specs[n].id == v { assert specs[n] in specs; }
    else {
      GraphDeps(specs[..n], v);
      var s :| s in specs[..n] && s.id == v && DependsOn(s) == GraphOf(specs)[v];
      assert s in specs;
    }
  }
}
