/** Scalar limits, then a memoised depth-first search. */
module PlanValidation {
  import opened Prelude
  import opened Plans

  datatype PlanError =
    | WorkspaceOrGoal
    | TaskCount
    | DuplicateTaskId
    | DependencyCount
    | UnknownOrSelfDependency
    | NoEligibleAgent
    | TextLimit
    | PlanCycle
    | DependencyDepth

  predicate Within(needed: seq<string>, offered: seq<string>) {
    forall x | x in needed :: x in offered
  }

  predicate Eligible(requirements: Requirements, agent: AgentItem) {
    && Within(requirements.capabilities, agent.capabilities)
    && Within(requirements.capabilityIds, agent.capabilityIds)
    && Within(requirements.toolIds, agent.toolIds)
    && Within(requirements.knowledgeSourceIds, agent.knowledgeSourceIds)
    && Within(requirements.memoryScopes, agent.memoryScopes)
    && requirements.minAutonomy <= agent.autonomy
  }

  // ---------- What an acceptable plan is ----------

  predicate Known(tasks: seq<PlannedTask>, id: PlannedId) {
    exists k :: 0 <= k < |tasks| && tasks[k].id == id
  }

  predicate SoundDependencies(tasks: seq<PlannedTask>, task: PlannedTask) {
    (forall d | d in task.dependencies :: Known(tasks, d)) && task.id !in task.dependencies
  }

  predicate SomeAgent(request: Request, task: PlannedTask) {
    exists k :: 0 <= k < |request.agents| && Eligible(task.requirements, request.agents[k])
  }

  /** The first check of a task that fails, if any. */
  function TaskError(request: Request, tasks: seq<PlannedTask>, task: PlannedTask): Option<PlanError> {
    if |task.dependencies| > request.policy.maxDependenciesPerTask then Some(DependencyCount)
    else if !SoundDependencies(tasks, task) then Some(UnknownOrSelfDependency)
    else if !SomeAgent(request, task) then Some(NoEligibleAgent)
    else None
  }

  function Characters(texts: seq<string>): nat {
    if texts == [] then 0 else Characters(texts[..|texts| - 1]) + |texts[|texts| - 1]|
  }

  function TextSize(tasks: seq<PlannedTask>): nat {
    if tasks == [] then 0
    else
      var last := tasks[|tasks| - 1];
      TextSize(tasks[..|tasks| - 1]) + |last.id| + |last.title| + Characters(last.criteria)
  }

  ghost predicate CountsHold(request: Request, proposal: Proposal) {
    && proposal.workspace == request.workspace && proposal.goal == request.goal
    && 0 < |proposal.tasks| <= request.policy.maxTasks
    && DistinctIds(proposal.tasks)
  }

  ghost predicate TasksHold(request: Request, tasks: seq<PlannedTask>) {
    forall k | 0 <= k < |tasks| :: TaskError(request, tasks, tasks[k]).None?
  }

  /** Every limit that does not look at the graph. */
  ghost predicate ScalarLimits(request: Request, proposal: Proposal) {
    && CountsHold(request, proposal)
    && TasksHold(request, proposal.tasks)
    && TextSize(proposal.tasks) <= request.policy.maxPlanText
  }

  /** Each error names the first check, in order, that the proposal fails. */
  ghost predicate ErrorExplained(request: Request, proposal: Proposal, error: PlanError) {
    var tasks := proposal.tasks;
    var sameGoal := proposal.workspace == request.workspace && proposal.goal == request.goal;
    var counted := sameGoal && 0 < |tasks| <= request.policy.maxTasks;
    match error
    case WorkspaceOrGoal => !sameGoal
    case TaskCount => sameGoal && !counted
    case DuplicateTaskId => counted && !DistinctIds(tasks)
    case TextLimit =>
      CountsHold(request, proposal) && TasksHold(request, tasks) && TextSize(tasks) > request.policy.maxPlanText
    case PlanCycle => ScalarLimits(request, proposal) && !Acyclic(GraphOf(tasks))
    case DependencyDepth =>
      ScalarLimits(request, proposal) && !ChainsWithin(GraphOf(tasks), request.policy.maxDependencyDepth)
    case _ =>
      && CountsHold(request, proposal)
      && exists k :: 0 <= k < |tasks| && TaskError(request, tasks, tasks[k]) == Some(error)
           && forall j | 0 <= j < k :: TaskError(request, tasks, tasks[j]).None?
  }

  // ---------- The memoised search ----------

  ghost predicate DepthExact(graph: Graph, maxDepth: nat, node: PlannedId, depth: nat) {
    LongestChain(graph, node, depth) && depth <= maxDepth
  }

  /** Memoised depths are the longest chains, all within the bound. */
  ghost predicate MemoExact(graph: Graph, maxDepth: nat, depths: map<PlannedId, nat>) {
    && depths.Keys <= graph.Keys
    && (forall n {:trigger DepthExact(graph, maxDepth, n, depths[n])} | n in depths ::
        DepthExact(graph, maxDepth, n, depths[n]))
  }

  ghost predicate Extends(before: map<PlannedId, nat>, after: map<PlannedId, nat>) {
    forall n | n in before :: n in after && after[n] == before[n]
  }

  /** `path` is the chain of nodes being visited, the caller's last. */
  ghost predicate OnPath(graph: Graph, visiting: set<PlannedId>, path: seq<PlannedId>) {
    && (path == [] || Chain(graph, path))
    && (forall x :: x in visiting <==> x in path)
  }

  /** The largest depth among the first `k` dependencies; zero if there are none. */
  ghost predicate BestParent(depths: map<PlannedId, nat>, parents: seq<PlannedId>, k: nat, best: nat)
    requires k <= |parents|
  {
    && (forall j | 0 <= j < k :: parents[j] in depths && depths[parents[j]] <= best)
    && (best == 0 || exists j :: 0 <= j < k && parents[j] in depths && depths[parents[j]] == best)
  }

  lemma PathExtends(graph: Graph, visiting: set<PlannedId>, path: seq<PlannedId>, node: PlannedId)
    requires OnPath(graph, visiting, path) && node in graph
    requires path != [] ==> node in graph[path[|path| - 1]]
    ensures OnPath(graph, visiting + {node}, path + [node])
  {
    if path != [] {
      ChainJoin(graph, path, [node]);
    }
  }

  lemma PathClosesCycle(graph: Graph, visiting: set<PlannedId>, path: seq<PlannedId>, node: PlannedId)
    requires OnPath(graph, visiting, path) && node in visiting && node in graph
    requires node in graph[path[|path| - 1]]
    ensures !Acyclic(graph)
  {
    var k :| 0 <= k < |path| && path[k] == node;
    ChainTail(graph, path, k);
    assert path[k..][|path[k..]| - 1] == path[|path| - 1];
    ChainJoin(graph, path[k..], [node]);
    assert Cycle(graph, path[k..] + [node]);
  }

  lemma BetterParent(
    before: map<PlannedId, nat>, after: map<PlannedId, nat>, parents: seq<PlannedId>, k: nat, best: nat, depth: nat)
    requires k < |parents| && BestParent(before, parents, k, best) && Extends(before, after)
    requires parents[k] in after && after[parents[k]] == depth
    ensures BestParent(after, parents, k + 1, if depth > best then depth else best)
  {
  }

  lemma DepthIsLongest(graph: Graph, maxDepth: nat, depths: map<PlannedId, nat>, node: PlannedId, best: nat)
    requires MemoExact(graph, maxDepth, depths)
    requires node in graph && BestParent(depths, graph[node], |graph[node]|, best)
    ensures LongestChain(graph, node, 1 + best)
  {
    if best == 0 {
      assert Chain(graph, [node]) && [node][0] == node;
    } else {
      var j :| 0 <= j < |graph[node]| && depths[graph[node][j]] == best;
      assert DepthExact(graph, maxDepth, graph[node][j], best);
      var p :| Chain(graph, p) && p[0] == graph[node][j] && |p| == best;
      ChainJoin(graph, [node], p);
      assert ([node] + p)[0] == node;
    }
    forall p | Chain(graph, p) && p[0] == node ensures |p| <= 1 + best {
      if |p| > 1 {
        ChainTail(graph, p, 1);
        assert p[1] in graph[node];
        var j :| 0 <= j < |graph[node]| && graph[node][j] == p[1];
        assert DepthExact(graph, maxDepth, p[1], depths[p[1]]);
        assert p[1..][0] == p[1];
      }
    }
  }

  lemma TooLong(graph: Graph, maxDepth: nat, node: PlannedId, depth: nat)
    requires LongestChain(graph, node, depth) && depth > maxDepth
    ensures !ChainsWithin(graph, maxDepth)
  {
    var p :| Chain(graph, p) && p[0] == node && |p| == depth;
  }

  /** When every node is memoised, nothing is wrong with the graph. */
  lemma AllVisited(graph: Graph, maxDepth: nat, depths: map<PlannedId, nat>)
    requires MemoExact(graph, maxDepth, depths) && depths.Keys == graph.Keys
    ensures Acyclic(graph) && ChainsWithin(graph, maxDepth)
  {
    forall p | Chain(graph, p) ensures |p| <= maxDepth && !Cycle(graph, p) {
      assert DepthExact(graph, maxDepth, p[0], depths[p[0]]);
      if Cycle(graph, p) {
        CycleHasNoLongestChain(graph, p, depths[p[0]]);
      }
    }
  }

  class Search {
    const graph: Graph
    const maxDepth: nat
    var visiting: set<PlannedId>
    var depths: map<PlannedId, nat>

    constructor (graph: Graph, maxDepth: nat)
      ensures this.graph == graph && this.maxDepth == maxDepth
      ensures visiting == {} && depths == map[]
    {
      this.graph, this.maxDepth := graph, maxDepth;
      visiting, depths := {}, map[];
    }

    /** Returns the node's longest chain, remembering it; a node met while it is being visited closes
        a cycle. The recursion ends because ever more of the graph is being visited. */
    method Visit(node: PlannedId, ghost path: seq<PlannedId>) returns (r: Result<nat, PlanError>)
      requires Closed(graph) && node in graph
      requires MemoExact(graph, maxDepth, depths) && OnPath(graph, visiting, path)
      requires path != [] ==> node in graph[path[|path| - 1]]
      modifies this`visiting, this`depths
      ensures r.Ok? ==> MemoExact(graph, maxDepth, depths) && Extends(old(depths), depths)
      ensures r.Ok? ==> visiting == old(visiting) && node in depths && depths[node] == r.value
      ensures r.Err? ==> r.error == PlanCycle || r.error == DependencyDepth
      ensures r == Err(PlanCycle) ==> !Acyclic(graph)
      ensures r == Err(DependencyDepth) ==> !ChainsWithin(graph, maxDepth)
      decreases graph.Keys - visiting
    {
      if node in visiting {
        PathClosesCycle(graph, visiting, path, node);
        return Err(PlanCycle);
      }
      if node in depths {
        return Ok(depths[node]);
      }
      PathExtends(graph, visiting, path, node);
      visiting := visiting + {node};
      var best := 0;
      var k := 0;
      while k < |graph[node]|
        invariant 0 <= k <= |graph[node]|
        invariant MemoExact(graph, maxDepth, depths) && Extends(old(depths), depths)
        invariant visiting == old(visiting) + {node}
        invariant BestParent(depths, graph[node], k, best)
      {
        ghost var before := depths;
        var parent := Visit(graph[node][k], path + [node]);
        if parent.Err? {
          return parent;
        }
        BetterParent(before, depths, graph[node], k, best, parent.value);
        if parent.value > best {
          best := parent.value;
        }
        k := k + 1;
      }
      visiting := visiting - {node};
      DepthIsLongest(graph, maxDepth, depths, node, best);
      var depth := 1 + best;
      if depth > maxDepth {
        TooLong(graph, maxDepth, node, depth);
        depths := depths[node := depth];
        return Err(DependencyDepth);
      }
      MemoAdds(graph, maxDepth, depths, node, depth);
      depths := depths[node := depth];
      return Ok(depth);
    }
  }

  lemma MemoAdds(graph: Graph, maxDepth: nat, depths: map<PlannedId, nat>, node: PlannedId, depth: nat)
    requires MemoExact(graph, maxDepth, depths) && node in graph && DepthExact(graph, maxDepth, node, depth)
    ensures MemoExact(graph, maxDepth, depths[node := depth])
    ensures node in depths ==> depths[node] == depth
  {
    var after := depths[node := depth];
    forall n | n in after ensures DepthExact(graph, maxDepth, n, after[n]) {
      assert n in depths ==> DepthExact(graph, maxDepth, n, depths[n]);
    }
    if node in depths {
      assert DepthExact(graph, maxDepth, node, depths[node]);
      LongestChainUnique(graph, node, depth, depths[node]);
    }
  }

  // ---------- Validation ----------

  method HasDuplicates(tasks: seq<PlannedTask>) returns (duplicates: bool)
    ensures duplicates <==> !DistinctIds(tasks)
  {
    var seen: set<PlannedId> := {};
    var k := 0;
    while k < |tasks|
      invariant 0 <= k <= |tasks|
      invariant forall j | 0 <= j < k :: tasks[j].id in seen
      invariant forall x | x in seen :: exists j :: 0 <= j < k && tasks[j].id == x
      invariant DistinctIds(tasks[..k])
    {
      if tasks[k].id in seen {
        return true;
      }
      seen := seen + {tasks[k].id};
      k := k + 1;
    }
    assert tasks[..k] == tasks;
    return false;
  }

  method TextCharacters(task: PlannedTask) returns (size: nat)
    ensures size == |task.id| + |task.title| + Characters(task.criteria)
  {
    size := 0;
    var k := 0;
    while k < |task.criteria|
      invariant 0 <= k <= |task.criteria|
      invariant size == Characters(task.criteria[..k])
    {
      assert task.criteria[..k + 1][..k] == task.criteria[..k];
      size := size + |task.criteria[k]|;
      k := k + 1;
    }
    assert task.criteria[..k] == task.criteria;
    size := |task.id| + |task.title| + size;
  }

  /** Accepts exactly the plans within the scalar limits whose graph is acyclic with chains no
      longer than the policy allows; any refusal names a check that really fails. */
  method ValidatePlan(request: Request, proposal: Proposal) returns (error: Option<PlanError>)
    ensures error.None? <==>
      && ScalarLimits(request, proposal)
      && Acyclic(GraphOf(proposal.tasks))
      && ChainsWithin(GraphOf(proposal.tasks), request.policy.maxDependencyDepth)
    ensures error.Some? ==> ErrorExplained(request, proposal, error.value)
  {
    var tasks := proposal.tasks;
    if proposal.workspace != request.workspace || proposal.goal != request.goal {
      return Some(WorkspaceOrGoal);
    }
    if tasks == [] || |tasks| > request.policy.maxTasks {
      return Some(TaskCount);
    }
    var duplicates := HasDuplicates(tasks);
    if duplicates {
      return Some(DuplicateTaskId);
    }
    var size := 0;
    var graph: Graph := map[];
    var k := 0;
    while k < |tasks|
      invariant 0 <= k <= |tasks|
      invariant forall j | 0 <= j < k :: TaskError(request, tasks, tasks[j]).None?
      invariant size == TextSize(tasks[..k]) && graph == GraphOf(tasks[..k])
    {
      if TaskError(request, tasks, tasks[k]).Some? {
        return TaskError(request, tasks, tasks[k]);
      }
      assert tasks[..k + 1][..k] == tasks[..k];
      graph := graph[tasks[k].id := tasks[k].dependencies];
      var text := TextCharacters(tasks[k]);
      size := size + text;
      k := k + 1;
    }
    assert tasks[..k] == tasks;
    if size > request.policy.maxPlanText {
      return Some(TextLimit);
    }
    GraphClosed(request, tasks);
    error := SearchDepths(tasks, graph, request.policy.maxDependencyDepth);
  }

  lemma GraphClosed(request: Request, tasks: seq<PlannedTask>)
    requires DistinctIds(tasks) && TasksHold(request, tasks)
    ensures Closed(GraphOf(tasks))
  {
    forall id, d | id in GraphOf(tasks) && d in GraphOf(tasks)[id] ensures d in GraphOf(tasks) {
      var k :| 0 <= k < |tasks| && tasks[k].id == id;
      GraphLooksUp(tasks, k);
      assert TaskError(request, tasks, tasks[k]).None?;
    }
  }

  method SearchDepths(tasks: seq<PlannedTask>, graph: Graph, maxDepth: nat) returns (error: Option<PlanError>)
    requires graph == GraphOf(tasks) && Closed(graph)
    ensures error.None? <==> Acyclic(graph) && ChainsWithin(graph, maxDepth)
    ensures error == Some(PlanCycle) ==> !Acyclic(graph)
    ensures error == Some(DependencyDepth) ==> !ChainsWithin(graph, maxDepth)
    ensures error.Some? ==> error.value == PlanCycle || error.value == DependencyDepth
  {
    var search := new Search(graph, maxDepth);
    var k := 0;
    while k < |tasks|
      invariant 0 <= k <= |tasks|
      invariant search.graph == graph && search.maxDepth == maxDepth
      invariant MemoExact(graph, maxDepth, search.depths) && search.visiting == {}
      invariant forall j | 0 <= j < k :: tasks[j].id in search.depths
    {
      ghost var before := search.depths;
      var visited := search.Visit(tasks[k].id, []);
      if visited.Err? {
        return Some(visited.error);
      }
      assert Extends(before, search.depths);
      k := k + 1;
    }
    AllVisited(graph, maxDepth, search.depths);
    return None;
  }
}
