/** Proposed plans and their dependency graphs. */
module Plans {
  type PlannedId = string

  datatype Policy = Policy(
    maxTasks: nat,
    maxDependenciesPerTask: nat,
    maxDependencyDepth: nat,
    maxPlanText: nat,
    maxReplans: nat,
    maxIterations: nat,
    maxParallelWidth: nat,
    maxAgentRuns: nat,
    maxFailedAttempts: nat,
    maxRetriesPerTask: nat,
    maxRedelegationsPerTask: nat)

  datatype Requirements = Requirements(
    capabilities: seq<string>,
    capabilityIds: seq<string>,
    toolIds: seq<string>,
    knowledgeSourceIds: seq<string>,
    memoryScopes: seq<string>,
    minAutonomy: nat)

  datatype AgentItem = AgentItem(
    definition: nat,
    version: nat,
    capabilities: seq<string>,
    capabilityIds: seq<string>,
    toolIds: seq<string>,
    knowledgeSourceIds: seq<string>,
    memoryScopes: seq<string>,
    autonomy: nat)

  datatype PlannedTask = PlannedTask(
    id: PlannedId,
    title: string,
    criteria: seq<string>,
    dependencies: seq<PlannedId>,
    requirements: Requirements,
    priority: nat)

  datatype Proposal = Proposal(workspace: nat, goal: nat, tasks: seq<PlannedTask>)

  datatype Request = Request(workspace: nat, goal: nat, agents: seq<AgentItem>, policy: Policy)

  /** The dependency graph of distinct tasks: each task's id maps to the ids it waits for. */
  type Graph = map<PlannedId, seq<PlannedId>>

  function GraphOf(tasks: seq<PlannedTask>): (graph: Graph)
    ensures forall id :: id in graph <==> exists k :: 0 <= k < |tasks| && tasks[k].id == id
  {
    if tasks == [] then map[]
    else GraphOf(tasks[..|tasks| - 1])[tasks[|tasks| - 1].id := tasks[|tasks| - 1].dependencies]
  }

  ghost predicate DistinctIds(tasks: seq<PlannedTask>) {
    forall j, k | 0 <= j < k < |tasks| :: tasks[j].id != tasks[k].id
  }

  lemma {:induction false} GraphLooksUp(tasks: seq<PlannedTask>, k: nat)
    requires DistinctIds(tasks) && k < |tasks|
    ensures tasks[k].id in GraphOf(tasks) && GraphOf(tasks)[tasks[k].id] == tasks[k].dependencies
  {
    if k < |tasks| - 1 {
      GraphLooksUp(tasks[..|tasks| - 1], k);
    }
  }

  // ---------- Dependency chains ----------

  /** Each element waits for the next. */
  ghost predicate Chain(graph: Graph, p: seq<PlannedId>) {
    && |p| > 0
    && (forall i | 0 <= i < |p| :: p[i] in graph)
    && (forall i | 0 <= i < |p| - 1 :: p[i + 1] in graph[p[i]])
  }

  ghost predicate Cycle(graph: Graph, p: seq<PlannedId>) {
    Chain(graph, p) && |p| > 1 && p[0] == p[|p| - 1]
  }

  ghost predicate Acyclic(graph: Graph) {
    forall p | Chain(graph, p) :: !Cycle(graph, p)
  }

  ghost predicate ChainsWithin(graph: Graph, bound: nat) {
    forall p | Chain(graph, p) :: |p| <= bound
  }

  /** `depth` is the length of the longest chain that starts at `node`. */
  ghost predicate LongestChain(graph: Graph, node: PlannedId, depth: nat) {
    && (exists p :: Chain(graph, p) && p[0] == node && |p| == depth)
    && (forall p | Chain(graph, p) && p[0] == node :: |p| <= depth)
  }

  ghost predicate Closed(graph: Graph) {
    forall id, d | id in graph && d in graph[id] :: d in graph
  }

  lemma ChainTail(graph: Graph, p: seq<PlannedId>, k: nat)
    requires Chain(graph, p) && k < |p|
    ensures Chain(graph, p[k..])
  {
  }

  lemma ChainJoin(graph: Graph, p: seq<PlannedId>, q: seq<PlannedId>)
    requires Chain(graph, p) && Chain(graph, q) && q[0] in graph[p[|p| - 1]]
    ensures Chain(graph, p + q)
  {
    var r := p + q;
    forall i | 0 <= i < |r| - 1 ensures r[i + 1] in graph[r[i]] {
      if i >= |p| {
        assert r[i] == q[i - |p|] && r[i + 1] == q[i - |p| + 1];
      }
    }
  }

  lemma LongerChain(graph: Graph, c: seq<PlannedId>, q: seq<PlannedId>)
    requires Cycle(graph, c) && Chain(graph, q) && q[0] == c[0]
    ensures exists p :: Chain(graph, p) && p[0] == c[0] && |p| > |q|
  {
    var around := c[..|c| - 1];
    assert Chain(graph, around);
    assert q[0] in graph[around[|around| - 1]];
    ChainJoin(graph, around, q);
    assert (around + q)[0] == c[0];
  }

  /** A node on a cycle starts chains of every length, so it has no longest one. */
  lemma CycleHasNoLongestChain(graph: Graph, c: seq<PlannedId>, depth: nat)
    requires Cycle(graph, c)
    ensures !LongestChain(graph, c[0], depth)
  {
    if LongestChain(graph, c[0], depth) {
      var q :| Chain(graph, q) && q[0] == c[0] && |q| == depth;
      LongerChain(graph, c, q);
    }
  }

  lemma LongestChainUnique(graph: Graph, node: PlannedId, depth: nat, other: nat)
    requires LongestChain(graph, node, depth) && LongestChain(graph, node, other)
    ensures depth == other
  {
  }
}
