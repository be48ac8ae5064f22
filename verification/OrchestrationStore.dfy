/** The orchestrator as it runs: its records reassigned in place beside the entity store, each
    transaction putting both back when a guard refuses. */
module OrchestrationStore {
  import opened Prelude
  import opened Plans
  import opened PlanValidation
  import opened AgentSelection
  import opened Orchestration
  import opened OrchestrationSafety
  import opened LifecycleStore
  import L = Lifecycle
  import R = OrchestrationRuns
  import S = LifecycleSafety

  ghost predicate Committed(outcome: Outcome, before: State, refused: Option<Refusal>, after: State) {
    match outcome
    case Refused(rule) => refused == Some(rule) && after == before
    case Done(s) => refused == None && after == s
  }

  class Orchestrator {
    const store: DomainStore
    const workspace: nat
    const goal: L.EntityId
    const policy: Policy
    var run: Run
    var plans: seq<PlanVersion>
    var lineages: map<nat, Lineage>
    var delegations: seq<Delegation>
    var children: seq<Child>
    var reconciled: set<(nat, nat)>
    ghost var starts: seq<Start>

    ghost function Contents(): (s: State)
      reads this, store
    {
      State(store.Contents(), workspace, goal, policy, run, plans, lineages, delegations, children, reconciled, starts)
    }

    constructor (store: DomainStore, workspace: nat, goal: L.EntityId, policy: Policy)
      ensures this.store == store && this.workspace == workspace && this.goal == goal && this.policy == policy
      ensures Started(Contents()) && store.Contents() == old(store.Contents())
    {
      this.store, this.workspace, this.goal, this.policy := store, workspace, goal, policy;
      run := Run(Planning, 1, 0, None, 0, 0, 0);
      plans, lineages, delegations, children, reconciled, starts := [], map[], [], [], {}, [];
    }

    method GoalIsCurrent(version: nat) returns (current: bool)
      ensures current == GoalCurrent(Contents(), version)
    {
      if !L.Exists(store.entities, L.GoalKind, goal) {
        return false;
      }
      var g := L.Get(store.entities, L.GoalKind, goal);
      return g.version == version && g.status == L.Active;
    }

    // ---------- Plans ----------

    method PlanIsAcceptable(agents: seq<AgentItem>, proposal: Proposal) returns (acceptable: bool)
      ensures acceptable == PlanAcceptable(policy, workspace, goal, agents, proposal)
    {
      var error := ValidatePlan(Request(workspace, goal, agents, policy), proposal);
      return error.None?;
    }

    method AcceptPlan(agents: seq<AgentItem>, goalVersion: nat, proposal: Proposal, selectable: bool, replan: bool)
      returns (refused: Option<Refusal>)
      modifies this
      ensures Committed(
        Accept(old(Contents()), agents, goalVersion, proposal, selectable, replan), old(Contents()), refused,
            Contents())
    {
      var current := GoalIsCurrent(goalVersion);
      if !current {
        return Some(VersionConflict);
      }
      var acceptable := PlanIsAcceptable(agents, proposal);
      if !acceptable {
        return Some(PlanRejected);
      }
      refused := AddPlan(goalVersion, proposal, selectable, replan);
    }

    method AddPlan(goalVersion: nat, proposal: Proposal, selectable: bool, replan: bool)
      returns (refused: Option<Refusal>)
      modifies this
      ensures Committed(
        StorePlan(old(Contents()), goalVersion, proposal, selectable, replan), old(Contents()), refused, Contents())
    {
      if !selectable {
        return Some(NobodyCanServe);
      }
      if replan && plans != [] && !KeepsTasks(plans[|plans| - 1].proposal.tasks, proposal.tasks) {
        return Some(OrphansTasks);
      }
      if run.Ended() {
        return Some(InvalidTransition);
      }
      if replan && run.replans + 1 > policy.maxReplans {
        return Some(BudgetExceeded);
      }
      plans := plans + [PlanVersion(proposal, goalVersion)];
      run := Evolve(run, Running).(current := |plans|, replans := if replan then run.replans + 1 else run.replans);
      return None;
    }

    // ---------- Materialisation ----------

    /** Later versions overwrite earlier ones, entry by entry. */
    method CollectLineage(upto: nat) returns (known: map<PlannedId, L.EntityId>)
      ensures known == PriorLineage(lineages, upto)
    {
      known := map[];
      var v := 0;
      while v < upto
        invariant 0 <= v <= upto
        invariant known == PriorLineage(lineages, v)
      {
        v := v + 1;
        if v in lineages {
          var lineage := lineages[v];
          ghost var before := known;
          var k := 0;
          while k < |lineage|
            invariant 0 <= k <= |lineage|
            invariant known == AddLineage(before, lineage[..k])
          {
            assert lineage[..k + 1][..k] == lineage[..k];
            known := known[lineage[k].planned := lineage[k].task];
            k := k + 1;
          }
          assert lineage[..k] == lineage;
        }
      }
    }

    /** Walks the plan, creating a task wherever none is known; the first refusal stops the walk. */
    method AllotTasks(prior: map<PlannedId, L.EntityId>, tasks: seq<PlannedTask>, ids: seq<L.EntityId>, at: int)
      returns (result: Result<Lineage, L.Rule>)
      requires |ids| == |tasks|
      modifies store
      ensures match Allot(old(store.Contents()), workspace, goal, prior, tasks, ids, at)
        case Err(rule) => result == Err(rule)
        case Ok((domain, lineage)) => result == Ok(lineage) && store.Contents() == domain
    {
      var lineage: Lineage := [];
      var k := 0;
      while k < |tasks|
        invariant 0 <= k <= |tasks|
        invariant Allot(old(store.Contents()), workspace, goal, prior, tasks[..k], ids[..k], at)
          == Ok((store.Contents(), lineage))
      {
        assert tasks[..k + 1][..k] == tasks[..k] && ids[..k + 1][..k] == ids[..k];
        var id := tasks[k].id;
        if id in prior {
          lineage := lineage + [Materialized(id, prior[id])];
        } else {
          var refused := store.CreateTask(ids[k], workspace, goal, at);
          if refused.Some? {
            AllotStops(old(store.Contents()), workspace, goal, prior, tasks, ids, at, k + 1, refused.value);
            return Err(refused.value);
          }
          lineage := lineage + [Materialized(id, ids[k])];
        }
        k := k + 1;
      }
      assert tasks[..k] == tasks && ids[..k] == ids;
      return Ok(lineage);
    }

    method OpenRunningExecution(id: L.EntityId, retryOf: Option<L.EntityId>, at: int) returns (refused: Option<L.Rule>)
      modifies store
      ensures match OpenExecution(old(store.Contents()), workspace, goal, policy.maxAgentRuns, id, retryOf, at)
        case Refused(rule) => refused == Some(rule)
        case Done(domain) => refused == None && store.Contents() == domain
    {
      refused := store.CreateExecution(id, workspace, goal, policy.maxAgentRuns, retryOf, at);
      if refused.None? {
        refused := store.MoveTo(L.Key(L.ExecutionKind, id), 1, L.Running, at);
      }
    }

    method MaterializePlan(expected: nat, ids: seq<L.EntityId>, execution: L.EntityId, at: int)
      returns (refused: Option<Refusal>)
      modifies this, store
      ensures Committed(Materialize(old(Contents()), expected, ids, execution, at), old(Contents()), refused,
        Contents())
    {
      if run.version != expected {
        return Some(VersionConflict);
      }
      if run.status != Running || !(1 <= run.current <= |plans|) {
        return Some(PlanNotReady);
      }
      var plan := plans[run.current - 1];
      var current := GoalIsCurrent(plan.goalVersion);
      if !current {
        return Some(VersionConflict);
      }
      if run.current in lineages {
        return None;
      }
      if |ids| != |plan.proposal.tasks| {
        return Some(PlanNotReady);
      }
      var snapshot := store.Contents();
      var prior := CollectLineage(|plans| - 1);
      var allotted := AllotTasks(prior, plan.proposal.tasks, ids, at);
      if allotted.Err? {
        store.Rollback(snapshot);
        return Some(DomainRefused(allotted.error));
      }
      var running := execution;
      if run.execution.Some? {
        running := run.execution.value;
      } else {
        var failed := OpenRunningExecution(execution, None, at);
        if failed.Some? {
          store.Rollback(snapshot);
          return Some(DomainRefused(failed.value));
        }
      }
      lineages := lineages[run.current := allotted.value];
      run := Evolve(run, run.status).(execution := Some(running));
      return None;
    }

    // ---------- Delegation ----------

    method Previous(task: L.EntityId) returns (previous: seq<Delegation>)
      ensures previous == DelegationsOf(delegations, task)
    {
      previous := [];
      var k := 0;
      while k < |delegations|
        invariant 0 <= k <= |delegations|
        invariant previous == DelegationsOf(delegations[..k], task)
      {
        assert delegations[..k + 1][..k] == delegations[..k];
        if delegations[k].task == task {
          previous := previous + [delegations[k]];
        }
        k := k + 1;
      }
      assert delegations[..k] == delegations;
    }

    method CountBusy() returns (count: nat)
      ensures count == BusyCount(children, |delegations|)
    {
      count := 0;
      var k := 0;
      while k < |delegations|
        invariant 0 <= k <= |delegations|
        invariant count == BusyCount(children, k)
      {
        if Busy(children, k) {
          count := count + 1;
        }
        k := k + 1;
      }
    }

    /** A retry or redelegation needs budget and a failed last attempt. */
    method CheckMode(task: L.EntityId, mode: Mode, previous: seq<Delegation>) returns (refused: Option<Refusal>)
      requires previous == DelegationsOf(delegations, task)
      ensures refused == ModeError(Contents(), task, mode)
    {
      if mode == FirstTime {
        return if previous != [] then Some(AlreadyDelegated) else None;
      }
      if mode == Retry && (previous == [] || previous[|previous| - 1].retry >= policy.maxRetriesPerTask) {
        return Some(RetryLimit);
      }
      if mode == Redelegate
        && (previous == [] || previous[|previous| - 1].redelegation >= policy.maxRedelegationsPerTask)
      {
        return Some(RedelegationLimit);
      }
      if LatestChild(children, LastIndex(delegations, task)) != Some(ChildFailed) {
        return Some(RetryRequiresFailedRun);
      }
      return None;
    }

    /** Chooses an agent and assigns the task; without one, the orchestration waits. */
    method DelegateTask(planned: PlannedTask, task: L.EntityId, expected: nat, mode: Mode, candidates: seq<Candidate>)
      returns (refused: Option<Refusal>, choice: Option<Candidate>)
      requires Offered(mode, DelegationsOf(delegations, task), candidates)
      modifies this
      ensures Selected(
        workspace, planned.requirements, candidates, Excluded(mode, DelegationsOf(old(delegations), task)), choice)
      ensures Committed(Delegate(old(Contents()), planned, task, expected, mode, choice), old(Contents()), refused,
        Contents())
    {
      var previous := Previous(task);
      choice := SelectAgent(workspace, planned.requirements, candidates, Excluded(mode, previous));
      if run.version != expected {
        refused := Some(VersionConflict);
        return;
      }
      var ready := TaskReady(planned, task);
      if !ready {
        refused := Some(TaskNotReady);
        return;
      }
      if run.agentRuns + run.replans >= policy.maxIterations {
        refused := Some(BudgetExceeded);
        return;
      }
      var busy := CountBusy();
      if mode == FirstTime && busy >= policy.maxParallelWidth {
        refused := Some(ParallelWidth);
        return;
      }
      if mode == FirstTime && previous != [] && LatestChild(children, LastIndex(delegations, task)).None? {
        refused := None;
        return;
      }
      refused := CheckMode(task, mode, previous);
      if refused.Some? {
        return;
      }
      if choice.None? {
        run := Evolve(run, Waiting);
      } else {
        delegations := delegations + [NewDelegation(previous, planned.id, task, choice.value.Identity(), mode)];
      }
    }

    method TaskReady(planned: PlannedTask, task: L.EntityId) returns (ready: bool)
      ensures ready == IsReady(Contents(), planned, task)
    {
      if run.status != Running || !(1 <= run.current <= |plans|) || run.current !in lineages {
        return false;
      }
      var lineage := lineages[run.current];
      return planned in plans[run.current - 1].proposal.tasks
             && TaskFor(lineage, planned.id) == Some(task)
             && ReadyPlanned(Lookups(), lineage, planned);
    }

    function Lookups(): L.Store
      reads this, store
    {
      store.Contents()
    }

    // ---------- Starting a child ----------

    method ReadyTask(task: L.EntityId, at: int) returns (refused: Option<L.Rule>)
      requires S.Inv(store.Contents()) && L.Exists(store.entities, L.TaskKind, task)
      modifies store
      ensures match Ready(old(store.Contents()), task, at)
        case Refused(rule) => refused == Some(rule)
        case Done(domain) => refused == None && store.Contents() == domain && S.Inv(domain)
    {
      var t := L.Get(store.entities, L.TaskKind, task);
      if t.status == L.Proposed {
        ghost var before := store.Contents();
        refused := store.MoveTo(L.Key(L.TaskKind, task), t.version, L.Ready, at);
        if refused.None? {
          S.MoveCommandKeeps(before, L.Key(L.TaskKind, task), t.version, L.Ready, at);
        }
      } else {
        refused := None;
      }
    }

    /** Ready, start, attempt, start the attempt. */
    method BeginWork(task: L.EntityId, execution: L.EntityId, attempt: L.EntityId, at: int)
      returns (refused: Option<L.Rule>)
      requires S.Inv(store.Contents())
      modifies store
      ensures match StartWork(old(store.Contents()), workspace, task, execution, attempt, at)
        case Refused(rule) => refused == Some(rule)
        case Done(domain) => refused == None && store.Contents() == domain
    {
      if !L.Exists(store.entities, L.TaskKind, task) {
        return Some(L.NotFound);
      }
      refused := ReadyTask(task, at);
      if refused.Some? {
        return;
      }
      var key := L.Key(L.TaskKind, task);
      if key !in store.entities {
        return Some(L.NotFound);
      }
      var version := store.entities[key].version;
      ghost var before := store.Contents();
      refused := store.MoveTo(key, version, L.InProgress, at);
      if refused.Some? {
        return;
      }
      S.MoveCommandKeeps(before, key, version, L.InProgress, at);
      LineHolds(store.Contents(), task);
      refused := store.CreateAttempt(attempt, workspace, task, execution, at);
      if refused.None? {
        refused := store.MoveTo(L.Key(L.AttemptKind, attempt), 1, L.Running, at);
      }
    }

    method FindExecution(handed: Option<L.EntityId>, replacement: L.EntityId, at: int)
      returns (result: Result<(L.EntityId, Option<L.EntityId>), Refusal>)
      requires S.Inv(store.Contents())
      modifies store
      ensures match ExecutionFor(old(Contents()), handed, replacement, at)
        case Err(rule) => result == Err(rule)
        case Ok(Placement(domain, execution, own)) =>
          result == Ok((execution, own)) && store.Contents() == domain && S.Inv(domain)
    {
      var id := if handed.Some? then handed else run.execution;
      if id.Some? {
        if !L.Exists(store.entities, L.ExecutionKind, id.value) {
          return Err(DomainRefused(L.NotFound));
        }
        var e := L.Get(store.entities, L.ExecutionKind, id.value);
        if handed.Some? {
          if e.workspace != workspace || e.goal != goal || e.status != L.Running {
            return Err(ExecutionScope);
          }
          return Ok((id.value, run.execution));
        }
        if !e.Ended() {
          return Ok((id.value, id));
        }
      }
      ghost var before := store.Contents();
      var refused := OpenRunningExecution(replacement, id, at);
      if refused.Some? {
        return Err(DomainRefused(refused.value));
      }
      R.OpenExecutionKeeps(before, workspace, goal, policy.maxAgentRuns, replacement, id, at);
      return Ok((replacement, Some(replacement)));
    }

    method CheckStart(delegation: nat, planned: PlannedTask, expected: nat, selectable: bool)
      returns (refused: Option<Refusal>)
      ensures refused == StartFault(Contents(), delegation, planned, expected, selectable)
    {
      if run.version != expected {
        return Some(VersionConflict);
      }
      var failed := CountFailed();
      if || run.status != Running || delegation >= |delegations|
         || run.agentRuns >= policy.maxAgentRuns || failed >= policy.maxFailedAttempts
         || !(1 <= run.current <= |plans| && run.current in lineages)
         || planned.id != delegations[delegation].planned
      {
        return Some(DelegationBinding);
      }
      if !selectable {
        return Some(NobodyCanServe);
      }
      var ready := TaskReady(planned, delegations[delegation].task);
      return if ready then None else Some(TaskNotReady);
    }

    method StartChild(
      delegation: nat, planned: PlannedTask, expected: nat, selectable: bool,
      attempt: L.EntityId, handed: Option<L.EntityId>, replacement: L.EntityId, at: int)
      returns (refused: Option<Refusal>)
      requires S.Inv(store.Contents())
      modifies this, store
      ensures Committed(
        StartDelegation(old(Contents()), delegation, planned, expected, selectable, attempt, handed, replacement, at),
        old(Contents()), refused, Contents())
    {
      refused := CheckStart(delegation, planned, expected, selectable);
      if refused.Some? {
        return;
      }
      var task := delegations[delegation].task;
      var snapshot := store.Contents();
      var found := FindExecution(handed, replacement, at);
      if found.Err? {
        store.Rollback(snapshot);
        return Some(found.error);
      }
      var (execution, own) := found.value;
      var failure := BeginWork(task, execution, attempt, at);
      if failure.Some? {
        store.Rollback(snapshot);
        return Some(DomainRefused(failure.value));
      }
      children := children + [Child(delegation, ChildRunning, 1)];
      starts := starts + [Start(run.current, planned.id, task)];
      run := Evolve(run, run.status).(execution := own, agentRuns := run.agentRuns + 1);
      return None;
    }

    // ---------- Reconciling a child ----------

    method CountFailed() returns (count: nat)
      ensures count == FailedChildren(children)
    {
      count := 0;
      var k := 0;
      while k < |children|
        invariant 0 <= k <= |children|
        invariant count == FailedChildren(children[..k])
      {
        assert children[..k + 1][..k] == children[..k];
        if children[k].status == ChildFailed {
          count := count + 1;
        }
        k := k + 1;
      }
      assert children[..k] == children;
    }

    method ReconcileResult(child: nat, complete: bool, at: int) returns (refused: Option<Refusal>)
      modifies this, store
      ensures Committed(ReconcileChild(old(Contents()), child, complete, at), old(Contents()), refused, Contents())
    {
      if child >= |children| {
        return Some(DelegationBinding);
      }
      if run.Ended() || (child, children[child].version) in reconciled {
        return None;
      }
      var snapshot, before, seen := store.Contents(), run, reconciled;
      var result := children[child].status;
      var failed := CountFailed();
      var failures := if run.failures >= failed then run.failures else failed;
      var status := run.status;
      if result == ChildWaiting || failures >= policy.maxFailedAttempts {
        status := Waiting;
      }
      run := Evolve(run, status).(failures := failures);
      reconciled := reconciled + {(child, children[child].version)};
      if result != ChildSucceeded {
        return None;
      }
      if !(1 <= run.current <= |plans| && run.current in lineages) {
        run, reconciled := before, seen;
        return Some(PlanNotReady);
      }
      if !complete || !AllMaterialisedComplete(Lookups(), lineages[run.current]) {
        return None;
      }
      if !L.Exists(store.entities, L.GoalKind, goal) {
        run, reconciled := before, seen;
        return Some(DomainRefused(L.NotFound));
      }
      var failure := store.Satisfy(goal, L.Get(store.entities, L.GoalKind, goal).version, at);
      if failure.Some? {
        run, reconciled := before, seen;
        return Some(DomainRefused(failure.value));
      }
      if run.status != Running {
        store.Rollback(snapshot);
        run, reconciled := before, seen;
        return Some(InvalidTransition);
      }
      run := Evolve(run, Completed);
      return None;
    }
  }

  lemma LineHolds(domain: L.Store, task: L.EntityId)
    requires S.Inv(domain)
    ensures S.OneLine(domain.entities, task)
  {
    assert S.OneLine(domain.entities, task);
  }

  /** Once a prefix is refused, so is everything that extends it. */
  lemma {:induction false} AllotStops(
    domain: L.Store, workspace: nat, goal: L.EntityId, prior: map<PlannedId, L.EntityId>,
    tasks: seq<PlannedTask>, ids: seq<L.EntityId>, at: int, k: nat, rule: L.Rule)
    requires |ids| == |tasks| && k <= |tasks|
    requires Allot(domain, workspace, goal, prior, tasks[..k], ids[..k], at) == Err(rule)
    ensures Allot(domain, workspace, goal, prior, tasks, ids, at) == Err(rule)
    decreases |tasks|
  {
    if k == |tasks| {
      assert tasks[..k] == tasks && ids[..k] == ids;
    } else {
      var n := |tasks| - 1;
      assert tasks[..n][..k] == tasks[..k] && ids[..n][..k] == ids[..k];
      AllotStops(domain, workspace, goal, prior, tasks[..n], ids[..n], at, k, rule);
    }
  }
}
