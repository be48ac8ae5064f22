/** One orchestration of a goal: plans and replans, canonical tasks, delegations and child runs,
    on top of the entity store.

    Organization routing and policy allow-lists are an arbitrary filter on the candidates an event
    carries; the planner, the model and the aggregator answer anything.
  */
module Orchestration {
  import opened Prelude
  import opened Plans
  import opened PlanValidation
  import opened AgentSelection
  import L = Lifecycle

  datatype RunStatus = Planning | Running | Waiting | Completed | Failed | Cancelled

  datatype PlanVersion = PlanVersion(proposal: Proposal, goalVersion: nat)

  datatype Materialized = Materialized(planned: PlannedId, task: L.EntityId)

  type Lineage = seq<Materialized>

  datatype Run = Run(
    status: RunStatus,
    version: nat,
    current: nat,
    execution: Option<L.EntityId>,
    replans: nat,
    agentRuns: nat,
    failures: nat)
  {
    predicate Ended() { status == Completed || status == Failed || status == Cancelled }
  }

  datatype Delegation = Delegation(
    planned: PlannedId,
    task: L.EntityId,
    definition: (nat, nat),
    retry: nat,
    redelegation: nat)

  datatype ChildStatus = ChildRunning | ChildWaiting | ChildSucceeded | ChildFailed | ChildCancelled

  /** A delegation's attempt with the state and version of its agent run. */
  datatype Child = Child(delegation: nat, status: ChildStatus, version: nat)

  /** History: a task was started under a plan version. */
  datatype Start = Start(plan: nat, planned: PlannedId, task: L.EntityId)

  datatype State = State(
    domain: L.Store,
    workspace: nat,
    goal: L.EntityId,
    policy: Policy,
    run: Run,
    plans: seq<PlanVersion>,
    lineages: map<nat, Lineage>,
    delegations: seq<Delegation>,
    children: seq<Child>,
    reconciled: set<(nat, nat)>,
    starts: seq<Start>)

  datatype Refusal =
    | VersionConflict
    | PlanRejected
    | NobodyCanServe
    | OrphansTasks
    | InvalidTransition
    | BudgetExceeded
    | NotReplannable
    | PlanNotReady
    | DomainRefused(rule: L.Rule)
    | TaskNotReady
    | ParallelWidth
    | AlreadyDelegated
    | RetryLimit
    | RetryRequiresFailedRun
    | RedelegationLimit
    | DelegationBinding
    | ExecutionScope
    | AlreadyEnded

  datatype Outcome =
    | Refused(rule: Refusal)
    | Done(state: State)

  function Evolve(run: Run, status: RunStatus): Run { run.(status := status, version := run.version + 1) }

  // ---------- Plans ----------

  ghost predicate GoalCurrent(s: State, version: nat) {
    && L.Exists(s.domain.entities, L.GoalKind, s.goal)
    && L.Get(s.domain.entities, L.GoalKind, s.goal).version == version
    && L.Get(s.domain.entities, L.GoalKind, s.goal).status == L.Active
  }

  ghost predicate PlanAcceptable(
    policy: Policy, workspace: nat, goal: nat, agents: seq<AgentItem>, proposal: Proposal)
  {
    && ScalarLimits(Request(workspace, goal, agents, policy), proposal)
    && Acyclic(GraphOf(proposal.tasks))
    && ChainsWithin(GraphOf(proposal.tasks), policy.maxDependencyDepth)
  }

  predicate KeepsTasks(before: seq<PlannedTask>, after: seq<PlannedTask>) {
    forall t | t in before :: Known(after, t.id)
  }

  /** `_accept_plan`: one more plan version, which may not drop a task of the version before. */
  ghost function Accept(
    s: State, agents: seq<AgentItem>, goalVersion: nat, proposal: Proposal, selectable: bool, replan: bool): Outcome
  {
    if !GoalCurrent(s, goalVersion) then Refused(VersionConflict)
    else if !PlanAcceptable(s.policy, s.workspace, s.goal, agents, proposal) then Refused(PlanRejected)
    else StorePlan(s, goalVersion, proposal, selectable, replan)
  }

  /** What is left to check once the goal is current and the proposal valid. */
  function StorePlan(s: State, goalVersion: nat, proposal: Proposal, selectable: bool, replan: bool): Outcome {
    if !selectable then Refused(NobodyCanServe)
    else if && replan && s.plans != []
            && !KeepsTasks(s.plans[|s.plans| - 1].proposal.tasks, proposal.tasks)
    then Refused(OrphansTasks)
    else if s.run.Ended() then Refused(InvalidTransition)
    else if replan && s.run.replans + 1 > s.policy.maxReplans then Refused(BudgetExceeded)
    else Done(s.(
      plans := s.plans + [PlanVersion(proposal, goalVersion)],
      run := Evolve(s.run, Running).(
        current := |s.plans| + 1,
        replans := if replan then s.run.replans + 1 else s.run.replans)))
  }

  /** `replan` before it asks the planner. */
  function RequestReplan(s: State, expected: nat): Outcome {
    if s.run.version != expected then Refused(VersionConflict)
    else if s.run.status != Running && s.run.status != Waiting then Refused(NotReplannable)
    else if s.run.agentRuns + s.run.replans >= s.policy.maxIterations then Refused(BudgetExceeded)
    else if s.run.replans >= s.policy.maxReplans then Done(s.(run := Evolve(s.run, Waiting)))
    else Done(s.(run := Evolve(s.run, Planning)))
  }

  // ---------- Materialisation ----------

  function AddLineage(known: map<PlannedId, L.EntityId>, lineage: Lineage): map<PlannedId, L.EntityId> {
    if lineage == [] then known
    else
      var last := lineage[|lineage| - 1];
      AddLineage(known, lineage[..|lineage| - 1])[last.planned := last.task]
  }

  /** The canonical tasks of every plan version up to `upto` that was materialised, later versions last. */
  function PriorLineage(lineages: map<nat, Lineage>, upto: nat): map<PlannedId, L.EntityId> {
    if upto == 0 then map[]
    else if upto in lineages then AddLineage(PriorLineage(lineages, upto - 1), lineages[upto])
    else PriorLineage(lineages, upto - 1)
  }

  /** Known planned tasks keep their canonical task; each other one gets a task of its own. */
  function Allot(
    domain: L.Store, workspace: nat, goal: L.EntityId, prior: map<PlannedId, L.EntityId>,
    tasks: seq<PlannedTask>, ids: seq<L.EntityId>, at: int): Result<(L.Store, Lineage), L.Rule>
    requires |ids| == |tasks|
  {
    if tasks == [] then Ok((domain, []))
    else
      var n := |tasks| - 1;
      match Allot(domain, workspace, goal, prior, tasks[..n], ids[..n], at)
      case Err(rule) => Err(rule)
      case Ok((before, lineage)) =>
        if tasks[n].id in prior then Ok((before, lineage + [Materialized(tasks[n].id, prior[tasks[n].id])]))
        else match L.NewTask(before, ids[n], workspace, goal, at)
          case Refused(rule) => Err(rule)
          case Done(after) => Ok((after, lineage + [Materialized(tasks[n].id, ids[n])]))
  }

  /** A new execution for the orchestration, already running. */
  function OpenExecution(
    domain: L.Store, workspace: nat, goal: L.EntityId, bound: nat, id: L.EntityId, retryOf: Option<L.EntityId>, at: int)
    : L.Outcome
  {
    match L.NewExecution(domain, id, workspace, goal, bound, retryOf, at)
    case Refused(rule) => L.Refused(rule)
    case Done(created) => L.MoveEntity(created, L.Key(L.ExecutionKind, id), 1, L.Running, at)
  }

  /** `materialize`: idempotent per plan version. */
  ghost function Materialize(s: State, expected: nat, ids: seq<L.EntityId>, execution: L.EntityId, at: int): Outcome {
    if s.run.version != expected then Refused(VersionConflict)
    else if s.run.status != Running || !(1 <= s.run.current <= |s.plans|) then Refused(PlanNotReady)
    else
      var plan := s.plans[s.run.current - 1];
      if !GoalCurrent(s, plan.goalVersion) then Refused(VersionConflict)
      else if s.run.current in s.lineages then Done(s)
      else if |ids| != |plan.proposal.tasks| then Refused(PlanNotReady)
      else
        var prior := PriorLineage(s.lineages, |s.plans| - 1);
        match Allot(s.domain, s.workspace, s.goal, prior, plan.proposal.tasks, ids, at)
        case Err(rule) => Refused(DomainRefused(rule))
        case Ok((domain, lineage)) =>
          if s.run.execution.Some? then Done(Materialised(s, domain, lineage, s.run.execution.value))
          else match OpenExecution(domain, s.workspace, s.goal, s.policy.maxAgentRuns, execution, None, at)
            case Refused(rule) => Refused(DomainRefused(rule))
            case Done(running) => Done(Materialised(s, running, lineage, execution))
  }

  function Materialised(s: State, domain: L.Store, lineage: Lineage, execution: L.EntityId): State {
    s.(domain := domain,
       lineages := s.lineages[s.run.current := lineage],
       run := Evolve(s.run, s.run.status).(execution := Some(execution)))
  }

  // ---------- Readiness ----------

  predicate HasCurrent(s: State) {
    1 <= s.run.current <= |s.plans| && s.run.current in s.lineages
  }

  function TaskFor(lineage: Lineage, planned: PlannedId): Option<L.EntityId> {
    if lineage == [] then None
    else if lineage[0].planned == planned then Some(lineage[0].task)
    else TaskFor(lineage[1..], planned)
  }

  predicate TaskIs(domain: L.Store, task: Option<L.EntityId>, statuses: set<L.Status>) {
    && task.Some?
    && L.Exists(domain.entities, L.TaskKind, task.value)
    && L.Get(domain.entities, L.TaskKind, task.value).status in statuses
  }

  predicate DependenciesDone(domain: L.Store, lineage: Lineage, planned: PlannedTask) {
    forall d | d in planned.dependencies :: TaskIs(domain, TaskFor(lineage, d), {L.Completed})
  }

  predicate ReadyPlanned(domain: L.Store, lineage: Lineage, planned: PlannedTask) {
    && TaskIs(domain, TaskFor(lineage, planned.id), {L.Proposed, L.Ready})
    && DependenciesDone(domain, lineage, planned)
  }

  /** The task is open and everything its plan makes it wait for is completed. */
  predicate IsReady(s: State, planned: PlannedTask, task: L.EntityId) {
    && s.run.status == Running
    && HasCurrent(s)
    && planned in s.plans[s.run.current - 1].proposal.tasks
    && TaskFor(s.lineages[s.run.current], planned.id) == Some(task)
    && ReadyPlanned(s.domain, s.lineages[s.run.current], planned)
  }

  // ---------- Delegation ----------

  function DelegationsOf(delegations: seq<Delegation>, task: L.EntityId): seq<Delegation> {
    if delegations == [] then []
    else
      var last := delegations[|delegations| - 1];
      DelegationsOf(delegations[..|delegations| - 1], task) + (if last.task == task then [last] else [])
  }

  function LastIndex(delegations: seq<Delegation>, task: L.EntityId): (k: nat)
    requires DelegationsOf(delegations, task) != []
    ensures k < |delegations| && delegations[k].task == task
    ensures delegations[k] == DelegationsOf(delegations, task)[|DelegationsOf(delegations, task)| - 1]
  {
    if delegations[|delegations| - 1].task == task then |delegations| - 1
    else LastIndex(delegations[..|delegations| - 1], task)
  }

  function LatestChild(children: seq<Child>, delegation: nat): Option<ChildStatus> {
    if children == [] then None
    else
      var last := children[|children| - 1];
      if last.delegation == delegation then Some(last.status)
      else LatestChild(children[..|children| - 1], delegation)
  }

  predicate Busy(children: seq<Child>, delegation: nat) {
    var latest := LatestChild(children, delegation);
    latest.None? || latest.value == ChildRunning || latest.value == ChildWaiting
  }

  function BusyCount(children: seq<Child>, delegations: nat): nat {
    if delegations == 0 then 0
    else BusyCount(children, delegations - 1) + (if Busy(children, delegations - 1) then 1 else 0)
  }

  datatype Mode = FirstTime | Retry | Redelegate

  function Definitions(previous: seq<Delegation>): set<(nat, nat)> {
    set d | d in previous :: d.definition
  }

  /** The candidates a delegation may choose from: a retry keeps its definition. */
  predicate Offered(mode: Mode, previous: seq<Delegation>, candidates: seq<Candidate>) {
    mode == Retry && previous != [] ==>
      forall c | c in candidates :: c.Identity() == previous[|previous| - 1].definition
  }

  function Excluded(mode: Mode, previous: seq<Delegation>): set<(nat, nat)> {
    if mode == Redelegate then Definitions(previous) else {}
  }

  function ModeError(s: State, task: L.EntityId, mode: Mode): Option<Refusal> {
    var previous := DelegationsOf(s.delegations, task);
    match mode
    case FirstTime => if previous != [] then Some(AlreadyDelegated) else None
    case Retry =>
      if previous == [] || previous[|previous| - 1].retry >= s.policy.maxRetriesPerTask then Some(RetryLimit)
      else if LatestChild(s.children, LastIndex(s.delegations, task)) != Some(ChildFailed)
        then Some(RetryRequiresFailedRun)
      else None
    case Redelegate =>
      if previous == [] || previous[|previous| - 1].redelegation >= s.policy.maxRedelegationsPerTask
      then Some(RedelegationLimit)
      else if LatestChild(s.children, LastIndex(s.delegations, task)) != Some(ChildFailed)
        then Some(RetryRequiresFailedRun)
      else None
  }

  function NewDelegation(
    previous: seq<Delegation>, planned: PlannedId, task: L.EntityId, definition: (nat, nat), mode: Mode)
    : Delegation
  {
    if previous == [] then Delegation(planned, task, definition, 0, 0)
    else
      var last := previous[|previous| - 1];
      Delegation(
        planned, task, definition,
        last.retry + (if mode == Retry then 1 else 0),
        last.redelegation + (if mode == Redelegate then 1 else 0))
  }

  /** `delegate`. `choice` is the selector's answer for the offered candidates. */
  function Delegate(
    s: State, planned: PlannedTask, task: L.EntityId, expected: nat, mode: Mode, choice: Option<Candidate>): Outcome
  {
    var previous := DelegationsOf(s.delegations, task);
    if s.run.version != expected then Refused(VersionConflict)
    else if !IsReady(s, planned, task) then Refused(TaskNotReady)
    else if s.run.agentRuns + s.run.replans >= s.policy.maxIterations then Refused(BudgetExceeded)
    else if mode == FirstTime && BusyCount(s.children, |s.delegations|) >= s.policy.maxParallelWidth
    then Refused(ParallelWidth)
    else if && mode == FirstTime && previous != []
            && LatestChild(s.children, LastIndex(s.delegations, task)).None?
    then Done(s)
    else if ModeError(s, task, mode).Some? then Refused(ModeError(s, task, mode).value)
    else match choice
      case None => Done(s.(run := Evolve(s.run, Waiting)))
      case Some(c) =>
        Done(s.(delegations := s.delegations + [NewDelegation(previous, planned.id, task, c.Identity(), mode)]))
  }

  // ---------- Child runs ----------

  function FailedChildren(children: seq<Child>): nat {
    if children == [] then 0
    else
      FailedChildren(children[..|children| - 1]) + (if children[|children| - 1].status == ChildFailed then 1 else 0)
  }

  function Ready(domain: L.Store, task: L.EntityId, at: int): L.Outcome
    requires L.Exists(domain.entities, L.TaskKind, task)
  {
    var t := L.Get(domain.entities, L.TaskKind, task);
    if t.status != L.Proposed then L.Done(domain)
    else L.MoveEntity(domain, L.Key(L.TaskKind, task), t.version, L.Ready, at)
  }

  /** Ready, start, attempt and start the attempt, in one transaction. */
  ghost function StartWork(
    domain: L.Store, workspace: nat, task: L.EntityId, execution: L.EntityId, attempt: L.EntityId, at: int)
    : L.Outcome
  {
    if !L.Exists(domain.entities, L.TaskKind, task) then L.Refused(L.NotFound)
    else match Ready(domain, task, at)
      case Refused(rule) => L.Refused(rule)
      case Done(d1) =>
        var key := L.Key(L.TaskKind, task);
        if key !in d1.entities then L.Refused(L.NotFound)
        else match L.MoveEntity(d1, key, d1.entities[key].version, L.InProgress, at)
          case Refused(rule) => L.Refused(rule)
          case Done(d2) =>
            match L.NewAttempt(d2, attempt, workspace, task, execution, at)
            case Refused(rule) => L.Refused(rule)
            case Done(d3) => L.MoveEntity(d3, L.Key(L.AttemptKind, attempt), 1, L.Running, at)
  }

  /** The child's execution, and the orchestration's from then on. */
  datatype Placement = Placement(domain: L.Store, execution: L.EntityId, own: Option<L.EntityId>)

  /** An execution handed over must be running for this goal; else it is the orchestration's own, or a
      running replacement for an ended one. */
  function ExecutionFor(s: State, handed: Option<L.EntityId>, replacement: L.EntityId, at: int)
    : Result<Placement, Refusal>
  {
    var id := if handed.Some? then handed else s.run.execution;
    if id.Some? && !L.Exists(s.domain.entities, L.ExecutionKind, id.value) then Err(DomainRefused(L.NotFound))
    else if handed.Some? then
      var e := L.Get(s.domain.entities, L.ExecutionKind, handed.value);
      if e.workspace != s.workspace || e.goal != s.goal || e.status != L.Running then Err(ExecutionScope)
      else Ok(Placement(s.domain, handed.value, s.run.execution))
    else if id.Some? && !L.Get(s.domain.entities, L.ExecutionKind, id.value).Ended() then
      Ok(Placement(s.domain, id.value, id))
    else match OpenExecution(s.domain, s.workspace, s.goal, s.policy.maxAgentRuns, replacement, id, at)
      case Refused(rule) => Err(DomainRefused(rule))
      case Done(running) => Ok(Placement(running, replacement, Some(replacement)))
  }

  /** What a delegation must meet before its work may start. */
  function StartFault(s: State, delegation: nat, planned: PlannedTask, expected: nat, selectable: bool)
    : Option<Refusal>
  {
    if s.run.version != expected then Some(VersionConflict)
    else if
      || s.run.status != Running
      || delegation >= |s.delegations|
      || s.run.agentRuns >= s.policy.maxAgentRuns
      || FailedChildren(s.children) >= s.policy.maxFailedAttempts
      || !HasCurrent(s)
      || planned.id != s.delegations[delegation].planned
    then Some(DelegationBinding)
    else if !selectable then Some(NobodyCanServe)
    else if !IsReady(s, planned, s.delegations[delegation].task) then Some(TaskNotReady)
    else None
  }

  /** `start_delegation`: claims one more child run for a delegation whose task is still ready. */
  ghost function StartDelegation(
    s: State, delegation: nat, planned: PlannedTask, expected: nat, selectable: bool,
    attempt: L.EntityId, handed: Option<L.EntityId>, replacement: L.EntityId, at: int): Outcome
  {
    var fault := StartFault(s, delegation, planned, expected, selectable);
    if fault.Some? then Refused(fault.value)
    else
      var task := s.delegations[delegation].task;
      match ExecutionFor(s, handed, replacement, at)
        case Err(rule) => Refused(rule)
        case Ok(Placement(domain, execution, own)) =>
          match StartWork(domain, s.workspace, task, execution, attempt, at)
          case Refused(rule) => Refused(DomainRefused(rule))
          case Done(started) =>
            Done(s.(
              domain := started,
              children := s.children + [Child(delegation, ChildRunning, 1)],
              starts := s.starts + [Start(s.run.current, planned.id, task)],
              run := Evolve(s.run, s.run.status).(execution := own, agentRuns := s.run.agentRuns + 1)))
  }

  predicate AllMaterialisedComplete(domain: L.Store, lineage: Lineage) {
    forall k | 0 <= k < |lineage| :: TaskIs(domain, Some(lineage[k].task), {L.Completed})
  }

  function Max(a: nat, b: nat): nat { if a >= b then a else b }

  /** `_reconcile_result` for a child; each version of a child is reconciled once. `complete` is the
      aggregator's verdict. */
  function ReconcileChild(s: State, child: nat, complete: bool, at: int): Outcome {
    if child >= |s.children| then Refused(DelegationBinding)
    else if s.run.Ended() || (child, s.children[child].version) in s.reconciled then Done(s)
    else
      var result := s.children[child].status;
      var failures := Max(s.run.failures, FailedChildren(s.children));
      var status :=
        if result == ChildWaiting then Waiting
        else if failures >= s.policy.maxFailedAttempts then Waiting
        else s.run.status;
      var updated := Evolve(s.run, status).(failures := failures);
      var s1 := s.(run := updated, reconciled := s.reconciled + {(child, s.children[child].version)});
      if result != ChildSucceeded then Done(s1)
      else if !HasCurrent(s) then Refused(PlanNotReady)
      else if !complete || !AllMaterialisedComplete(s.domain, s.lineages[s.run.current]) then Done(s1)
      else if !L.Exists(s.domain.entities, L.GoalKind, s.goal) then Refused(DomainRefused(L.NotFound))
      else match L.Satisfy(s.domain, s.goal, L.Get(s.domain.entities, L.GoalKind, s.goal).version, at)
        case Refused(rule) => Refused(DomainRefused(rule))
        case Done(domain) =>
          if updated.status != Running then Refused(InvalidTransition)
          else Done(s1.(domain := domain, run := Evolve(updated, Completed)))
  }

  // ---------- Runs ----------

  datatype Event =
    | FirstPlan(agents: seq<AgentItem>, goalVersion: nat, proposal: Proposal, selectable: bool)
    | Replan(agents: seq<AgentItem>, goalVersion: nat, proposal: Proposal, selectable: bool)
    | AskReplan(expected: nat)
    | PlannerFails
    | MaterializePlan(expected: nat, ids: seq<L.EntityId>, execution: L.EntityId)
    | DelegateTask(
        planned: PlannedTask, task: L.EntityId, expected: nat, mode: Mode,
        candidates: seq<Candidate>, choice: Option<Candidate>)
    | StartChild(
        delegation: nat, planned: PlannedTask, expected: nat, selectable: bool,
        attempt: L.EntityId, handed: Option<L.EntityId>, replacement: L.EntityId)
    | ChildMoves(child: nat, status: ChildStatus)
    | Reconcile(child: nat, complete: bool)
    | Resume
    | Cancel
    | DomainCommand(cmd: L.Command)

  /** The first plan is the continuation of the run's creation; the selector answers truthfully. */
  ghost function Try(s: State, e: Event, at: int): Outcome {
    match e
    case FirstPlan(agents, goalVersion, proposal, selectable) =>
      if s.plans != [] then Refused(InvalidTransition) else Accept(s, agents, goalVersion, proposal, selectable, false)
    case Replan(agents, goalVersion, proposal, selectable) =>
      if s.plans == [] then Refused(NotReplannable) else Accept(s, agents, goalVersion, proposal, selectable, true)
    case AskReplan(expected) => RequestReplan(s, expected)
    case PlannerFails =>
      if s.run.Ended() then Refused(AlreadyEnded)
      else Done(s.(run := Evolve(s.run, if s.plans == [] then Failed else Waiting)))
    case MaterializePlan(expected, ids, execution) => Materialize(s, expected, ids, execution, at)
    case DelegateTask(planned, task, expected, mode, candidates, choice) =>
      var previous := DelegationsOf(s.delegations, task);
      if || !Offered(mode, previous, candidates)
         || !Selected(s.workspace, planned.requirements, candidates, Excluded(mode, previous), choice)
      then Refused(NobodyCanServe)
      else Delegate(s, planned, task, expected, mode, choice)
    case StartChild(delegation, planned, expected, selectable, attempt, handed, replacement) =>
      StartDelegation(s, delegation, planned, expected, selectable, attempt, handed, replacement, at)
    case ChildMoves(child, status) =>
      if child >= |s.children| || (s.children[child].status != ChildRunning && s.children[child].status != ChildWaiting)
      then Refused(DelegationBinding)
      else Done(s.(children := s.children[child := Moved(s.children[child], status)]))
    case Reconcile(child, complete) => ReconcileChild(s, child, complete, at)
    case Resume =>
      if s.run.status != Waiting then Refused(InvalidTransition) else Done(s.(run := Evolve(s.run, Running)))
    case Cancel => if s.run.Ended() then Refused(AlreadyEnded) else Done(s.(run := Evolve(s.run, Cancelled)))
    case DomainCommand(cmd) => Done(s.(domain := L.After(s.domain, cmd, at)))
  }

  function Moved(child: Child, status: ChildStatus): Child {
    child.(status := status, version := child.version + 1)
  }

  ghost function Step(s: State, e: Event, at: int): State {
    match Try(s, e, at)
    case Refused(_) => s
    case Done(s') => s'
  }

  /** `start`: a run over an existing store, with nothing planned yet. */
  ghost predicate Started(s: State) {
    && s.run == Run(Planning, 1, 0, None, 0, 0, 0)
    && s.plans == [] && s.lineages == map[] && s.delegations == [] && s.children == [] && s.reconciled == {}
        && s.starts == []
  }

  ghost predicate StepAt(states: seq<State>, k: nat)
    requires k + 1 < |states|
  {
    exists e, at :: states[k + 1] == Step(states[k], e, at)
  }

  /** A run: the states passed through from the start on, over any store commands can have built. */
  ghost predicate IsRun(states: seq<State>) {
    && states != []
    && Started(states[0])
    && L.Reachable(states[0].domain)
    && forall k: nat {:trigger StepAt(states, k)} | k + 1 < |states| :: StepAt(states, k)
  }
}
