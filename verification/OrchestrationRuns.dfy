/** The orchestration invariant over whole runs, and the theorems it gives. */
module OrchestrationRuns {
  import opened Prelude
  import opened Plans
  import opened PlanValidation
  import opened AgentSelection
  import opened Sorting
  import opened Orchestration
  import opened OrchestrationSafety
  import L = Lifecycle
  import S = LifecycleSafety

  // ---------- Delegation accounts ----------

  /** One delegation at first, then one for each retry and each redelegation; only redelegations
      bring in another definition. */
  ghost predicate Accounted(delegations: seq<Delegation>, policy: Policy) {
    delegations != [] ==>
      var last := delegations[|delegations| - 1];
      && |delegations| == 1 + last.retry + last.redelegation
      && |Definitions(delegations)| == 1 + last.redelegation
      && last.retry <= policy.maxRetriesPerTask
      && last.redelegation <= policy.maxRedelegationsPerTask
  }

  ghost predicate AccountsInv(delegations: seq<Delegation>, policy: Policy) {
    forall task {:trigger Accounted(DelegationsOf(delegations, task), policy)} ::
      Accounted(DelegationsOf(delegations, task), policy)
  }

  lemma DelegationsAppended(delegations: seq<Delegation>, d: Delegation, task: L.EntityId)
    ensures DelegationsOf(delegations + [d], task)
      == DelegationsOf(delegations, task) + (if d.task == task then [d] else [])
  {
    assert (delegations + [d])[..|delegations|] == delegations;
  }

  lemma AccountExtends(previous: seq<Delegation>, d: Delegation, policy: Policy, mode: Mode)
    requires Accounted(previous, policy)
    requires d == NewDelegation(previous, d.planned, d.task, d.definition, mode)
    requires mode == FirstTime <==> previous == []
    requires mode == Retry ==> d.definition == previous[|previous| - 1].definition
                               && previous[|previous| - 1].retry < policy.maxRetriesPerTask
    requires mode == Redelegate ==> d.definition !in Definitions(previous)
                                    && previous[|previous| - 1].redelegation < policy.maxRedelegationsPerTask
    ensures Accounted(previous + [d], policy)
  {
    DefinitionsAppended(previous, d);
  }

  lemma DefinitionsGrow(previous: seq<Delegation>, d: Delegation)
    ensures Definitions(previous + [d]) == Definitions(previous) + {d.definition}
  {
    var all := previous + [d];
    forall x | x in Definitions(previous) ensures x in Definitions(all) {
      var e :| e in previous && e.definition == x;
      assert e in all;
    }
    assert d in all;
    forall x | x in Definitions(all) ensures x in Definitions(previous) || x == d.definition {
      var e :| e in all && e.definition == x;
      assert e in previous || e == d;
    }
  }

  lemma DefinitionsAppended(previous: seq<Delegation>, d: Delegation)
    ensures |Definitions(previous + [d])|
      == |Definitions(previous)| + (if d.definition in Definitions(previous) then 0 else 1)
    ensures previous == [] ==> Definitions(previous) == {}
    ensures previous != [] ==> previous[|previous| - 1].definition in Definitions(previous)
  {
    DefinitionsGrow(previous, d);
    if d.definition in Definitions(previous) {
      assert Definitions(previous) + {d.definition} == Definitions(previous);
    }
    assert previous != [] ==> previous[|previous| - 1] in previous;
  }

  lemma AccountsExtend(
    s: State, planned: PlannedId, task: L.EntityId, mode: Mode, c: Candidate, candidates: seq<Candidate>)
    requires AccountsInv(s.delegations, s.policy) && ModeError(s, task, mode).None?
    requires var previous := DelegationsOf(s.delegations, task);
      Offered(mode, previous, candidates) && c in candidates && c.Identity() !in Excluded(mode, previous)
    ensures AccountsInv(s.delegations
      + [NewDelegation(DelegationsOf(s.delegations, task), planned, task, c.Identity(), mode)], s.policy)
  {
    var previous := DelegationsOf(s.delegations, task);
    var d := NewDelegation(previous, planned, task, c.Identity(), mode);
    assert Accounted(previous, s.policy);
    AccountExtends(previous, d, s.policy, mode);
    forall t ensures Accounted(DelegationsOf(s.delegations + [d], t), s.policy) {
      DelegationsAppended(s.delegations, d, t);
      assert Accounted(DelegationsOf(s.delegations, t), s.policy);
      if t != task {
        assert DelegationsOf(s.delegations, t) + [] == DelegationsOf(s.delegations, t);
      }
    }
  }

  // ---------- Starts ----------

  /** Everything the started task waited for in its plan is completed. */
  ghost predicate StartJustified(
    domain: L.Store, plans: seq<PlanVersion>, lineages: map<nat, Lineage>, start: Start, planned: PlannedTask)
  {
    && 1 <= start.plan <= |plans| && start.plan in lineages
    && planned in plans[start.plan - 1].proposal.tasks && planned.id == start.planned
    && TaskFor(lineages[start.plan], start.planned) == Some(start.task)
    && DependenciesDone(domain, lineages[start.plan], planned)
  }

  ghost predicate InOrder(domain: L.Store, plans: seq<PlanVersion>, lineages: map<nat, Lineage>, start: Start) {
    exists planned :: StartJustified(domain, plans, lineages, start, planned)
  }

  ghost predicate StartsInv(domain: L.Store, plans: seq<PlanVersion>, lineages: map<nat, Lineage>, starts: seq<Start>) {
    forall k {:trigger InOrder(domain, plans, lineages, starts[k])} | 0 <= k < |starts| ::
      InOrder(domain, plans, lineages, starts[k])
  }

  lemma DoneStays(x: L.Store, y: L.Store, lineage: Lineage, planned: PlannedTask)
    requires S.Evolves(x.entities, y.entities) && DependenciesDone(x, lineage, planned)
    ensures DependenciesDone(y, lineage, planned)
  {
    forall d | d in planned.dependencies ensures TaskIs(y, TaskFor(lineage, d), {L.Completed}) {
      assert TaskIs(x, TaskFor(lineage, d), {L.Completed});
      var key := L.Key(L.TaskKind, TaskFor(lineage, d).value);
      assert S.EntityEvolves(x.entities[key], y.entities[key]);
    }
  }

  lemma StartsStay(
    x: L.Store, y: L.Store, plans: seq<PlanVersion>, plans': seq<PlanVersion>, lineages: map<nat, Lineage>,
    lineages': map<nat, Lineage>, starts: seq<Start>)
    requires StartsInv(x, plans, lineages, starts) && S.Evolves(x.entities, y.entities) && plans <= plans'
    requires forall v | v in lineages :: v in lineages' && lineages'[v] == lineages[v]
    ensures StartsInv(y, plans', lineages', starts)
  {
    forall k | 0 <= k < |starts| ensures InOrder(y, plans', lineages', starts[k]) {
      assert InOrder(x, plans, lineages, starts[k]);
      var planned :| StartJustified(x, plans, lineages, starts[k], planned);
      DoneStays(x, y, lineages[starts[k].plan], planned);
      assert StartJustified(y, plans', lineages', starts[k], planned);
    }
  }

  // ---------- The invariant ----------

  ghost predicate ChildrenInv(s: State) {
    && |s.children| == s.run.agentRuns <= s.policy.maxAgentRuns
    && (forall k | 0 <= k < |s.children| :: s.children[k].delegation < |s.delegations|)
  }

  ghost predicate CompletionInv(domain: L.Store, goal: L.EntityId, run: Run) {
    run.status == Completed ==>
      && L.Exists(domain.entities, L.GoalKind, goal)
      && L.Get(domain.entities, L.GoalKind, goal).status == L.Satisfied
  }

  ghost predicate Inv(s: State) {
    && S.Inv(s.domain)
    && PlansInv(s.plans, s.run, s.policy)
    && LineagesInv(s.domain, s.goal, s.plans, s.lineages)
    && AccountsInv(s.delegations, s.policy)
    && ChildrenInv(s)
    && StartsInv(s.domain, s.plans, s.lineages, s.starts)
    && CompletionInv(s.domain, s.goal, s.run)
  }

  /** Plans, materialisations, delegations and starts only grow; the domain evolves. */
  ghost predicate Later(s: State, s': State) {
    && s'.workspace == s.workspace && s'.goal == s.goal && s'.policy == s.policy
    && S.Evolves(s.domain.entities, s'.domain.entities)
    && s.plans <= s'.plans
    && (forall v | v in s.lineages :: v in s'.lineages && s'.lineages[v] == s.lineages[v])
    && s.delegations <= s'.delegations
    && s.starts <= s'.starts
    && s.reconciled <= s'.reconciled
    && (s.run.Ended() ==> s'.run.status == s.run.status)
  }

  ghost predicate Keeps(s: State, s': State) { Inv(s') && Later(s, s') }

  lemma CompletionStays(x: L.Store, y: L.Store, goal: L.EntityId, run: Run)
    requires CompletionInv(x, goal, run) && S.Evolves(x.entities, y.entities)
    ensures CompletionInv(y, goal, run)
  {
    if run.status == Completed {
      var key := L.Key(L.GoalKind, goal);
      assert S.EntityEvolves(x.entities[key], y.entities[key]);
    }
  }

  /** The domain moves on under an orchestration that does not. */
  lemma DomainMoves(s: State, domain: L.Store)
    requires Inv(s) && S.Inv(domain) && S.Evolves(s.domain.entities, domain.entities)
    ensures Keeps(s, s.(domain := domain))
  {
    LineagesStay(s.domain, domain, s.goal, s.plans, s.plans, s.lineages);
    StartsStay(s.domain, domain, s.plans, s.plans, s.lineages, s.lineages, s.starts);
    CompletionStays(s.domain, domain, s.goal, s.run);
  }

  /** The run record moves on, short of completing. */
  lemma RunMoves(s: State, run: Run)
    requires Inv(s) && run.current == s.run.current && run.replans == s.run.replans && run.agentRuns == s.run.agentRuns
    requires run.status != Completed || s.run.status == Completed
    requires s.run.Ended() ==> run.status == s.run.status
    ensures Keeps(s, s.(run := run))
  {
    EvolvesReflexively(s.domain);
  }

  lemma LaterTransitive(x: State, y: State, z: State)
    requires Later(x, y) && Later(y, z)
    ensures Later(x, z)
  {
    S.EvolvesTransitive(x.domain.entities, y.domain.entities, z.domain.entities);
  }

  // ---------- Events ----------

  lemma AcceptKeeps(
    s: State, agents: seq<AgentItem>, goalVersion: nat, proposal: Proposal, selectable: bool, replan: bool)
    requires Inv(s) && Accept(s, agents, goalVersion, proposal, selectable, replan).Done?
    requires replan <==> s.plans != []
    ensures Keeps(s, Accept(s, agents, goalVersion, proposal, selectable, replan).state)
  {
    var after := Accept(s, agents, goalVersion, proposal, selectable, replan).state;
    var plan := PlanVersion(proposal, goalVersion);
    AcceptedIsSound(s.policy, s.workspace, s.goal, agents, proposal);
    PlanAppended(s.plans, plan);
    KeepsItself(proposal.tasks);
    forall v | 0 <= v < |after.plans| ensures SoundPlan(after.plans[v], s.policy.maxDependencyDepth) {
      assert v < |s.plans| ==> SoundPlan(s.plans[v], s.policy.maxDependencyDepth);
    }
    EvolvesReflexively(s.domain);
    LineagesStay(s.domain, s.domain, s.goal, s.plans, after.plans, s.lineages);
    StartsStay(s.domain, s.domain, s.plans, after.plans, s.lineages, s.lineages, s.starts);
  }

  lemma KeepsItself(tasks: seq<PlannedTask>)
    ensures KeepsTasks(tasks, tasks)
  {
  }

  lemma OpenExecutionKeeps(
    domain: L.Store, workspace: nat, goal: L.EntityId, bound: nat, id: L.EntityId, retryOf: Option<L.EntityId>, at: int)
    requires S.Inv(domain) && OpenExecution(domain, workspace, goal, bound, id, retryOf, at).Done?
    ensures var after := OpenExecution(domain, workspace, goal, bound, id, retryOf, at).store;
      S.Inv(after) && S.Evolves(domain.entities, after.entities)
  {
    S.NewExecutionKeeps(domain, id, workspace, goal, bound, retryOf, at);
    var created := L.NewExecution(domain, id, workspace, goal, bound, retryOf, at).store;
    S.MoveCommandKeeps(created, L.Key(L.ExecutionKind, id), 1, L.Running, at);
    S.EvolvesTransitive(domain.entities, created.entities,
        OpenExecution(domain, workspace, goal, bound, id, retryOf, at).store.entities);
  }

  lemma LineageAdded(
    before: L.Store, after: L.Store, goal: L.EntityId, plans: seq<PlanVersion>, lineages: map<nat, Lineage>, v: nat,
    lineage: Lineage)
    requires LineagesInv(before, goal, plans, lineages) && S.Evolves(before.entities, after.entities)
    requires 1 <= v <= |plans| && Matches(plans[v - 1].proposal.tasks, lineage) && Owned(after, goal, lineage)
    requires AllAgree(lineages[v := lineage])
    ensures LineagesInv(after, goal, plans, lineages[v := lineage])
  {
    var lineages' := lineages[v := lineage];
    LineagesStay(before, after, goal, plans, plans, lineages);
    forall w | w in lineages' ensures LineageAt(after, goal, plans, w, lineages'[w]) {
      assert w in lineages ==> LineageAt(after, goal, plans, w, lineages[w]);
    }
  }

  /** The new lineage agrees with itself and with every earlier one. */
  lemma NewLineageAgrees(
    domain: L.Store, goal: L.EntityId, plans: seq<PlanVersion>, lineages: map<nat, Lineage>, tasks: seq<PlannedTask>,
    after: L.Store, lineage: Lineage)
    requires LineagesInv(domain, goal, plans, lineages) && |plans| !in lineages && plans != [] && DistinctIds(tasks)
    requires Allotted(domain, goal, PriorLineage(lineages, |plans| - 1), tasks, after, lineage)
    ensures AllAgree(lineages[|plans| := lineage])
  {
    var prior := PriorLineage(lineages, |plans| - 1);
    PriorCollects(lineages, |plans| - 1);
    SelfAgrees(tasks, lineage);
    forall w | w in lineages ensures Agree(lineages[w], lineage) && Agree(lineage, lineages[w]) {
      assert LineageAt(domain, goal, plans, w, lineages[w]);
      AllottedAgrees(domain, goal, plans, lineages, |plans| - 1, prior, tasks, after, lineage, w);
    }
    AgreementExtends(lineages, |plans|, lineage);
  }

  lemma NewLineageFits(
    before: L.Store, domain: L.Store, running: L.Store, goal: L.EntityId, plans: seq<PlanVersion>,
    lineages: map<nat, Lineage>, lineage: Lineage)
    requires LineagesInv(before, goal, plans, lineages) && plans != [] && |plans| !in lineages
    requires DistinctIds(plans[|plans| - 1].proposal.tasks)
    requires S.Evolves(before.entities, running.entities) && S.Evolves(domain.entities, running.entities)
    requires Allotted(
      before, goal, PriorLineage(lineages, |plans| - 1), plans[|plans| - 1].proposal.tasks, domain, lineage)
    ensures LineagesInv(running, goal, plans, lineages[|plans| := lineage])
  {
    NewLineageAgrees(before, goal, plans, lineages, plans[|plans| - 1].proposal.tasks, domain, lineage);
    OwnedStays(domain, running, goal, lineage);
    LineageAdded(before, running, goal, plans, lineages, |plans|, lineage);
  }

  lemma MaterialisedKeeps(s: State, domain: L.Store, lineage: Lineage, running: L.Store, execution: L.EntityId)
    requires Inv(s) && HasPlanOnly(s)
    requires S.Inv(running) && S.Evolves(s.domain.entities, domain.entities)
    requires S.Evolves(domain.entities, running.entities)
    requires Allotted(s.domain, s.goal, PriorLineage(s.lineages, |s.plans| - 1),
      s.plans[s.run.current - 1].proposal.tasks, domain, lineage)
    ensures Keeps(s, Materialised(s, running, lineage, execution))
  {
    var after := Materialised(s, running, lineage, execution);
    S.EvolvesTransitive(s.domain.entities, domain.entities, running.entities);
    assert SoundPlan(s.plans[s.run.current - 1], s.policy.maxDependencyDepth);
    NewLineageFits(s.domain, domain, running, s.goal, s.plans, s.lineages, lineage);
    StartsStay(s.domain, running, s.plans, s.plans, s.lineages, after.lineages, s.starts);
    CompletionStays(s.domain, running, s.goal, s.run);
  }

  ghost predicate HasPlanOnly(s: State) {
    s.plans != [] && s.run.current !in s.lineages && s.run.status == Running
  }

  /** What was materialised before the current plan is known one-to-one, and its tasks are distinct. */
  lemma PriorIsKnown(s: State)
    requires PlansInv(s.plans, s.run, s.policy) && HasPlanOnly(s) && 1 <= s.run.current <= |s.plans|
    requires LineagesInv(s.domain, s.goal, s.plans, s.lineages)
    ensures KnownInv(s.domain, s.goal, PriorLineage(s.lineages, |s.plans| - 1))
    ensures DistinctIds(s.plans[s.run.current - 1].proposal.tasks)
  {
    PriorCollects(s.lineages, |s.plans| - 1);
    CollectedIsKnown(s.domain, s.goal, s.plans, s.lineages, PriorLineage(s.lineages, |s.plans| - 1), |s.plans| - 1);
    assert SoundPlan(s.plans[s.run.current - 1], s.policy.maxDependencyDepth);
  }

  lemma MaterializeKeeps(s: State, expected: nat, ids: seq<L.EntityId>, execution: L.EntityId, at: int)
    requires Inv(s) && Materialize(s, expected, ids, execution, at).Done?
    ensures Keeps(s, Materialize(s, expected, ids, execution, at).state)
  {
    EvolvesReflexively(s.domain);
    if s.run.current !in s.lineages {
      var tasks := s.plans[s.run.current - 1].proposal.tasks;
      var prior := PriorLineage(s.lineages, |s.plans| - 1);
      PriorIsKnown(s);
      AllotKeeps(s.domain, s.workspace, s.goal, prior, tasks, ids, at);
      var (domain, lineage) := Allot(s.domain, s.workspace, s.goal, prior, tasks, ids, at).value;
      if s.run.execution.Some? {
        EvolvesReflexively(domain);
        MaterialisedKeeps(s, domain, lineage, domain, s.run.execution.value);
      } else {
        StartedKeeps(s, domain, lineage, execution, at);
      }
    }
  }

  /** The first materialisation opens the execution as well. */
  lemma StartedKeeps(s: State, domain: L.Store, lineage: Lineage, execution: L.EntityId, at: int)
    requires Inv(s) && HasPlanOnly(s) && S.Inv(domain) && S.Evolves(s.domain.entities, domain.entities)
    requires Allotted(s.domain, s.goal, PriorLineage(s.lineages, |s.plans| - 1),
      s.plans[s.run.current - 1].proposal.tasks, domain, lineage)
    requires OpenExecution(domain, s.workspace, s.goal, s.policy.maxAgentRuns, execution, None, at).Done?
    ensures var running := OpenExecution(domain, s.workspace, s.goal, s.policy.maxAgentRuns, execution, None, at).store;
      Keeps(s, Materialised(s, running, lineage, execution))
  {
    OpenExecutionKeeps(domain, s.workspace, s.goal, s.policy.maxAgentRuns, execution, None, at);
    var running := OpenExecution(domain, s.workspace, s.goal, s.policy.maxAgentRuns, execution, None, at).store;
    MaterialisedKeeps(s, domain, lineage, running, execution);
  }

  lemma DelegateKeeps(
    s: State, planned: PlannedTask, task: L.EntityId, expected: nat, mode: Mode, candidates: seq<Candidate>,
    choice: Option<Candidate>)
    requires Inv(s) && Delegate(s, planned, task, expected, mode, choice).Done?
    requires var previous := DelegationsOf(s.delegations, task);
      && Offered(mode, previous, candidates)
      && Selected(s.workspace, planned.requirements, candidates, Excluded(mode, previous), choice)
    ensures Keeps(s, Delegate(s, planned, task, expected, mode, choice).state)
  {
    EvolvesReflexively(s.domain);
    var after := Delegate(s, planned, task, expected, mode, choice).state;
    if after.delegations != s.delegations {
      AccountsExtend(s, planned.id, task, mode, choice.value, candidates);
    }
  }

  lemma ReadyKeeps(domain: L.Store, task: L.EntityId, at: int)
    requires S.Inv(domain) && L.Exists(domain.entities, L.TaskKind, task) && Ready(domain, task, at).Done?
    ensures S.Inv(Ready(domain, task, at).store) && S.Evolves(domain.entities, Ready(domain, task, at).store.entities)
  {
    var t := L.Get(domain.entities, L.TaskKind, task);
    EvolvesReflexively(domain);
    if t.status == L.Proposed {
      S.MoveCommandKeeps(domain, L.Key(L.TaskKind, task), t.version, L.Ready, at);
    }
  }

  lemma StartWorkKeeps(
    domain: L.Store, workspace: nat, task: L.EntityId, execution: L.EntityId, attempt: L.EntityId, at: int)
    requires S.Inv(domain) && StartWork(domain, workspace, task, execution, attempt, at).Done?
    ensures var after := StartWork(domain, workspace, task, execution, attempt, at).store;
      S.Inv(after) && S.Evolves(domain.entities, after.entities)
  {
    ReadyKeeps(domain, task, at);
    var d1 := Ready(domain, task, at).store;
    var key := L.Key(L.TaskKind, task);
    S.MoveCommandKeeps(d1, key, d1.entities[key].version, L.InProgress, at);
    var d2 := L.MoveEntity(d1, key, d1.entities[key].version, L.InProgress, at).store;
    S.NewAttemptKeeps(d2, attempt, workspace, task, execution, at);
    var d3 := L.NewAttempt(d2, attempt, workspace, task, execution, at).store;
    S.MoveCommandKeeps(d3, L.Key(L.AttemptKind, attempt), 1, L.Running, at);
    var d4 := StartWork(domain, workspace, task, execution, attempt, at).store;
    S.EvolvesTransitive(domain.entities, d1.entities, d2.entities);
    S.EvolvesTransitive(domain.entities, d2.entities, d3.entities);
    S.EvolvesTransitive(domain.entities, d3.entities, d4.entities);
  }

  lemma ExecutionForKeeps(s: State, handed: Option<L.EntityId>, replacement: L.EntityId, at: int)
    requires S.Inv(s.domain) && ExecutionFor(s, handed, replacement, at).Ok?
    ensures var domain := ExecutionFor(s, handed, replacement, at).value.domain;
      S.Inv(domain) && S.Evolves(s.domain.entities, domain.entities)
  {
    EvolvesReflexively(s.domain);
    if OpenExecution(s.domain, s.workspace, s.goal, s.policy.maxAgentRuns, replacement, s.run.execution, at).Done? {
      OpenExecutionKeeps(s.domain, s.workspace, s.goal, s.policy.maxAgentRuns, replacement, s.run.execution, at);
    }
  }

  /** A claimed child starts a task whose dependencies are all completed. */
  lemma ChildStarted(s: State, started: L.Store, delegation: nat, planned: PlannedTask, own: Option<L.EntityId>)
    requires Inv(s) && S.Inv(started) && S.Evolves(s.domain.entities, started.entities)
    requires delegation < |s.delegations| && s.run.agentRuns < s.policy.maxAgentRuns
    requires IsReady(s, planned, s.delegations[delegation].task)
    ensures Keeps(s, s.(
      domain := started,
      children := s.children + [Child(delegation, ChildRunning, 1)],
      starts := s.starts + [Start(s.run.current, planned.id, s.delegations[delegation].task)],
      run := Evolve(s.run, s.run.status).(execution := own, agentRuns := s.run.agentRuns + 1)))
  {
    var start := Start(s.run.current, planned.id, s.delegations[delegation].task);
    DomainMoves(s, started);
    DoneStays(s.domain, started, s.lineages[s.run.current], planned);
    assert StartJustified(started, s.plans, s.lineages, start, planned);
    var starts := s.starts + [start];
    forall k | 0 <= k < |starts| ensures InOrder(started, s.plans, s.lineages, starts[k]) {
      assert k < |s.starts| ==> InOrder(started, s.plans, s.lineages, s.starts[k]);
    }
  }

  lemma StartDelegationKeeps(
    s: State, delegation: nat, planned: PlannedTask, expected: nat, selectable: bool,
    attempt: L.EntityId, handed: Option<L.EntityId>, replacement: L.EntityId, at: int)
    requires Inv(s)
    requires StartDelegation(s, delegation, planned, expected, selectable, attempt, handed, replacement, at).Done?
    ensures Keeps(
      s, StartDelegation(s, delegation, planned, expected, selectable, attempt, handed, replacement, at).state)
  {
    var task := s.delegations[delegation].task;
    ExecutionForKeeps(s, handed, replacement, at);
    var Placement(domain, execution, own) := ExecutionFor(s, handed, replacement, at).value;
    StartWorkKeeps(domain, s.workspace, task, execution, attempt, at);
    var started := StartWork(domain, s.workspace, task, execution, attempt, at).store;
    S.EvolvesTransitive(s.domain.entities, domain.entities, started.entities);
    ChildStarted(s, started, delegation, planned, own);
  }

  lemma ReconcileKeeps(s: State, child: nat, complete: bool, at: int)
    requires Inv(s) && ReconcileChild(s, child, complete, at).Done?
    ensures Keeps(s, ReconcileChild(s, child, complete, at).state)
  {
    EvolvesReflexively(s.domain);
    var after := ReconcileChild(s, child, complete, at).state;
    if after != s && after.run.status == Completed {
      var expected := L.Get(s.domain.entities, L.GoalKind, s.goal).version;
      S.SatisfyKeeps(s.domain, s.goal, expected, at);
      GoalSatisfied(s.domain, s.goal, expected, at);
      DomainMoves(s, after.domain);
    } else if after != s {
      RunMoves(s, after.run);
    }
  }

  lemma GoalSatisfied(domain: L.Store, goal: L.EntityId, expected: nat, at: int)
    requires S.Inv(domain) && L.Satisfy(domain, goal, expected, at).Done?
    ensures var after := L.Satisfy(domain, goal, expected, at).store;
      L.Exists(after.entities, L.GoalKind, goal) && L.Get(after.entities, L.GoalKind, goal).status == L.Satisfied
  {
    assert domain.entities[L.Key(L.GoalKind, goal)].Subject() == L.Key(L.GoalKind, goal);
  }

  lemma ChildMovesKeeps(s: State, child: nat, status: ChildStatus)
    requires Inv(s) && child < |s.children|
    ensures Keeps(s, s.(children := s.children[child := Moved(s.children[child], status)]))
  {
    EvolvesReflexively(s.domain);
  }

  lemma PlanEventKeeps(s: State, e: Event, at: int)
    requires Inv(s) && Try(s, e, at).Done?
    requires e.FirstPlan? || e.Replan? || e.AskReplan? || e.PlannerFails? || e.Resume? || e.Cancel?
    ensures Keeps(s, Try(s, e, at).state)
  {
    match e
    case FirstPlan(agents, goalVersion, proposal, selectable) =>
      AcceptKeeps(s, agents, goalVersion, proposal, selectable, false);
    case Replan(agents, goalVersion, proposal, selectable) =>
      AcceptKeeps(s, agents, goalVersion, proposal, selectable, true);
    case AskReplan(_) => RunMoves(s, Try(s, e, at).state.run);
    case PlannerFails => RunMoves(s, Try(s, e, at).state.run);
    case Resume => RunMoves(s, Try(s, e, at).state.run);
    case Cancel => RunMoves(s, Try(s, e, at).state.run);
  }

  lemma WorkEventKeeps(s: State, e: Event, at: int)
    requires Inv(s) && Try(s, e, at).Done?
    requires e.MaterializePlan? || e.DelegateTask? || e.StartChild? || e.ChildMoves? || e.Reconcile? || e.DomainCommand?
    ensures Keeps(s, Try(s, e, at).state)
  {
    match e
    case MaterializePlan(expected, ids, execution) => MaterializeKeeps(s, expected, ids, execution, at);
    case DelegateTask(planned, task, expected, mode, candidates, choice) =>
      DelegateKeeps(s, planned, task, expected, mode, candidates, choice);
    case StartChild(delegation, planned, expected, selectable, attempt, handed, replacement) =>
      StartDelegationKeeps(s, delegation, planned, expected, selectable, attempt, handed, replacement, at);
    case ChildMoves(child, status) => ChildMovesKeeps(s, child, status);
    case Reconcile(child, complete) => ReconcileKeeps(s, child, complete, at);
    case DomainCommand(cmd) =>
      S.CommandKeeps(s.domain, cmd, at);
      DomainMoves(s, L.After(s.domain, cmd, at));
  }

  lemma StepKeeps(s: State, e: Event, at: int)
    requires Inv(s)
    ensures Keeps(s, Step(s, e, at))
  {
    if Try(s, e, at).Refused? {
      EvolvesReflexively(s.domain);
    } else if e.FirstPlan? || e.Replan? || e.AskReplan? || e.PlannerFails? || e.Resume? || e.Cancel? {
      PlanEventKeeps(s, e, at);
    } else {
      WorkEventKeeps(s, e, at);
    }
  }

  lemma StartedInv(s: State)
    requires Started(s) && L.Reachable(s.domain)
    ensures Inv(s)
  {
    var stores :| L.IsRun(stores) && stores[|stores| - 1] == s.domain;
    S.RunInv(stores, |stores| - 1);
    forall task ensures Accounted(DelegationsOf(s.delegations, task), s.policy) {}
  }

  lemma StepExtends(states: seq<State>, k: nat)
    requires IsRun(states) && k + 1 < |states| && Inv(states[k])
    ensures Keeps(states[k], states[k + 1])
  {
    assert StepAt(states, k);
    var e, at :| states[k + 1] == Step(states[k], e, at);
    StepKeeps(states[k], e, at);
  }

  /** The invariant holds of every state of a run. */
  lemma {:induction false} RunInv(states: seq<State>, n: nat)
    requires IsRun(states) && n < |states|
    ensures Inv(states[n])
  {
    if n == 0 {
      StartedInv(states[0]);
    } else {
      RunInv(states, n - 1);
      StepExtends(states, n - 1);
    }
  }

  /** Later states of a run extend earlier ones. */
  lemma {:induction false} RunExtends(states: seq<State>, m: nat, n: nat)
    requires IsRun(states) && m <= n < |states|
    ensures Inv(states[m]) && Keeps(states[m], states[n])
    decreases n - m
  {
    RunInv(states, m);
    if m == n {
      EvolvesReflexively(states[m].domain);
    } else {
      RunExtends(states, m, n - 1);
      StepExtends(states, n - 1);
      LaterTransitive(states[m], states[n - 1], states[n]);
    }
  }

  // ---------- Theorems ----------

  /** Over every plan, replan and materialisation, one planned id has one canonical task and
      different planned ids have different tasks. */
  lemma CanonicalTasksAreFixed(
    states: seq<State>, m: nat, n: nat, v: nat, w: nat, j: nat, k: nat)
    requires IsRun(states) && m <= n < |states|
    requires v in states[m].lineages && w in states[n].lineages
    requires j < |states[m].lineages[v]| && k < |states[n].lineages[w]|
    ensures var x, y := states[m].lineages[v][j], states[n].lineages[w][k];
      x.planned == y.planned <==> x.task == y.task
  {
    RunExtends(states, m, n);
    var s2 := states[n];
    assert Agree(s2.lineages[v], s2.lineages[w]);
  }

  /** A task once materialised is, with the same canonical task, in every later materialisation. */
  lemma MaterialisedTasksNeverDropOut(states: seq<State>, n: nat, v: nat, w: nat, j: nat)
    requires IsRun(states) && n < |states|
    requires v in states[n].lineages && w in states[n].lineages && v <= w
    requires j < |states[n].lineages[v]|
    ensures states[n].lineages[v][j] in states[n].lineages[w]
  {
    RunExtends(states, 0, n);
    var s1 := states[n];
    assert LineageAt(s1.domain, s1.goal, s1.plans, v, s1.lineages[v]);
    assert LineageAt(s1.domain, s1.goal, s1.plans, w, s1.lineages[w]);
    var before, after := s1.plans[v - 1].proposal.tasks, s1.plans[w - 1].proposal.tasks;
    assert KeepsTasks(before, after) && before[j] in before;
    var k :| 0 <= k < |after| && after[k].id == before[j].id;
    assert Agree(s1.lineages[v], s1.lineages[w]);
    assert s1.lineages[w][k] == s1.lineages[v][j];
  }

  /** Materialising a plan version again, at any later time, finds the same tasks and changes nothing. */
  lemma MaterializingTwiceIsOnce(
    states: seq<State>, m: nat, n: nat, v: nat,
    expected: nat, ids: seq<L.EntityId>, execution: L.EntityId, at: int)
    requires IsRun(states) && m <= n < |states| && v in states[m].lineages
    requires var s2 := states[n];
      s2.run.current == v && Materialize(s2, expected, ids, execution, at).Done?
    ensures var s2 := states[n];
      && Materialize(s2, expected, ids, execution, at) == Done(s2)
      && s2.lineages[v] == states[m].lineages[v]
  {
    RunExtends(states, m, n);
  }

  /** One plus its retries and redelegations, within the policy; one definition more per redelegation. */
  ghost predicate WithinAccount(delegations: seq<Delegation>, task: L.EntityId, policy: Policy) {
    var ds := DelegationsOf(delegations, task);
    ds != [] ==>
      var last := ds[|ds| - 1];
      && |ds| == 1 + last.retry + last.redelegation
      && |ds| <= 1 + policy.maxRetriesPerTask + policy.maxRedelegationsPerTask
      && |Definitions(ds)| == 1 + last.redelegation
  }

  lemma AccountsWithin(delegations: seq<Delegation>, task: L.EntityId, policy: Policy)
    requires AccountsInv(delegations, policy)
    ensures WithinAccount(delegations, task, policy)
  {
    assert Accounted(DelegationsOf(delegations, task), policy);
  }

  /** In every reachable state the delegations of each task are accounted for. */
  lemma DelegationsAreAccounted(states: seq<State>, n: nat, task: L.EntityId)
    requires IsRun(states) && n < |states|
    ensures WithinAccount(states[n].delegations, task, states[0].policy)
  {
    RunExtends(states, 0, n);
    AccountsWithin(states[n].delegations, task, states[n].policy);
  }

  /** The ordinals the mode check reads are counts of what really happened: a retry is open exactly while
      fewer delegations than allowed repeated a definition, a redelegation exactly while fewer than allowed
      brought in another one, and either only after the last child failed. */
  lemma ModesCountHistory(states: seq<State>, n: nat, task: L.EntityId)
    requires IsRun(states) && n < |states|
    ensures var s := states[n];
      var ds := DelegationsOf(s.delegations, task);
      var failed := ds != [] && LatestChild(s.children, LastIndex(s.delegations, task)) == Some(ChildFailed);
      && (ModeError(s, task, FirstTime).None? <==> ds == [])
      && (ModeError(s, task, Retry).None?
          <==> failed && |ds| - |Definitions(ds)| < states[0].policy.maxRetriesPerTask)
      && (ModeError(s, task, Redelegate).None?
          <==> failed && |Definitions(ds)| <= states[0].policy.maxRedelegationsPerTask)
  {
    RunExtends(states, 0, n);
    var s := states[n];
    assert Accounted(DelegationsOf(s.delegations, task), s.policy);
  }

  /** Every started task had, and still has, all dependencies of its plan completed. */
  lemma StartsFollowDependencies(states: seq<State>, m: nat, n: nat, k: nat)
    requires IsRun(states) && m <= n < |states| && k < |states[m].starts|
    ensures var s1, s2 := states[m], states[n];
      && InOrder(s1.domain, s1.plans, s1.lineages, s1.starts[k])
      && k < |s2.starts| && s2.starts[k] == s1.starts[k]
      && InOrder(s2.domain, s2.plans, s2.lineages, s1.starts[k])
  {
    RunExtends(states, m, n);
    var s2 := states[n];
    assert InOrder(s2.domain, s2.plans, s2.lineages, s2.starts[k]);
  }

  lemma OnlyStartsStart(s: State, e: Event, at: int)
    requires Step(s, e, at).starts != s.starts
    ensures e.StartChild? && e.delegation < |s.delegations|
    ensures var start := Start(s.run.current, e.planned.id, s.delegations[e.delegation].task);
      && IsReady(s, e.planned, start.task)
      && Step(s, e, at).starts == s.starts + [start]
      && Step(s, e, at).children == s.children + [Child(e.delegation, ChildRunning, 1)]
  {
  }

  /** A task starts only under the plan that is current, and latest, at that moment, while it is ready
      there and the orchestration is running; one child at a time. */
  lemma StartsUseTheCurrentPlan(states: seq<State>, k: nat)
    requires IsRun(states) && k + 1 < |states| && states[k + 1].starts != states[k].starts
    ensures var s, s' := states[k], states[k + 1];
      && |s'.starts| == |s.starts| + 1 && s'.starts[..|s.starts|] == s.starts
      && |s'.children| == |s.children| + 1
      && var start := s'.starts[|s.starts|];
      && s.run.status == Running
      && start.plan == s.run.current == |s.plans|
      && (exists planned :: StartJustified(s.domain, s.plans, s.lineages, start, planned)
            && IsReady(s, planned, start.task))
  {
    RunInv(states, k);
    assert StepAt(states, k);
    var e, at :| states[k + 1] == Step(states[k], e, at);
    OnlyStartsStart(states[k], e, at);
    var start := states[k + 1].starts[|states[k].starts|];
    assert StartJustified(states[k].domain, states[k].plans, states[k].lineages, start, e.planned);
  }

  /** A child's result counts once: reconciling the same version of a child again, however much later and
      whatever the aggregator says by then, changes nothing. */
  lemma ReconcilingTwiceIsOnce(
    states: seq<State>, m: nat, n: nat, child: nat, complete: bool, at: int, complete': bool, at': int)
    requires IsRun(states) && m < n < |states|
    requires ReconcileChild(states[m], child, complete, at) == Done(states[m + 1])
    requires child < |states[n].children| && states[n].children[child].version == states[m].children[child].version
    ensures ReconcileChild(states[n], child, complete', at') == Done(states[n])
  {
    RunExtends(states, m, n);
    RunExtends(states, m + 1, n);
    ReconcileMarks(states[m], child, complete, at);
  }

  lemma ReconcileMarks(s: State, child: nat, complete: bool, at: int)
    requires ReconcileChild(s, child, complete, at).Done?
    ensures var after := ReconcileChild(s, child, complete, at).state;
      s.run.Ended() || (child, s.children[child].version) in after.reconciled
  {
  }

  /** A completed orchestration has, in every later state, a satisfied goal whose tasks are all
      completed, each by an attempt that succeeded. */
  lemma CompletionStaysJustified(states: seq<State>, m: nat, n: nat)
    requires IsRun(states) && m <= n < |states| && states[m].run.status == Completed
    ensures var s2 := states[n];
      && s2.run.status == Completed
      && L.Exists(s2.domain.entities, L.GoalKind, states[0].goal)
      && L.Get(s2.domain.entities, L.GoalKind, states[0].goal).status == L.Satisfied
      && L.AllTasksCompleted(s2.domain.entities, states[0].goal)
      && (forall t | t in L.TasksForGoal(s2.domain.entities, states[0].goal) :: S.HasSuccess(s2.domain.entities, t))
  {
    RunExtends(states, m, n);
    RunExtends(states, 0, n);
    var s2 := states[n];
    SatisfiedGoal(s2.domain, states[0].goal);
  }

  lemma SatisfiedGoal(domain: L.Store, goal: L.EntityId)
    requires S.Inv(domain) && L.Exists(domain.entities, L.GoalKind, goal)
    requires L.Get(domain.entities, L.GoalKind, goal).status == L.Satisfied
    ensures L.AllTasksCompleted(domain.entities, goal)
    ensures forall t | t in L.TasksForGoal(domain.entities, goal) :: S.HasSuccess(domain.entities, t)
  {
    var key := L.Key(L.GoalKind, goal);
    assert domain.entities[key].Subject() == key;
    assert S.Justified(domain.entities, domain.entities[key]);
    forall t | t in L.TasksForGoal(domain.entities, goal) ensures S.HasSuccess(domain.entities, t) {
      S.InGoal(domain.entities, goal, t);
      S.CompletedHasSuccess(domain.entities, t);
    }
  }

  /** Plans, replans and child runs stay within the policy. */
  lemma BudgetsHold(states: seq<State>, n: nat)
    requires IsRun(states) && n < |states|
    ensures var s1 := states[n];
      && |s1.plans| <= 1 + states[0].policy.maxReplans
      && |s1.children| <= states[0].policy.maxAgentRuns
  {
    RunExtends(states, 0, n);
  }

  // ---------- No deadlock ----------

  ghost predicate Open(domain: L.Store, lineage: Lineage, id: PlannedId) {
    !TaskIs(domain, TaskFor(lineage, id), {L.Completed})
  }

  /** With nothing ready, an open task waits for an open task, so open chains grow without end. */
  lemma {:induction false} OpenChain(
    domain: L.Store, tasks: seq<PlannedTask>, lineage: Lineage, k: nat, n: nat)
    requires DistinctIds(tasks) && Closed(GraphOf(tasks)) && n > 0
    requires k < |tasks| && Open(domain, lineage, tasks[k].id)
    requires forall j | 0 <= j < |tasks| && Open(domain, lineage, tasks[j].id) ::
      !DependenciesDone(domain, lineage, tasks[j])
    ensures exists p :: Chain(GraphOf(tasks), p) && p[0] == tasks[k].id && |p| == n
    decreases n
  {
    var graph := GraphOf(tasks);
    GraphLooksUp(tasks, k);
    if n == 1 {
      assert Chain(graph, [tasks[k].id]);
    } else {
      assert !DependenciesDone(domain, lineage, tasks[k]);
      var d :| d in tasks[k].dependencies && Open(domain, lineage, d);
      assert d in graph[tasks[k].id];
      assert d in graph;
      var j :| 0 <= j < |tasks| && tasks[j].id == d;
      OpenChain(domain, tasks, lineage, j, n - 1);
      var q :| Chain(graph, q) && q[0] == d && |q| == n - 1;
      ChainJoin(graph, [tasks[k].id], q);
      assert ([tasks[k].id] + q)[0] == tasks[k].id;
    }
  }

  /** Running, and every task of the current plan is proposed, ready or completed. */
  ghost predicate AllStartable(s: State) {
    && s.run.status == Running
    && HasCurrent(s)
    && forall t | t in s.plans[s.run.current - 1].proposal.tasks ::
         TaskIs(s.domain, TaskFor(s.lineages[s.run.current], t.id), {L.Proposed, L.Ready, L.Completed})
  }

  ghost predicate SomeOpen(s: State) {
    && HasCurrent(s)
    && exists t :: t in s.plans[s.run.current - 1].proposal.tasks && Open(s.domain, s.lineages[s.run.current], t.id)
  }

  ghost predicate SomeReady(s: State) { exists planned, task :: IsReady(s, planned, task) }

  lemma OpenTaskMeansReadyTask(s: State)
    requires PlansInv(s.plans, s.run, s.policy) && AllStartable(s) && SomeOpen(s)
    ensures SomeReady(s)
  {
    var tasks, lineage := s.plans[s.run.current - 1].proposal.tasks, s.lineages[s.run.current];
    assert SoundPlan(s.plans[s.run.current - 1], s.policy.maxDependencyDepth);
    if j :| 0 <= j < |tasks| && Open(s.domain, lineage, tasks[j].id) && DependenciesDone(s.domain, lineage, tasks[j]) {
      assert tasks[j] in tasks;
      assert IsReady(s, tasks[j], TaskFor(lineage, tasks[j].id).value);
    } else {
      var t :| t in tasks && Open(s.domain, lineage, t.id);
      var k :| 0 <= k < |tasks| && tasks[k] == t;
      OpenChain(s.domain, tasks, lineage, k, s.policy.maxDependencyDepth + 1);
    }
  }

  /** A running orchestration whose current tasks are all proposed, ready or completed, and not all
      completed, has a ready task: plans cannot deadlock. */
  lemma NoDeadlock(states: seq<State>, n: nat)
    requires IsRun(states) && n < |states|
    requires AllStartable(states[n]) && SomeOpen(states[n])
    ensures SomeReady(states[n])
  {
    RunExtends(states, 0, n);
    OpenTaskMeansReadyTask(states[n]);
  }

  // ---------- The ready list ----------

  datatype ReadyEntry = ReadyEntry(priority: nat, order: nat, task: L.EntityId)

  predicate Before(x: ReadyEntry, y: ReadyEntry) {
    || x.priority < y.priority
    || (x.priority == y.priority && x.order < y.order)
    || (x.priority == y.priority && x.order == y.order && x.task <= y.task)
  }

  /** An entry of the ready list: the task of the plan's `order`-th planned task, which is ready. */
  predicate ReadyAt(s: State, e: ReadyEntry)
    requires HasCurrent(s)
  {
    var tasks := s.plans[s.run.current - 1].proposal.tasks;
    && e.order < |tasks|
    && e.priority == tasks[e.order].priority
    && TaskFor(s.lineages[s.run.current], tasks[e.order].id) == Some(e.task)
    && ReadyPlanned(s.domain, s.lineages[s.run.current], tasks[e.order])
  }

  /** Exactly the ready tasks of the current plan, by priority, then plan order, then id. */
  method ReadyTasks(s: State) returns (ready: seq<ReadyEntry>)
    requires HasCurrent(s)
    ensures s.run.status != Running ==> ready == []
    ensures s.run.status == Running ==> forall e :: e in ready <==> ReadyAt(s, e)
    ensures Sorted(ready, Before)
  {
    if s.run.status != Running {
      return [];
    }
    var tasks, lineage := s.plans[s.run.current - 1].proposal.tasks, s.lineages[s.run.current];
    var found: seq<ReadyEntry> := [];
    var k := 0;
    while k < |tasks|
      invariant 0 <= k <= |tasks|
      invariant forall e :: e in found <==> ReadyAt(s, e) && e.order < k
    {
      if ReadyPlanned(s.domain, lineage, tasks[k]) {
        found := found + [ReadyEntry(tasks[k].priority, k, TaskFor(lineage, tasks[k].id).value)];
      }
      k := k + 1;
    }
    BeforeIsTotal();
    ready := SortBy(found, Before);
    RearrangedMembers(found, ready);
  }

  lemma BeforeIsTotal()
    ensures TotalPreorder(Before)
  {
  }
}
