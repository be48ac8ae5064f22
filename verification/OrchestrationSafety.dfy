/** Plans and task lineage, as every run keeps them. */
module OrchestrationSafety {
  import opened Prelude
  import opened Plans
  import opened PlanValidation
  import opened AgentSelection
  import opened Orchestration
  import L = Lifecycle
  import S = LifecycleSafety

  // ---------- Plans ----------

  ghost predicate SoundPlan(plan: PlanVersion, maxDepth: nat) {
    && DistinctIds(plan.proposal.tasks)
    && Closed(GraphOf(plan.proposal.tasks))
    && ChainsWithin(GraphOf(plan.proposal.tasks), maxDepth)
  }

  /** Every task id of an earlier plan is in each later one. */
  ghost predicate NothingDropped(plans: seq<PlanVersion>) {
    forall v, w | 0 <= v <= w < |plans| :: KeepsTasks(plans[v].proposal.tasks, plans[w].proposal.tasks)
  }

  ghost predicate PlansInv(plans: seq<PlanVersion>, run: Run, policy: Policy) {
    && run.current == |plans|
    && (forall v {:trigger SoundPlan(plans[v], policy.maxDependencyDepth)} | 0 <= v < |plans| ::
          SoundPlan(plans[v], policy.maxDependencyDepth))
    && NothingDropped(plans)
    && (if plans == [] then run.replans == 0 else |plans| == 1 + run.replans)
    && run.replans <= policy.maxReplans
  }

  lemma KeepsTransitively(x: seq<PlannedTask>, y: seq<PlannedTask>, z: seq<PlannedTask>)
    requires KeepsTasks(x, y) && KeepsTasks(y, z)
    ensures KeepsTasks(x, z)
  {
    forall t | t in x ensures Known(z, t.id) {
      var k :| 0 <= k < |y| && y[k].id == t.id;
      assert y[k] in y;
    }
  }

  lemma AcceptedIsSound(policy: Policy, workspace: nat, goal: nat, agents: seq<AgentItem>, proposal: Proposal)
    requires PlanAcceptable(policy, workspace, goal, agents, proposal)
    ensures DistinctIds(proposal.tasks) && Closed(GraphOf(proposal.tasks))
    ensures ChainsWithin(GraphOf(proposal.tasks), policy.maxDependencyDepth)
  {
    GraphClosed(Request(workspace, goal, agents, policy), proposal.tasks);
  }

  lemma PlanAppended(plans: seq<PlanVersion>, plan: PlanVersion)
    requires NothingDropped(plans)
    requires plans != [] ==> KeepsTasks(plans[|plans| - 1].proposal.tasks, plan.proposal.tasks)
    ensures NothingDropped(plans + [plan])
  {
    var after := plans + [plan];
    forall v, w | 0 <= v <= w < |after| ensures KeepsTasks(after[v].proposal.tasks, after[w].proposal.tasks) {
      if v < |plans| && w == |plans| {
        var last := plans[|plans| - 1].proposal.tasks;
        assert KeepsTasks(plans[v].proposal.tasks, last);
        KeepsTransitively(plans[v].proposal.tasks, last, plan.proposal.tasks);
      }
    }
  }

  // ---------- Lineage ----------

  /** Two materialisations agree: equal planned ids have equal tasks, different ones different tasks. */
  ghost predicate Agree(x: Lineage, y: Lineage) {
    forall j, k | 0 <= j < |x| && 0 <= k < |y| :: x[j].planned == y[k].planned <==> x[j].task == y[k].task
  }

  ghost predicate Matches(tasks: seq<PlannedTask>, lineage: Lineage) {
    |lineage| == |tasks| && forall k | 0 <= k < |tasks| :: lineage[k].planned == tasks[k].id
  }

  ghost predicate Owned(domain: L.Store, goal: L.EntityId, lineage: Lineage) {
    forall k | 0 <= k < |lineage| :: L.TaskOf(domain.entities, goal, lineage[k].task)
  }

  ghost predicate LineageAt(domain: L.Store, goal: L.EntityId, plans: seq<PlanVersion>, v: nat, lineage: Lineage) {
    && 1 <= v <= |plans|
    && Matches(plans[v - 1].proposal.tasks, lineage)
    && Owned(domain, goal, lineage)
  }

  ghost predicate LineagesInv(domain: L.Store, goal: L.EntityId, plans: seq<PlanVersion>, lineages: map<nat, Lineage>) {
    && (forall v {:trigger LineageAt(domain, goal, plans, v, lineages[v])} | v in lineages ::
          LineageAt(domain, goal, plans, v, lineages[v]))
    && AllAgree(lineages)
  }

  ghost predicate AllAgree(lineages: map<nat, Lineage>) {
    forall v, w {:trigger Agree(lineages[v], lineages[w])} | v in lineages && w in lineages ::
      Agree(lineages[v], lineages[w])
  }

  lemma OwnedStays(x: L.Store, y: L.Store, goal: L.EntityId, lineage: Lineage)
    requires Owned(x, goal, lineage) && S.Evolves(x.entities, y.entities)
    ensures Owned(y, goal, lineage)
  {
    forall k | 0 <= k < |lineage| ensures L.TaskOf(y.entities, goal, lineage[k].task) {
      var key := L.Key(L.TaskKind, lineage[k].task);
      assert L.TaskOf(x.entities, goal, lineage[k].task);
      assert S.EntityEvolves(x.entities[key], y.entities[key]);
    }
  }

  lemma LineagesStay(
    x: L.Store, y: L.Store, goal: L.EntityId, plans: seq<PlanVersion>, plans': seq<PlanVersion>,
    lineages: map<nat, Lineage>)
    requires LineagesInv(x, goal, plans, lineages) && S.Evolves(x.entities, y.entities) && plans <= plans'
    ensures LineagesInv(y, goal, plans', lineages)
  {
    forall v | v in lineages ensures LineageAt(y, goal, plans', v, lineages[v]) {
      assert LineageAt(x, goal, plans, v, lineages[v]);
      OwnedStays(x, y, goal, lineages[v]);
    }
  }

  /** `known` holds exactly the entries of the lineages up to `upto`. */
  ghost predicate Collects(known: map<PlannedId, L.EntityId>, lineages: map<nat, Lineage>, upto: nat) {
    && (forall v, k | v in lineages && 1 <= v <= upto && 0 <= k < |lineages[v]| ::
          lineages[v][k].planned in known && known[lineages[v][k].planned] == lineages[v][k].task)
    && (forall id | id in known :: Entry(lineages, upto, id, known[id]))
  }

  ghost predicate Entry(lineages: map<nat, Lineage>, upto: nat, id: PlannedId, task: L.EntityId) {
    exists v, k :: v in lineages && 1 <= v <= upto && 0 <= k < |lineages[v]| && lineages[v][k] == Materialized(id, task)
  }

  ghost predicate EntryOf(lineage: Lineage, id: PlannedId, task: L.EntityId) {
    exists k :: 0 <= k < |lineage| && lineage[k] == Materialized(id, task)
  }

  /** Each entry of the lineage is known afterwards. */
  lemma {:induction false} AddLineageKnows(known: map<PlannedId, L.EntityId>, lineage: Lineage, k: nat)
    requires Agree(lineage, lineage) && k < |lineage|
    ensures var after := AddLineage(known, lineage);
      lineage[k].planned in after && after[lineage[k].planned] == lineage[k].task
  {
    if k < |lineage| - 1 {
      AddLineageKnows(known, lineage[..|lineage| - 1], k);
    }
  }

  /** And whatever is known afterwards comes from the lineage or was known before. */
  lemma {:induction false} AddLineageInvents(known: map<PlannedId, L.EntityId>, lineage: Lineage, id: PlannedId)
    ensures var after := AddLineage(known, lineage);
      id in after ==> EntryOf(lineage, id, after[id]) || (id in known && after[id] == known[id])
    ensures id in known ==> id in AddLineage(known, lineage)
  {
    if lineage != [] {
      var rest := lineage[..|lineage| - 1];
      AddLineageInvents(known, rest, id);
      var after := AddLineage(known, lineage);
      if id == lineage[|lineage| - 1].planned {
        assert lineage[|lineage| - 1] == Materialized(id, after[id]);
      } else if id in after && EntryOf(rest, id, after[id]) {
        var k :| 0 <= k < |rest| && rest[k] == Materialized(id, after[id]);
        assert lineage[k] == Materialized(id, after[id]);
      }
    }
  }

  lemma {:induction false} PriorCollects(lineages: map<nat, Lineage>, upto: nat)
    requires AllAgree(lineages)
    ensures Collects(PriorLineage(lineages, upto), lineages, upto)
  {
    if upto > 0 {
      PriorCollects(lineages, upto - 1);
      var before, after := PriorLineage(lineages, upto - 1), PriorLineage(lineages, upto);
      if upto in lineages {
        assert Agree(lineages[upto], lineages[upto]);
        forall k | 0 <= k < |lineages[upto]|
          ensures lineages[upto][k].planned in after && after[lineages[upto][k].planned] == lineages[upto][k].task
        {
          AddLineageKnows(before, lineages[upto], k);
        }
        forall id: PlannedId
          ensures id in after ==> EntryOf(lineages[upto], id, after[id]) || (id in before && after[id] == before[id])
          ensures id in before ==> id in after
        {
          AddLineageInvents(before, lineages[upto], id);
        }
        CollectsMore(before, after, lineages, upto);
      } else {
        CollectsSame(before, lineages, upto);
      }
    }
  }

  lemma EntryWidens(lineages: map<nat, Lineage>, upto: nat, id: PlannedId, task: L.EntityId)
    requires Entry(lineages, upto, id, task)
    ensures Entry(lineages, upto + 1, id, task)
  {
    var v, k :| v in lineages && 1 <= v <= upto && 0 <= k < |lineages[v]| && lineages[v][k] == Materialized(id, task);
    assert lineages[v][k] == Materialized(id, task);
  }

  lemma CollectsSame(known: map<PlannedId, L.EntityId>, lineages: map<nat, Lineage>, upto: nat)
    requires upto > 0 && upto !in lineages && Collects(known, lineages, upto - 1)
    ensures Collects(known, lineages, upto)
  {
    forall id | id in known ensures Entry(lineages, upto, id, known[id]) {
      EntryWidens(lineages, upto - 1, id, known[id]);
    }
  }

  lemma CollectsMore(
    before: map<PlannedId, L.EntityId>, after: map<PlannedId, L.EntityId>, lineages: map<nat, Lineage>, upto: nat)
    requires upto > 0 && upto in lineages && Collects(before, lineages, upto - 1) && AllAgree(lineages)
    requires forall k | 0 <= k < |lineages[upto]| ::
      lineages[upto][k].planned in after && after[lineages[upto][k].planned] == lineages[upto][k].task
    requires forall id | id in after ::
      EntryOf(lineages[upto], id, after[id]) || (id in before && after[id] == before[id])
    requires forall id | id in before :: id in after
    ensures Collects(after, lineages, upto)
  {
    forall v, k | v in lineages && 1 <= v <= upto && 0 <= k < |lineages[v]|
      ensures lineages[v][k].planned in after && after[lineages[v][k].planned] == lineages[v][k].task
    {
      var id := lineages[v][k].planned;
      if v < upto {
        assert id in before && before[id] == lineages[v][k].task;
        assert Agree(lineages[v], lineages[upto]);
        assert EntryOf(lineages[upto], id, after[id]) || after[id] == before[id];
      }
    }
    forall id | id in after ensures Entry(lineages, upto, id, after[id]) {
      if EntryOf(lineages[upto], id, after[id]) {
        var k :| 0 <= k < |lineages[upto]| && lineages[upto][k] == Materialized(id, after[id]);
        assert lineages[upto][k] == Materialized(id, after[id]);
      } else {
        EntryWidens(lineages, upto - 1, id, before[id]);
      }
    }
  }

  /** What is known is one-to-one and owned by the goal. */
  ghost predicate KnownInv(domain: L.Store, goal: L.EntityId, known: map<PlannedId, L.EntityId>) {
    && (forall id | id in known :: L.TaskOf(domain.entities, goal, known[id]))
    && (forall x, y | x in known && y in known && known[x] == known[y] :: x == y)
  }

  lemma CollectedIsKnown(
    domain: L.Store, goal: L.EntityId, plans: seq<PlanVersion>, lineages: map<nat, Lineage>, known: map<PlannedId,
    L.EntityId>, upto: nat)
    requires LineagesInv(domain, goal, plans, lineages) && Collects(known, lineages, upto)
    ensures KnownInv(domain, goal, known)
  {
    forall id | id in known ensures L.TaskOf(domain.entities, goal, known[id]) {
      assert Entry(lineages, upto, id, known[id]);
      var v, k :| v in lineages && 1 <= v <= upto && 0 <= k < |lineages[v]|
        && lineages[v][k] == Materialized(id, known[id]);
      assert LineageAt(domain, goal, plans, v, lineages[v]);
    }
    forall x, y | x in known && y in known && known[x] == known[y] ensures x == y {
      assert Entry(lineages, upto, x, known[x]) && Entry(lineages, upto, y, known[y]);
      var v, j :| v in lineages && 1 <= v <= upto && 0 <= j < |lineages[v]|
        && lineages[v][j] == Materialized(x, known[x]);
      var w, k :| w in lineages && 1 <= w <= upto && 0 <= k < |lineages[w]|
        && lineages[w][k] == Materialized(y, known[y]);
      assert Agree(lineages[v], lineages[w]);
    }
  }

  // ---------- Allotting tasks ----------

  /** The lineage reuses what is known and is otherwise made of tasks the store did not have. */
  ghost predicate Allotted(
    domain: L.Store, goal: L.EntityId, prior: map<PlannedId, L.EntityId>, tasks: seq<PlannedTask>, after: L.Store,
    lineage: Lineage)
  {
    && Matches(tasks, lineage)
    && Owned(after, goal, lineage)
    && (forall k | 0 <= k < |lineage| ::
          if lineage[k].planned in prior then lineage[k].task == prior[lineage[k].planned]
          else L.Key(L.TaskKind, lineage[k].task) !in domain.entities)
    && (forall j, k | 0 <= j < k < |lineage| :: lineage[j].task != lineage[k].task)
  }

  lemma NewTaskOwned(domain: L.Store, id: L.EntityId, workspace: nat, goal: L.EntityId, at: int)
    requires S.Inv(domain) && L.NewTask(domain, id, workspace, goal, at).Done?
    ensures var after := L.NewTask(domain, id, workspace, goal, at).store;
      && S.Inv(after) && S.Evolves(domain.entities, after.entities)
      && L.Key(L.TaskKind, id) !in domain.entities && L.TaskOf(after.entities, goal, id)
  {
    S.NewTaskKeeps(domain, id, workspace, goal, at);
  }

  lemma EvolvesReflexively(domain: L.Store)
    ensures S.Evolves(domain.entities, domain.entities)
  {
  }

  lemma {:induction false} AllotKeeps(
    domain: L.Store, workspace: nat, goal: L.EntityId, prior: map<PlannedId, L.EntityId>,
    tasks: seq<PlannedTask>, ids: seq<L.EntityId>, at: int)
    requires S.Inv(domain) && KnownInv(domain, goal, prior) && DistinctIds(tasks) && |ids| == |tasks|
    requires Allot(domain, workspace, goal, prior, tasks, ids, at).Ok?
    ensures var (after, lineage) := Allot(domain, workspace, goal, prior, tasks, ids, at).value;
      && S.Inv(after) && S.Evolves(domain.entities, after.entities)
      && Allotted(domain, goal, prior, tasks, after, lineage)
    decreases |tasks|
  {
    if tasks == [] {
      EvolvesReflexively(domain);
    } else {
      var n := |tasks| - 1;
      AllotKeeps(domain, workspace, goal, prior, tasks[..n], ids[..n], at);
      var (before, lineage) := Allot(domain, workspace, goal, prior, tasks[..n], ids[..n], at).value;
      var id := tasks[n].id;
      if id in prior {
        KnownTaskAdded(domain, goal, prior, tasks, before, lineage);
      } else {
        NewTaskOwned(before, ids[n], workspace, goal, at);
        var after := L.NewTask(before, ids[n], workspace, goal, at).store;
        S.EvolvesTransitive(domain.entities, before.entities, after.entities);
        NewTaskAdded(domain, goal, prior, tasks, before, lineage, after, ids[n]);
      }
    }
  }

  lemma KnownTaskAdded(
    domain: L.Store, goal: L.EntityId, prior: map<PlannedId, L.EntityId>, tasks: seq<PlannedTask>, before: L.Store,
    lineage: Lineage)
    requires tasks != [] && DistinctIds(tasks) && KnownInv(domain, goal, prior)
    requires Allotted(domain, goal, prior, tasks[..|tasks| - 1], before, lineage)
    requires S.Evolves(domain.entities, before.entities)
    requires tasks[|tasks| - 1].id in prior
    ensures Allotted(domain, goal, prior, tasks, before,
                     lineage + [Materialized(tasks[|tasks| - 1].id, prior[tasks[|tasks| - 1].id])])
  {
    var id := tasks[|tasks| - 1].id;
    OwnedStays(domain, before, goal, [Materialized(id, prior[id])]);
    assert Owned(before, goal, [Materialized(id, prior[id])]);
    assert [Materialized(id, prior[id])][0].task == prior[id];
    forall k | 0 <= k < |lineage| ensures lineage[k].task != prior[id] {
      assert lineage[k].planned == tasks[k].id != id;
    }
  }

  lemma NewTaskAdded(
    domain: L.Store, goal: L.EntityId, prior: map<PlannedId, L.EntityId>, tasks: seq<PlannedTask>,
    before: L.Store, lineage: Lineage, after: L.Store, task: L.EntityId)
    requires tasks != [] && DistinctIds(tasks) && tasks[|tasks| - 1].id !in prior
    requires Allotted(domain, goal, prior, tasks[..|tasks| - 1], before, lineage)
    requires S.Evolves(domain.entities, before.entities) && S.Evolves(before.entities, after.entities)
    requires L.Key(L.TaskKind, task) !in before.entities && L.TaskOf(after.entities, goal, task)
    ensures Allotted(domain, goal, prior, tasks, after, lineage + [Materialized(tasks[|tasks| - 1].id, task)])
  {
    OwnedStays(before, after, goal, lineage);
    forall k | 0 <= k < |lineage| ensures lineage[k].task != task {
      assert L.TaskOf(before.entities, goal, lineage[k].task);
    }
    assert L.Key(L.TaskKind, task) !in domain.entities;
  }

  /** A lineage allotted over everything materialised before agrees with all of it. */
  lemma AllottedAgrees(
    domain: L.Store, goal: L.EntityId, plans: seq<PlanVersion>, lineages: map<nat, Lineage>, upto: nat,
    prior: map<PlannedId, L.EntityId>, tasks: seq<PlannedTask>, after: L.Store, lineage: Lineage, v: nat)
    requires LineagesInv(domain, goal, plans, lineages) && Collects(prior, lineages, upto)
    requires Allotted(domain, goal, prior, tasks, after, lineage)
    requires v in lineages && 1 <= v <= upto
    ensures Agree(lineages[v], lineage) && Agree(lineage, lineages[v])
  {
    CollectedIsKnown(domain, goal, plans, lineages, prior, upto);
    assert LineageAt(domain, goal, plans, v, lineages[v]);
    forall j, k | 0 <= j < |lineages[v]| && 0 <= k < |lineage|
      ensures lineages[v][j].planned == lineage[k].planned <==> lineages[v][j].task == lineage[k].task
    {
      assert lineages[v][j].planned in prior && prior[lineages[v][j].planned] == lineages[v][j].task;
      assert L.TaskOf(domain.entities, goal, lineages[v][j].task);
    }
  }

  lemma SelfAgrees(tasks: seq<PlannedTask>, lineage: Lineage)
    requires DistinctIds(tasks) && Matches(tasks, lineage)
    requires forall j, k | 0 <= j < k < |lineage| :: lineage[j].task != lineage[k].task
    ensures Agree(lineage, lineage)
  {
    forall j, k | 0 <= j < |lineage| && 0 <= k < |lineage|
      ensures lineage[j].planned == lineage[k].planned <==> lineage[j].task == lineage[k].task
    {
      if j != k {
        assert tasks[if j < k then j else k].id != tasks[if j < k then k else j].id;
      }
    }
  }

  lemma AgreementExtends(lineages: map<nat, Lineage>, v: nat, lineage: Lineage)
    requires AllAgree(lineages) && v !in lineages && Agree(lineage, lineage)
    requires forall w | w in lineages :: Agree(lineages[w], lineage) && Agree(lineage, lineages[w])
    ensures AllAgree(lineages[v := lineage])
  {
    var after := lineages[v := lineage];
    forall w, x | w in after && x in after ensures Agree(after[w], after[x]) {
      assert w in lineages && x in lineages ==> Agree(lineages[w], lineages[x]);
    }
  }
}
