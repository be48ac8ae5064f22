/** What every committed database satisfies, and how one may follow another.

    `Inv` and `Evolves` are kept by each command; the protocol theorems use only them.
  */
module GovernedInvariants {
  import opened Prelude
  import opened GovernedRecords
  import opened GovernedCommands

  // ---------- The invariant ----------

  ghost predicate RunsInv(runs: map<RunId, AgentRun>, parents: map<RunId, Parents>, actions: map<ActionId, Action>) {
    && runs.Keys == parents.Keys
    && (forall r | r in runs :: runs[r].id == r && (runs[r].Terminal() ==> !runs[r].pending))
    && (forall a | a in actions :: actions[a].id == a && actions[a].run in runs)
  }

  ghost predicate RecordBound(actions: map<ActionId, Action>, a: ActionId, record: GovernedAction) {
    && a in actions
    && record.intent.action == a
    && record.intent.run == actions[a].run
    && record.intent.request == actions[a].args
    && record.intent.request.FixtureMessage?
    && record.WellFormed()
    && (record.intent.effect != Deny ==>
          record.intent.tool.kind == SendFixtureMessage && record.intent.tool.risk == ExternalWrite)
  }

  ghost predicate RecordsInv(actions: map<ActionId, Action>, governed: map<ActionId, GovernedAction>) {
    forall a | a in governed :: RecordBound(actions, a, governed[a])
  }

  ghost predicate CallBound(
    runs: map<RunId, AgentRun>, actions: map<ActionId, Action>, i: InvocationId, call: Invocation)
  {
    && call.id == i
    && call.WellFormed()
    && call.action in actions
    && actions[call.action].run == call.run
    && call.run in runs
    && call.runVersion <= runs[call.run].version
    && call.input == actions[call.action].args
  }

  ghost predicate CallsInv(
    runs: map<RunId, AgentRun>, actions: map<ActionId, Action>, calls: map<InvocationId, Invocation>)
  {
    forall i | i in calls :: CallBound(runs, actions, i, calls[i])
  }

  ghost predicate OneCallPerAction(calls: map<InvocationId, Invocation>) {
    forall i, j | i in calls && j in calls && calls[i].action == calls[j].action :: i == j
  }

  ghost predicate RecordClaims(calls: map<InvocationId, Invocation>, a: ActionId, record: GovernedAction) {
    record.invocation.Some? ==>
      && record.invocation.value in calls
      && calls[record.invocation.value].action == a
      && calls[record.invocation.value].tool == record.intent.tool
      && record.intent.effect != Deny
      && !record.Closed()
  }

  ghost predicate CallClaimed(governed: map<ActionId, GovernedAction>, i: InvocationId, call: Invocation) {
    call.Consequential() ==> call.action in governed && governed[call.action].invocation == Some(i)
  }

  /** Governed records and consequential calls point at each other. */
  ghost predicate ClaimsInv(governed: map<ActionId, GovernedAction>, calls: map<InvocationId, Invocation>) {
    && (forall a | a in governed :: RecordClaims(calls, a, governed[a]))
    && (forall i | i in calls :: CallClaimed(governed, i, calls[i]))
  }

  ghost predicate ReceiptBound(calls: map<InvocationId, Invocation>, r: ReceiptId, receipt: Receipt) {
    && receipt.id == r
    && receipt.WellFormed()
    && receipt.invocation.id in calls
    && calls[receipt.invocation.id] == receipt.invocation
  }

  /** Receipts are exactly the settled calls, one each. */
  ghost predicate ReceiptsInv(calls: map<InvocationId, Invocation>, receipts: map<ReceiptId, Receipt>) {
    && (forall r | r in receipts :: ReceiptBound(calls, r, receipts[r]))
    && (forall q, r | q in receipts && r in receipts && receipts[q].invocation.id == receipts[r].invocation.id ::
        q == r)
    && (forall i | i in calls && calls[i].status != InFlight :: HasReceipt(receipts, i))
  }

  ghost predicate Applied(runs: map<RunId, AgentRun>, receipts: map<ReceiptId, Receipt>, seen: Observation) {
    seen.receipt.Some? ==>
      && seen.receipt.value in receipts
      && receipts[seen.receipt.value].invocation.run == seen.run
      && seen.run in runs
      && receipts[seen.receipt.value].invocation.runVersion < runs[seen.run].version
  }

  /** A receipt is applied to its run at most once, and then the run has left the version that claimed the call. */
  ghost predicate AppliedOnceInv(
    runs: map<RunId, AgentRun>, receipts: map<ReceiptId, Receipt>, observations: seq<Observation>)
  {
    && (forall k | 0 <= k < |observations| :: Applied(runs, receipts, observations[k]))
    && (forall j, k | 0 <= j < k < |observations| :: observations[j].receipt.Some? ==>
          observations[j].receipt != observations[k].receipt)
  }

  /** A succeeded run left no consequence open. */
  ghost predicate SuccessInv(
    runs: map<RunId, AgentRun>, governed: map<ActionId, GovernedAction>, receipts: map<ReceiptId, Receipt>)
  {
    forall r | r in runs && runs[r].status == Succeeded :: ConsequencesResolved(governed, receipts, r)
  }

  ghost predicate Inv(db: Db) {
    && RunsInv(db.runs, db.parents, db.actions)
    && RecordsInv(db.actions, db.governed)
    && CallsInv(db.runs, db.actions, db.invocations)
    && OneCallPerAction(db.invocations)
    && ClaimsInv(db.governed, db.invocations)
    && ReceiptsInv(db.invocations, db.receipts)
    && AppliedOnceInv(db.runs, db.receipts, db.observations)
    && SuccessInv(db.runs, db.governed, db.receipts)
  }

  // ---------- The order on databases ----------

  ghost predicate RecordEvolves(x: GovernedAction, y: GovernedAction) {
    && y.intent == x.intent
    && x.version <= y.version
    && x.decisions <= y.decisions
    && (x.cancelled ==> y.cancelled)
    && (x.consumed ==> y.consumed)
    && (x.invocation.Some? ==> y == x.(consumed := y.consumed, version := y.version))
    && (x.Closed() ==> y.Closed() && y.invocation == x.invocation)
  }

  ghost predicate RunEvolves(x: AgentRun, y: AgentRun) {
    && y.id == x.id
    && y.definition == x.definition
    && y.deadline == x.deadline
    && (y == x || (x.version < y.version && !x.Terminal()))
  }

  ghost predicate CallEvolves(x: Invocation, y: Invocation) {
    y == x || y.FinishOf(x)
  }

  ghost predicate ActionsEvolve(x: map<ActionId, Action>, y: map<ActionId, Action>) {
    forall k | k in x :: k in y && y[k] == x[k]
  }

  ghost predicate RecordsEvolve(x: map<ActionId, GovernedAction>, y: map<ActionId, GovernedAction>) {
    forall k | k in x :: k in y && RecordEvolves(x[k], y[k])
  }

  ghost predicate CallsEvolve(x: map<InvocationId, Invocation>, y: map<InvocationId, Invocation>) {
    forall k | k in x :: k in y && CallEvolves(x[k], y[k])
  }

  ghost predicate ReceiptsEvolve(x: map<ReceiptId, Receipt>, y: map<ReceiptId, Receipt>) {
    forall k | k in x :: k in y && y[k] == x[k]
  }

  ghost predicate RunsEvolve(x: map<RunId, AgentRun>, y: map<RunId, AgentRun>) {
    forall k | k in x :: k in y && RunEvolves(x[k], y[k])
  }

  ghost predicate Evolves(a: Db, b: Db) {
    && b.holds == a.holds
    && b.incidents == a.incidents
    && ActionsEvolve(a.actions, b.actions)
    && RecordsEvolve(a.governed, b.governed)
    && CallsEvolve(a.invocations, b.invocations)
    && ReceiptsEvolve(a.receipts, b.receipts)
    && RunsEvolve(a.runs, b.runs)
    && a.observations <= b.observations
  }

  lemma EvolvesReflexive(a: Db)
    ensures ActionsEvolve(a.actions, a.actions)
    ensures RecordsEvolve(a.governed, a.governed)
    ensures CallsEvolve(a.invocations, a.invocations)
    ensures ReceiptsEvolve(a.receipts, a.receipts)
    ensures RunsEvolve(a.runs, a.runs)
  {
  }

  lemma EvolvesTransitive(a: Db, b: Db, c: Db)
    requires Evolves(a, b) && Evolves(b, c)
    ensures Evolves(a, c)
  {
    forall k | k in a.governed ensures k in c.governed && RecordEvolves(a.governed[k], c.governed[k]) {
      var x, y, z := a.governed[k], b.governed[k], c.governed[k];
      assert RecordEvolves(x, y) && RecordEvolves(y, z);
    }
    forall k | k in a.invocations ensures k in c.invocations && CallEvolves(a.invocations[k], c.invocations[k]) {
      assert CallEvolves(b.invocations[k], c.invocations[k]);
    }
    forall k | k in a.runs ensures k in c.runs && RunEvolves(a.runs[k], c.runs[k]) {
      assert RunEvolves(b.runs[k], c.runs[k]);
    }
  }

  ghost predicate NoNewClaims(x: map<ActionId, GovernedAction>, y: map<ActionId, GovernedAction>) {
    forall k | k in y && y[k].invocation.Some? :: k in x && x[k].invocation == y[k].invocation
  }

  /** No new call is claimed between the two databases. */
  ghost predicate NoNewCalls(a: Db, b: Db) {
    b.invocations.Keys == a.invocations.Keys && NoNewClaims(a.governed, b.governed)
  }

  /** A quiet command keeps the invariant, follows the order and claims nothing. */
  ghost predicate Quiet(a: Db, b: Db) {
    Inv(b) && Evolves(a, b) && NoNewCalls(a, b)
  }

  /** A record as it stood when its claim was made. */
  function Unclaimed(record: GovernedAction): GovernedAction { record.(invocation := None) }

  /** One claim: exactly one new call, made on an executable record and, if consequential, under
      normal mode on an intent no restore holds. */
  ghost predicate ClaimStep(a: Db, b: Db, call: Invocation, now: int) {
    && Inv(b)
    && Evolves(a, b)
    && call.id !in a.invocations
    && call.status == InFlight
    && call.startedAt == now
    && b.invocations == a.invocations[call.id := call]
    && (forall k | k in b.governed && b.governed[k].invocation.Some? && b.governed[k].invocation != Some(call.id) ::
          k in a.governed && a.governed[k].invocation == b.governed[k].invocation)
    && (call.Consequential() ==>
          && call.action in b.governed
          && Unclaimed(b.governed[call.action]).Executable(now)
          && MayDispatch(b, call.action))
  }
}
