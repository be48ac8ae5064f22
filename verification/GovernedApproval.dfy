/** A governed write whose policy asks for an approval: asking, deciding, resuming and dispatching. */
module GovernedApproval {
  import opened Prelude
  import opened GovernedRecords
  import opened GovernedCommands
  import opened GovernedInvariants
  import opened GovernedPreservation
  import opened GovernedWorld
  import opened GovernedWorldInvariants
  import opened GovernedWorldPreservation
  import opened GovernedSafety
  import opened GovernedBindings
  import opened GovernedDispatch

  /** The request would be put to a reviewer now, and nothing but the answer is missing. */
  predicate AwaitsApproval(db: Db, r: Request, now: int) {
    && InvokeGuard(db, r.run, r.action, r.expected, now).None?
    && Authorize(db, db.runs[r.run], r.action, r.orgOk, now).Wait?
    && !BudgetSpent(db, db.runs[r.run], r.action.tool)
    && db.runs[r.run].definition.enabled
    && db.policy.Some? && db.policy.value.reviewers != {}
  }

  /** Now, or as soon as a reviewer approves. */
  predicate Dispatchable(db: Db, r: Request, now: int) {
    ReadyToDispatch(db, r, now) || AwaitsApproval(db, r, now)
  }

  // ---------- What waits ----------

  /** The record of a request that had none: it requires an approval and has no decision. */
  ghost predicate NewlyAsked(db: Db, r: Request, record: GovernedAction, now: int) {
    && r.run in db.runs && db.policy.Some? && r.action.args.FixtureMessage?
    && var run := db.runs[r.run];
    && var grant := FirstGrant(run.definition.allowedTools, r.action.tool);
    && grant.Some? && grant.value in db.registry
    && var entry := db.registry[grant.value];
    && entry.enabled && entry.version.kind == SendFixtureMessage && ValidInput(r.action.args, entry.version)
    && var intent := NewIntent(run, r.action, entry.version, db.policy.value, now);
    && record == GovernedAction(intent, [], false, None, false, 1)
    && record.intent.effect == Required && now < record.intent.expiresAt && r.orgOk
  }

  lemma WaitingRecord(db: Db, r: Request, now: int)
    requires RunsInv(db.runs, db.parents, db.actions) && AwaitsApproval(db, r, now) && r.action.id !in db.governed
    ensures var asked := Authorize(db, db.runs[r.run], r.action, r.orgOk, now).db;
      && r.action.id in asked.governed && NewlyAsked(db, r, asked.governed[r.action.id], now)
      && asked == db.(governed := db.governed[r.action.id := asked.governed[r.action.id]])
  {
  }

  // ---------- Asking, deciding, resuming ----------

  function Decided(record: GovernedAction, reviewer: ReviewerId, now: int): GovernedAction {
    record.(
      decisions := record.decisions + [Decision(Approved, record.intent.policy.version, Some(reviewer), now)],
      version := record.version + 1)
  }

  /** The database once the run waits. */
  function Asking(db: Db, r: Request, record: GovernedAction): Db
    requires r.run in db.runs && db.runs[r.run].id in db.parents
  {
    ApprovalWait(db.(governed := db.governed[r.action.id := record]), db.runs[r.run])
  }

  lemma AskSettles(db: Db, r: Request, id: InvocationId, now: int)
    requires RunsInv(db.runs, db.parents, db.actions) && AwaitsApproval(db, r, now) && r.action.id !in db.governed
    ensures var record := Authorize(db, db.runs[r.run], r.action, r.orgOk, now).db.governed[r.action.id];
      && NewlyAsked(db, r, record, now)
      && Invoke(db, r.run, r.action, r.expected, r.orgOk, id, now) == Settled(Asking(db, r, record))
  {
    WaitingRecord(db, r, now);
  }

  /** A reviewer of the policy may approve what has just been asked. */
  lemma ReviewerApproves(db: Db, record: GovernedAction, reviewer: ReviewerId, now: int)
    requires record.intent.action in db.governed && db.governed[record.intent.action] == record
    requires RecordBound(db.actions, record.intent.action, record) && record.intent.run in db.runs
    requires record.decisions == [] && record.HasRequest() && !record.cancelled && record.invocation.None?
    requires db.policy == Some(record.intent.policy) && reviewer in record.intent.policy.reviewers
    requires record.intent.createdAt <= now < record.intent.expiresAt
    ensures Decide(db, record.intent.action, record.intent.Digest(), reviewer, Approved, now)
         == Done(db.(governed := db.governed[record.intent.action := Decided(record, reviewer, now)]))
  {
    var decided := Decided(record, reviewer, now);
    assert decided.decisions == [Decision(Approved, record.intent.policy.version, Some(reviewer), now)];
    assert decided.WellFormed();
    assert record.decisions <= decided.decisions;
  }

  /** The run that asked, running again. */
  function Resumed(db: Db, r: Request): Db
    requires r.run in db.runs && r.run in db.parents
  {
    db.(
      parents := db.parents[r.run := SetExecution(db.parents[r.run], ExecutionRunning)],
      runs := db.runs[r.run := db.runs[r.run].Evolve(Running, db.runs[r.run].pending)])
  }

  /** An approved, still bound intent reopens its run. */
  lemma ApprovedReopens(db: Db, r: Request, tool: ToolVersion, now: int)
    requires r.run in db.runs && r.run in db.parents && r.action.id in db.governed && r.action.id in db.actions
    requires db.runs[r.run].id == r.run && db.actions[r.action.id] == r.action
    requires tool.grant in db.registry && db.registry[tool.grant].enabled && db.registry[tool.grant].version == tool
    requires db.runs[r.run].status == Waiting && db.runs[r.run].pending && now < db.runs[r.run].deadline
    requires db.parents[r.run].(execution := ExecutionRunning).Active()
    requires db.parents[r.run].execution == ExecutionWaiting
    requires ValidInput(r.action.args, tool)
    requires StillBound(db, db.governed[r.action.id], db.runs[r.run], r.action, tool, r.orgOk)
    requires db.governed[r.action.id].Executable(now)
    ensures ReopenForIntent(db, r.run, r.action.id, db.runs[r.run].version, r.orgOk, now) == Done(Resumed(db, r))
  {
  }

  /** The whole way, as one database: the run two versions on, its execution too, the record approved. */
  function Approving(db: Db, r: Request, record: GovernedAction, reviewer: ReviewerId, now: int): Db
    requires r.run in db.runs && db.runs[r.run].id == r.run && r.run in db.parents
  {
    var asking := Asking(db, r, record);
    asking.(governed := asking.governed[r.action.id := Decided(record, reviewer, now)])
  }

  ghost predicate Asks(db: Db, r: Request, record: GovernedAction, reviewer: ReviewerId, now: int) {
    && RunsInv(db.runs, db.parents, db.actions) && Keyed(db.registry)
    && InvokeGuard(db, r.run, r.action, r.expected, now).None?
    && !BudgetSpent(db, db.runs[r.run], r.action.tool)
    && db.runs[r.run].definition.enabled
    && NewlyAsked(db, r, record, now)
    && reviewer in db.policy.value.reviewers
  }

  lemma ApprovedStaysBound(db: Db, r: Request, record: GovernedAction, reviewer: ReviewerId, now: int)
    requires Asks(db, r, record, reviewer, now)
    ensures var decided := Decided(record, reviewer, now);
      && decided.Executable(now)
      && StillBound(Approving(db, r, record, reviewer, now), decided,
          Approving(db, r, record, reviewer, now).runs[r.run],
                    r.action, record.intent.tool, r.orgOk)
  {
    FirstGrantAllowed(db.runs[r.run].definition.allowedTools, r.action.tool);
  }

  lemma ApprovalReopens(db: Db, r: Request, record: GovernedAction, reviewer: ReviewerId, now: int)
    requires Asks(db, r, record, reviewer, now)
    ensures var approving := Approving(db, r, record, reviewer, now);
      && r.run in approving.runs && r.run in approving.parents
      && ReopenForIntent(approving, r.run, r.action.id, db.runs[r.run].version + 1, r.orgOk, now)
         == Done(Resumed(approving, r))
  {
    ApprovedStaysBound(db, r, record, reviewer, now);
    ApprovedReopens(Approving(db, r, record, reviewer, now), r, record.intent.tool, now);
  }

  /** The same request at the version the run has reached. */
  function Again(db: Db, r: Request): Request
    requires r.run in db.runs
  {
    r.(expected := db.runs[r.run].version + 2)
  }

  lemma ResumedPasses(db: Db, r: Request, record: GovernedAction, reviewer: ReviewerId, now: int)
    requires Asks(db, r, record, reviewer, now)
    ensures var resumed := Resumed(Approving(db, r, record, reviewer, now), r);
      InvokeGuard(resumed, r.run, r.action, db.runs[r.run].version + 2, now).None?
  {
    SameCalls(db, Resumed(Approving(db, r, record, reviewer, now), r), r);
  }

  lemma ResumedProceeds(db: Db, r: Request, record: GovernedAction, reviewer: ReviewerId, now: int)
    requires Asks(db, r, record, reviewer, now)
    ensures var resumed := Resumed(Approving(db, r, record, reviewer, now), r);
      var authorized := Authorize(resumed, resumed.runs[r.run], r.action, r.orgOk, now);
      authorized.Proceed? && authorized.tool.kind == SendFixtureMessage
  {
    ApprovedStaysBound(db, r, record, reviewer, now);
  }

  /** And then nothing is missing any more. */
  lemma ResumedIsReady(db: Db, r: Request, record: GovernedAction, reviewer: ReviewerId, now: int)
    requires Asks(db, r, record, reviewer, now)
    ensures ReadyToDispatch(Resumed(Approving(db, r, record, reviewer, now), r), Again(db, r), now)
  {
    ResumedPasses(db, r, record, reviewer, now);
    ResumedProceeds(db, r, record, reviewer, now);
    SameCalls(db, Resumed(Approving(db, r, record, reviewer, now), r), r);
    SameBudget(db, Resumed(Approving(db, r, record, reviewer, now), r), db.runs[r.run], r.action.tool);
  }

  lemma SameBudget(x: Db, y: Db, run: AgentRun, tool: nat)
    requires x.invocations == y.invocations && run.id in y.runs
    requires y.runs[run.id] == run.(version := y.runs[run.id].version)
    ensures BudgetSpent(x, run, tool) == BudgetSpent(y, y.runs[run.id], tool)
  {
    assert RunInvocations(x, run.id) == RunInvocations(y, run.id);
    assert ToolInvocations(x, run.id, tool) == ToolInvocations(y, run.id, tool);
  }

  // ---------- In a world ----------

  lemma AwaitingAsks(db: Db, r: Request, reviewer: ReviewerId, now: int)
    requires Inv(db) && Keyed(db.registry) && AwaitsApproval(db, r, now) && r.action.id !in db.governed
    requires reviewer in db.policy.value.reviewers
    ensures Asks(db, r, Authorize(db, db.runs[r.run], r.action, r.orgOk, now).db.governed[r.action.id], reviewer, now)
  {
    WaitingRecord(db, r, now);
  }

  ghost predicate AskedAndApproved(
    db: Db, r: Request, record: GovernedAction, reviewer: ReviewerId, id: InvocationId, now: int, asking: Db,
    approving: Db)
    requires r.run in db.runs
  {
    && Invoke(db, r.run, r.action, r.expected, r.orgOk, id, now) == Settled(asking)
    && Decide(asking, r.action.id, record.intent.Digest(), reviewer, Approved, now) == Done(approving)
    && r.run in approving.runs && r.run in approving.parents
    && ReopenForIntent(approving, r.run, r.action.id, db.runs[r.run].version + 1, r.orgOk, now)
       == Done(Resumed(approving, r))
  }

  lemma AskedIsApproved(db: Db, r: Request, record: GovernedAction, reviewer: ReviewerId, id: InvocationId, now: int)
    requires Inv(db) && Asks(db, r, record, reviewer, now)
    requires Invoke(db, r.run, r.action, r.expected, r.orgOk, id, now) == Settled(Asking(db, r, record))
    ensures Decide(Asking(db, r, record), r.action.id, record.intent.Digest(), reviewer, Approved, now)
         == Done(Approving(db, r, record, reviewer, now))
  {
    InvokeKeeps(db, r.run, r.action, r.expected, r.orgOk, id, now);
    BoundRecord(Asking(db, r, record), r.action.id);
    ReviewerApproves(Asking(db, r, record), record, reviewer, now);
  }

  lemma AskThenApprove(db: Db, r: Request, reviewer: ReviewerId, id: InvocationId, now: int)
    requires Inv(db) && Keyed(db.registry) && AwaitsApproval(db, r, now) && r.action.id !in db.governed
    requires reviewer in db.policy.value.reviewers
    ensures var record := Authorize(db, db.runs[r.run], r.action, r.orgOk, now).db.governed[r.action.id];
      && Asks(db, r, record, reviewer, now)
      && AskedAndApproved(db, r, record, reviewer, id, now, Asking(db, r, record),
          Approving(db, r, record, reviewer, now))
  {
    var record := Authorize(db, db.runs[r.run], r.action, r.orgOk, now).db.governed[r.action.id];
    AwaitingAsks(db, r, reviewer, now);
    AskSettles(db, r, id, now);
    AskedIsApproved(db, r, record, reviewer, id, now);
    ApprovalReopens(db, r, record, reviewer, now);
  }

  lemma ResumedKeepsInv(
    db: Db, r: Request, record: GovernedAction, reviewer: ReviewerId, id: InvocationId, now: int, asking: Db,
    approving: Db)
    requires Inv(db) && r.run in db.runs
    requires AskedAndApproved(db, r, record, reviewer, id, now, asking, approving)
    ensures Inv(Resumed(approving, r))
  {
    InvokeKeeps(db, r.run, r.action, r.expected, r.orgOk, id, now);
    DecideKeeps(asking, r.action.id, record.intent.Digest(), reviewer, Approved, now);
    ReopenForIntentKeeps(approving, r.run, r.action.id, db.runs[r.run].version + 1, r.orgOk, now);
  }

  lemma ApproveStep(
    w: World, d: DbId, a: ActionId, digest: (RunId, ActionId, ToolVersion, Input), reviewer: ReviewerId, db: Db)
    requires d in w.dbs && Decide(w.dbs[d], a, digest, reviewer, Approved, w.clock) == Done(db)
    ensures Step(w, Do(d, DecideCmd(a, digest, reviewer, Approved))) == w.(dbs := w.dbs[d := db])
  {
  }

  lemma ReopenStep(w: World, d: DbId, run: RunId, a: ActionId, expected: nat, orgOk: bool, db: Db)
    requires d in w.dbs && ReopenForIntent(w.dbs[d], run, a, expected, orgOk, w.clock) == Done(db)
    ensures Step(w, Do(d, ReopenForIntentCmd(run, a, expected, orgOk))) == w.(dbs := w.dbs[d := db])
  {
  }

  lemma AskStep(w: World, d: DbId, r: Request, id: InvocationId, db: Db)
    requires d in w.dbs && id !in w.calls
    requires Invoke(w.dbs[d], r.run, r.action, r.expected, r.orgOk, id, w.clock) == Settled(db)
    ensures Step(w, InvokeTool(d, r.run, r.action, r.expected, r.orgOk, id)) == w.(dbs := w.dbs[d := db])
  {
  }

  lemma ThreeSteps(w: World, e: Event, f: Event, g: Event)
    ensures Exec(w, [e, f, g]) == Step(Step(Step(w, e), f), g)
  {
    assert [e, f, g][..2] == [e, f];
    TwoSteps(w, e, f);
  }

  lemma ApprovedBy(
    w: World, d: DbId, r: Request, record: GovernedAction, reviewer: ReviewerId, id: InvocationId, asking: Db,
    approving: Db)
    returns (later: seq<Event>)
    requires d in w.dbs && id !in w.calls && r.run in w.dbs[d].runs
    requires AskedAndApproved(w.dbs[d], r, record, reviewer, id, w.clock, asking, approving)
    ensures Exec(w, later) == w.(dbs := w.dbs[d := Resumed(approving, r)])
  {
    var ask := InvokeTool(d, r.run, r.action, r.expected, r.orgOk, id);
    var decide := DecideCmd(r.action.id, record.intent.Digest(), reviewer, Approved);
    var reopen := ReopenForIntentCmd(r.run, r.action.id, w.dbs[d].runs[r.run].version + 1, r.orgOk);
    var w1 := w.(dbs := w.dbs[d := asking]);
    var w2 := w.(dbs := w.dbs[d := approving]);
    AskStep(w, d, r, id, asking);
    ApproveStep(w1, d, r.action.id, record.intent.Digest(), reviewer, approving);
    assert w1.dbs[d := approving] == w2.dbs;
    ReopenStep(w2, d, r.run, r.action.id, w.dbs[d].runs[r.run].version + 1, r.orgOk, Resumed(approving, r));
    assert w2.dbs[d := Resumed(approving, r)] == w.dbs[d := Resumed(approving, r)];
    later := [ask, Do(d, decide), Do(d, reopen)];
    ThreeSteps(w, ask, Do(d, decide), Do(d, reopen));
  }

  /** The request can be put to a reviewer here, and nothing but the approval stands before its dispatch. */
  ghost predicate CanAsk(w: World, d: DbId, r: Request) {
    && d in w.dbs && Inv(w.dbs[d]) && Keyed(w.dbs[d].registry) && Tracked(w.calls, w.dbs[d].invocations)
    && AwaitsApproval(w.dbs[d], r, w.clock) && r.action.id !in w.dbs[d].governed && MayDispatch(w.dbs[d], r.action.id)
  }

  lemma ApprovesIn(w: World, d: DbId, r: Request) returns (later: seq<Event>, again: Request)
    requires CanAsk(w, d, r)
    ensures var w' := Exec(w, later);
      && again.action == r.action && CanDispatch(w', d, again)
      && d in w'.dbs && w' == w.(dbs := w.dbs[d := w'.dbs[d]])
  {
    var db, now := w.dbs[d], w.clock;
    var reviewer :| reviewer in db.policy.value.reviewers;
    var id := FreshCall(w.calls);
    var record := Authorize(db, db.runs[r.run], r.action, r.orgOk, now).db.governed[r.action.id];
    AskThenApprove(db, r, reviewer, id, now);
    var asking, approving := Asking(db, r, record), Approving(db, r, record, reviewer, now);
    ResumedKeepsInv(db, r, record, reviewer, id, now, asking, approving);
    ResumedIsReady(db, r, record, reviewer, now);
    again := Again(db, r);
    later := ApprovedBy(w, d, r, record, reviewer, id, asking, approving);
  }

  ghost predicate CanReach(w: World, d: DbId, r: Request) { CanDispatch(w, d, r) || CanAsk(w, d, r) }

  /** With an approval or without: the action is dispatched here, and nothing changes elsewhere. */
  lemma ReachesIn(w: World, d: DbId, r: Request) returns (later: seq<Event>)
    requires CanReach(w, d, r)
    ensures Dispatched(w, Exec(w, later), d, r.action.id) && KeepsCalls(w.calls, Exec(w, later).calls)
  {
    if CanDispatch(w, d, r) {
      later := DispatchesIn(w, d, r);
    } else {
      var approve, again := ApprovesIn(w, d, r);
      var w1 := Exec(w, approve);
      var dispatch := DispatchesIn(w1, d, again);
      ExecSplit(w, approve, dispatch);
      later := approve + dispatch;
      DispatchedAfter(w, w1, Exec(w, later), d, r.action.id);
    }
  }

  lemma DispatchedAfter(w: World, w1: World, w2: World, d: DbId, a: ActionId)
    requires d in w.dbs && d in w1.dbs && w1 == w.(dbs := w.dbs[d := w1.dbs[d]]) && Dispatched(w1, w2, d, a)
    ensures Dispatched(w, w2, d, a)
  {
    forall c | c in w.dbs && c != d ensures w2.dbs[c] == w.dbs[c] {
      assert w1.dbs[c] == w.dbs[c];
    }
  }
}
