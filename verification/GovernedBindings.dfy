/** What a call was claimed under, and what may be repeated: parents, registry and clock only move
    forward, so a receipt that has nothing left to change never has again.
  */
module GovernedBindings {
  import opened Prelude
  import opened GovernedRecords
  import opened GovernedCommands
  import opened GovernedInvariants
  import opened GovernedPreservation
  import opened GovernedWorld
  import opened GovernedWorldInvariants
  import opened GovernedWorldPreservation
  import opened GovernedSafety

  // ---------- What moves forward ----------

  ghost predicate ParentsEvolve(x: map<RunId, Parents>, y: map<RunId, Parents>) {
    forall r | r in x :: r in y && y[r].LaterThan(x[r])
  }

  predicate EntryEvolves(x: Registration, y: Registration) { y == x || x.revision < y.revision }

  ghost predicate RegistryEvolves(x: map<Grant, Registration>, y: map<Grant, Registration>) {
    forall g | g in x :: g in y && EntryEvolves(x[g], y[g])
  }

  ghost predicate SettingsEvolve(a: Db, b: Db) {
    ParentsEvolve(a.parents, b.parents) && RegistryEvolves(a.registry, b.registry)
  }

  predicate NotAfter(x: (nat, nat, nat, nat), y: (nat, nat, nat, nat)) {
    x.0 <= y.0 && x.1 <= y.1 && x.2 <= y.2 && x.3 <= y.3
  }

  /** The parents and the registration a call was claimed under were current at some earlier time. */
  ghost predicate ClaimedUnder(parents: map<RunId, Parents>, registry: map<Grant, Registration>, call: Invocation) {
    && call.run in parents
    && NotAfter(call.parents, parents[call.run].Versions())
    && call.tool.grant in registry
    && call.registryRevision <= registry[call.tool.grant].revision
  }

  ghost predicate CallsClaimedUnder(
    parents: map<RunId, Parents>, registry: map<Grant, Registration>, calls: map<InvocationId, Invocation>)
  {
    forall i {:trigger ClaimedUnder(parents, registry, calls[i])} | i in calls ::
      ClaimedUnder(parents, registry, calls[i])
  }

  ghost predicate Keyed(registry: map<Grant, Registration>) {
    forall g | g in registry :: registry[g].version.grant == g
  }

  /** Only intents are held, tools are registered under their own grants, and calls were claimed under
      what was current. */
  ghost predicate BindingsInv(db: Db) {
    && db.holds <= db.governed.Keys
    && Keyed(db.registry)
    && CallsClaimedUnder(db.parents, db.registry, db.invocations)
  }

  ghost predicate Binds(a: Db, b: Db) { BindingsInv(b) && SettingsEvolve(a, b) }

  lemma SettingsReflexive(a: Db)
    ensures SettingsEvolve(a, a)
  {
  }

  lemma SettingsTransitive(a: Db, b: Db, c: Db)
    requires SettingsEvolve(a, b) && SettingsEvolve(b, c)
    ensures SettingsEvolve(a, c)
  {
    forall r | r in a.parents ensures r in c.parents && c.parents[r].LaterThan(a.parents[r]) {
      assert b.parents[r].LaterThan(a.parents[r]) && c.parents[r].LaterThan(b.parents[r]);
    }
    forall g | g in a.registry ensures g in c.registry && EntryEvolves(a.registry[g], c.registry[g]) {
      assert EntryEvolves(a.registry[g], b.registry[g]) && EntryEvolves(b.registry[g], c.registry[g]);
    }
  }

  lemma StillClaimedUnder(a: Db, b: Db, x: Invocation, y: Invocation)
    requires SettingsEvolve(a, b) && CallEvolves(x, y) && ClaimedUnder(a.parents, a.registry, x)
    ensures ClaimedUnder(b.parents, b.registry, y)
  {
    assert b.parents[x.run].LaterThan(a.parents[x.run]);
    assert EntryEvolves(a.registry[x.tool.grant], b.registry[x.tool.grant]);
  }

  lemma SettledCallsBind(a: Db, b: Db)
    requires SettingsEvolve(a, b) && CallsClaimedUnder(a.parents, a.registry, a.invocations)
    requires CallsEvolve(a.invocations, b.invocations) && b.invocations.Keys == a.invocations.Keys
    ensures CallsClaimedUnder(b.parents, b.registry, b.invocations)
  {
    forall i | i in b.invocations ensures ClaimedUnder(b.parents, b.registry, b.invocations[i]) {
      assert ClaimedUnder(a.parents, a.registry, a.invocations[i]) && CallEvolves(a.invocations[i], b.invocations[i]);
      StillClaimedUnder(a, b, a.invocations[i], b.invocations[i]);
    }
  }

  lemma QuietBinds(a: Db, b: Db)
    requires BindingsInv(a) && Quiet(a, b) && SettingsEvolve(a, b) && Keyed(b.registry)
    ensures Binds(a, b)
  {
    SettledCallsBind(a, b);
    assert RecordsEvolve(a.governed, b.governed);
    forall k | k in b.holds ensures k in b.governed {
      assert k in a.governed;
    }
  }

  // ---------- Commands ----------

  lemma OneParentMoves(parents: map<RunId, Parents>, r: RunId, p: Parents)
    requires r in parents ==> p.LaterThan(parents[r])
    ensures ParentsEvolve(parents, parents[r := p])
  {
  }

  predicate MovesParents(cmd: Command) {
    || cmd.AddRunCmd? || cmd.AcceptAnswerCmd? || cmd.EndRunCmd? || cmd.ResumeContextCmd? || cmd.ReopenForIntentCmd?
    || cmd.RestoreWaitCmd? || cmd.MoveParentsCmd?
  }

  lemma EndRunParents(db: Db, run: RunId, cancelled: bool)
    requires run in db.runs && db.runs[run].id == run && EndRun(db, run, cancelled).Done?
    ensures var after := EndRun(db, run, cancelled).db;
      after.registry == db.registry && ParentsEvolve(db.parents, after.parents)
  {
    if !db.runs[run].Terminal() {
      EndRunMoves(db, run, cancelled);
      EndRunLater(db, run, cancelled);
      OneParentMoves(db.parents, run, EndRun(db, run, cancelled).db.parents[run]);
    }
  }

  lemma EndRunLater(db: Db, run: RunId, cancelled: bool)
    requires run in db.runs && run in db.parents && !db.runs[run].Terminal()
    ensures var after := EndRun(db, run, cancelled).db;
      run in after.parents && after.parents[run].LaterThan(db.parents[run])
  {
  }

  lemma AnswerParents(db: Db, run: RunId, expected: nat, answer: Answer, now: int)
    requires AcceptAnswer(db, run, expected, answer, now).Done?
    ensures var after := AcceptAnswer(db, run, expected, answer, now).db;
      after.registry == db.registry && ParentsEvolve(db.parents, after.parents)
  {
    var after := AcceptAnswer(db, run, expected, answer, now).db;
    OneParentMoves(db.parents, run, after.parents[run]);
    assert after.parents == db.parents[run := after.parents[run]];
  }

  lemma WaitParents(db: Db, run: AgentRun)
    requires run.id in db.parents
    ensures ApprovalWait(db, run).registry == db.registry
    ensures ParentsEvolve(db.parents, ApprovalWait(db, run).parents)
  {
    OneParentMoves(db.parents, run.id, SetExecution(db.parents[run.id], ExecutionWaiting));
  }

  lemma ResumeParents(db: Db, run: RunId, expected: nat, now: int)
    requires run in db.runs && db.runs[run].id == run && ResumeContext(db, run, expected, now).Done?
    ensures var after := ResumeContext(db, run, expected, now).db;
      after.registry == db.registry && ParentsEvolve(db.parents, after.parents)
  {
    if now >= db.runs[run].deadline {
      EndRunParents(db, run, false);
    } else {
      OneParentMoves(db.parents, run, SetExecution(db.parents[run], ExecutionRunning));
    }
  }

  lemma CommandParents(db: Db, cmd: Command, now: int)
    requires RunsInv(db.runs, db.parents, db.actions) && Apply(db, cmd, now).Done? && MovesParents(cmd)
    ensures var after := Apply(db, cmd, now).db;
      after.registry == db.registry && ParentsEvolve(db.parents, after.parents)
  {
    match cmd
    case AddRunCmd(run, parents) => OneParentMoves(db.parents, run.id, parents);
    case AcceptAnswerCmd(run, expected, answer) => AnswerParents(db, run, expected, answer, now);
    case EndRunCmd(run, cancelled) => EndRunParents(db, run, cancelled);
    case ResumeContextCmd(run, expected) => ResumeParents(db, run, expected, now);
    case ReopenForIntentCmd(run, intent, expected, orgOk) =>
      OneParentMoves(db.parents, run, SetExecution(db.parents[run], ExecutionRunning));
    case RestoreWaitCmd(run, intent, version) =>
      if run in db.parents {
        WaitParents(db, db.runs[run]);
      }
    case MoveParentsCmd(run, parents) => OneParentMoves(db.parents, run, parents);
    case _ =>
  }

  lemma OtherCommandSettings(db: Db, cmd: Command, now: int)
    requires Apply(db, cmd, now).Done? && !MovesParents(cmd) && !cmd.SetRegistrationCmd? && !cmd.RepairCmd?
    requires !cmd.DecideCmd? && !cmd.ExpireCmd?
    ensures var after := Apply(db, cmd, now).db; after.parents == db.parents && after.registry == db.registry
  {
  }

  lemma RecordCommandSettings(db: Db, cmd: Command, now: int)
    requires Apply(db, cmd, now).Done? && (cmd.RepairCmd? || cmd.DecideCmd? || cmd.ExpireCmd?)
    ensures var after := Apply(db, cmd, now).db; after.parents == db.parents && after.registry == db.registry
  {
    match cmd
    case RepairCmd(receipt) => RepairKeepsSettings(db, receipt, now);
    case DecideCmd(intent, digest, reviewer, kind) =>
      DecisionTouchesRecordsOnly(db, intent, digest, reviewer, kind, now);
    case ExpireCmd(intent) => ExpiryTouchesRecordsOnly(db, intent, now);
    case _ =>
  }

  lemma RegistrationEvolves(db: Db, entry: Registration)
    requires Keyed(db.registry) && SetRegistration(db, entry).Done?
    ensures var after := SetRegistration(db, entry).db;
      after.parents == db.parents && RegistryEvolves(db.registry, after.registry) && Keyed(after.registry)
  {
  }

  lemma CommandBinds(db: Db, cmd: Command, now: int)
    requires Inv(db) && BindingsInv(db) && Apply(db, cmd, now).Done?
    ensures Binds(db, Apply(db, cmd, now).db)
  {
    CommandKeeps(db, cmd, now);
    if MovesParents(cmd) {
      CommandParents(db, cmd, now);
    } else if cmd.SetRegistrationCmd? {
      RegistrationEvolves(db, cmd.entry);
    } else if cmd.RepairCmd? || cmd.DecideCmd? || cmd.ExpireCmd? {
      RecordCommandSettings(db, cmd, now);
    } else {
      OtherCommandSettings(db, cmd, now);
    }
    SettingsReflexive(db);
    QuietBinds(db, Apply(db, cmd, now).db);
  }

  // ---------- Claiming, reconciling and recovering ----------

  lemma PrepareSettings(db: Db, run: AgentRun, action: Action, tool: ToolVersion, orgOk: bool, now: int)
    requires action.args.FixtureMessage? && Prepare(db, run, action, tool, orgOk, now).Done?
    ensures var after := Prepare(db, run, action, tool, orgOk, now).db; after == db.(governed := after.governed)
  {
  }

  /** What an authorization says about the tool it lets through. */
  ghost predicate AuthorizedFor(db: Db, run: AgentRun, result: Authorization) {
    && result.db == db.(governed := result.db.governed)
    && (result.Proceed? ==>
          && result.tool.grant in db.registry
          && result.revision == db.registry[result.tool.grant].revision
          && result.tool.grant in run.definition.allowedTools)
  }

  lemma AuthorizedUnder(db: Db, run: AgentRun, action: Action, orgOk: bool, now: int)
    requires Keyed(db.registry)
    ensures AuthorizedFor(db, run, Authorize(db, run, action, orgOk, now))
  {
    var grant := FirstGrant(run.definition.allowedTools, action.tool);
    FirstGrantAllowed(run.definition.allowedTools, action.tool);
    if grant.Some? && grant.value in db.registry && ValidInput(action.args, db.registry[grant.value].version) {
      var entry := db.registry[grant.value];
      if entry.version.kind == SendFixtureMessage {
        var outcome := Prepare(db, run, action, entry.version, orgOk, now);
        if outcome.Done? {
          PrepareSettings(db, run, action, entry.version, orgOk, now);
        }
        assert AuthorizedFor(db, run, Prepared(db, outcome, action.id, entry, now));
      }
    }
  }

  lemma {:induction false} FirstGrantAllowed(allowed: seq<Grant>, tool: nat)
    ensures FirstGrant(allowed, tool).Some? ==> FirstGrant(allowed, tool).value in allowed
  {
    if allowed != [] && allowed[0].tool != tool {
      FirstGrantAllowed(allowed[1..], tool);
    }
  }

  lemma DispatchedUnder(
    db: Db, run: AgentRun, action: Action, tool: ToolVersion, revision: nat, id: InvocationId, now: int)
    requires Dispatch(db, run, action, tool, revision, id, now).Claimed?
    ensures var result := Dispatch(db, run, action, tool, revision, id, now);
      && result.db.parents == db.parents && result.db.registry == db.registry
      && result.invocation.run == run.id && run.id in db.parents
      && result.invocation.parents == db.parents[run.id].Versions()
      && result.invocation.tool == tool && result.invocation.registryRevision == revision
  {
  }

  /** Parents and registry stand still, except that a run sent to wait takes its execution with it. */
  ghost predicate InvokedUnder(db: Db, result: InvokeResult) {
    match result
    case Settled(after) => ParentsEvolve(db.parents, after.parents) && after.registry == db.registry
    case Claimed(after, call) =>
      && after.parents == db.parents && after.registry == db.registry
      && ClaimedUnder(db.parents, db.registry, call)
    case _ => true
  }

  lemma InvokedBinds(db: Db, run: RunId, action: Action, expected: nat, orgOk: bool, id: InvocationId, now: int)
    requires Keyed(db.registry)
    ensures InvokedUnder(db, Invoke(db, run, action, expected, orgOk, id, now))
  {
    if InvokeGuard(db, run, action, expected, now).None? {
      var claimant := db.runs[run];
      AuthorizedUnder(db, claimant, action, orgOk, now);
      match Authorize(db, claimant, action, orgOk, now)
      case Reject(db', code) =>
        assert ParentsEvolve(db.parents, Observe(db', claimant, action.id, None, Some(code)).parents);
      case Wait(db') =>
        if claimant.id in db'.parents {
          WaitParents(db', claimant);
        }
      case Proceed(db', tool, revision) =>
        if Dispatch(db', claimant, action, tool, revision, id, now).Claimed? {
          DispatchedUnder(db', claimant, action, tool, revision, id, now);
        }
    }
  }

  lemma AddedCallBinds(a: Db, b: Db, call: Invocation, now: int)
    requires BindingsInv(a) && ClaimStep(a, b, call, now)
    requires b.parents == a.parents && b.registry == a.registry && ClaimedUnder(a.parents, a.registry, call)
    ensures Binds(a, b)
  {
    SettingsReflexive(a);
    assert RecordsEvolve(a.governed, b.governed);
    forall i | i in b.invocations ensures ClaimedUnder(b.parents, b.registry, b.invocations[i]) {
      assert i != call.id ==> ClaimedUnder(a.parents, a.registry, a.invocations[i]);
    }
    forall k | k in b.holds ensures k in b.governed {
      assert k in a.governed;
    }
  }

  lemma InvokeBinds(db: Db, run: RunId, action: Action, expected: nat, orgOk: bool, id: InvocationId, now: int)
    requires Inv(db) && BindingsInv(db)
    ensures match Invoke(db, run, action, expected, orgOk, id, now)
      case Settled(after) => Binds(db, after)
      case Claimed(after, _) => Binds(db, after)
      case _ => true
  {
    InvokeKeeps(db, run, action, expected, orgOk, id, now);
    InvokedBinds(db, run, action, expected, orgOk, id, now);
    SettingsReflexive(db);
    match Invoke(db, run, action, expected, orgOk, id, now)
    case Settled(after) => QuietBinds(db, after);
    case Claimed(after, call) => AddedCallBinds(db, after, call, now);
    case _ =>
  }

  lemma ReceiptSettings(db: Db, receipt: Receipt)
    requires RecordReceipt(db, receipt).Done?
    ensures var after := RecordReceipt(db, receipt).db; after.parents == db.parents && after.registry == db.registry
  {
  }

  lemma ReconcileSettings(db: Db, call: Invocation, reply: Reply, id: ReceiptId, now: int)
    requires Reconcile(db, call, reply, id, now).Done?
    ensures var after := Reconcile(db, call, reply, id, now).db;
      after.parents == db.parents && after.registry == db.registry
  {
    ReceiptSettings(db, ReceiptFor(id, call, reply, SettledError(db, db.runs[call.run], call, reply, now), now));
  }

  lemma ReconcileBinds(db: Db, call: Invocation, reply: Reply, id: ReceiptId, now: int)
    requires Inv(db) && BindingsInv(db) && Reconcile(db, call, reply, id, now).Done?
    ensures Binds(db, Reconcile(db, call, reply, id, now).db)
  {
    ReconcileSettings(db, call, reply, id, now);
    ReconcileKeeps(db, call, reply, id, now);
    SettingsReflexive(db);
    QuietBinds(db, Reconcile(db, call, reply, id, now).db);
  }

  lemma RecoverSettings(db: Db, seen: Invocation, lookup: RemoteLookup, outputOk: bool, id: ReceiptId, now: int)
    requires Recover(db, seen, lookup, outputOk, id, now).Done?
    ensures var after := Recover(db, seen, lookup, outputOk, id, now).db;
      after.parents == db.parents && after.registry == db.registry
  {
    if HasReceipt(db.receipts, seen.id) {
      RepairKeepsSettings(db, ReceiptOf(db, seen.id), now);
    } else {
      match lookup.status
      case ProcessedFailure => RecoverySettings(db, seen, Failure(Rejected), id, now);
      case ProcessedSuccess => RecoverySettings(db, seen, Delivered(lookup.output.value), id, now);
      case _ =>
    }
  }

  lemma RecoverySettings(db: Db, seen: Invocation, evidence: Reply, id: ReceiptId, now: int)
    requires RecordRecovery(db, seen, evidence, id, now).Done?
    ensures var after := RecordRecovery(db, seen, evidence, id, now).db;
      after.parents == db.parents && after.registry == db.registry
  {
    var error := if evidence.Delivered? then None else Some(evidence.error);
    ReceiptSettings(db, ReceiptFor(id, seen, evidence, error, now));
  }

  lemma RecoverBinds(db: Db, seen: Invocation, lookup: RemoteLookup, outputOk: bool, id: ReceiptId, now: int)
    requires Inv(db) && BindingsInv(db) && Recover(db, seen, lookup, outputOk, id, now).Done?
    ensures Binds(db, Recover(db, seen, lookup, outputOk, id, now).db)
  {
    RecoverSettings(db, seen, lookup, outputOk, id, now);
    RecoverKeeps(db, seen, lookup, outputOk, id, now);
    SettingsReflexive(db);
    QuietBinds(db, Recover(db, seen, lookup, outputOk, id, now).db);
  }

  // ---------- Worlds ----------

  ghost predicate AllBound(dbs: map<nat, Db>) {
    forall d {:trigger BindingsInv(dbs[d])} | d in dbs :: BindingsInv(dbs[d])
  }

  ghost predicate AllSettingsEvolve(x: map<nat, Db>, y: map<nat, Db>) {
    && x.Keys <= y.Keys
    && (forall d {:trigger SettingsEvolve(x[d], y[d])} | d in x :: SettingsEvolve(x[d], y[d]))
  }

  ghost predicate WorldBound(w: World) { AllBound(w.dbs) && AllBound(w.snapshots) }

  ghost predicate WorldBinds(w: World, w': World) { WorldBound(w') && AllSettingsEvolve(w.dbs, w'.dbs) }

  lemma SameDbsBind(dbs: map<nat, Db>)
    ensures AllSettingsEvolve(dbs, dbs)
  {
    forall d | d in dbs ensures SettingsEvolve(dbs[d], dbs[d]) {
      SettingsReflexive(dbs[d]);
    }
  }

  lemma OneDbBinds(dbs: map<nat, Db>, d: nat, db: Db)
    requires AllBound(dbs) && BindingsInv(db) && (d in dbs ==> SettingsEvolve(dbs[d], db))
    ensures AllBound(dbs[d := db]) && AllSettingsEvolve(dbs, dbs[d := db])
  {
    var dbs' := dbs[d := db];
    forall k | k in dbs' ensures BindingsInv(dbs'[k]) && (k in dbs ==> SettingsEvolve(dbs[k], dbs'[k])) {
      if k != d {
        assert BindingsInv(dbs[k]);
        SettingsReflexive(dbs[k]);
      }
    }
  }

  lemma CommandStepBinds(w: World, d: DbId, outcome: Outcome)
    requires WorldBound(w) && d in w.dbs && (outcome.Done? ==> Binds(w.dbs[d], outcome.db))
    ensures WorldBinds(w, AfterCommand(w, d, outcome))
  {
    SameDbsBind(w.dbs);
    if outcome.Done? {
      OneDbBinds(w.dbs, d, outcome.db);
    }
  }

  lemma InvokeStepBinds(w: World, d: DbId, result: InvokeResult)
    requires WorldBound(w) && d in w.dbs
    requires match result
      case Settled(after) => Binds(w.dbs[d], after)
      case Claimed(after, _) => Binds(w.dbs[d], after)
      case _ => true
    ensures WorldBinds(w, AfterInvoke(w, d, result))
  {
    SameDbsBind(w.dbs);
    match result
    case Settled(after) => OneDbBinds(w.dbs, d, after);
    case Claimed(after, _) => OneDbBinds(w.dbs, d, after);
    case _ =>
  }

  lemma RestoredBinds(snapshot: Db)
    requires BindingsInv(snapshot)
    ensures BindingsInv(Restored(snapshot))
  {
    assert CallsClaimedUnder(Restored(snapshot).parents, Restored(snapshot).registry, Restored(snapshot).invocations);
  }

  lemma DbStepBinds(w: World, e: Event)
    requires WorldInv(w) && WorldBound(w)
    requires e.Do? || e.InvokeTool? || e.LiveReconcile? || e.RecoverWith?
    ensures WorldBinds(w, Step(w, e))
  {
    SameDbsBind(w.dbs);
    match e
    case Do(d, cmd) =>
      if d in w.dbs {
        assert Inv(w.dbs[d]) && BindingsInv(w.dbs[d]);
        if Apply(w.dbs[d], cmd, w.clock).Done? { CommandBinds(w.dbs[d], cmd, w.clock); }
        CommandStepBinds(w, d, Apply(w.dbs[d], cmd, w.clock));
      }
    case InvokeTool(d, run, action, expected, orgOk, id) =>
      if d in w.dbs && id !in w.calls {
        assert Inv(w.dbs[d]) && BindingsInv(w.dbs[d]);
        InvokeBinds(w.dbs[d], run, action, expected, orgOk, id, w.clock);
        InvokeStepBinds(w, d, Invoke(w.dbs[d], run, action, expected, orgOk, id, w.clock));
      }
    case LiveReconcile(i, interruption, receipt) => ReconcileStepBinds(w, i, interruption, receipt);
    case RecoverWith(d, lookup, outputOk, receipt) =>
      if d in w.dbs && lookup in w.lookups {
        var outcome := Recover(w.dbs[d], lookup.seen, lookup.found, outputOk, receipt, w.clock);
        assert Inv(w.dbs[d]) && BindingsInv(w.dbs[d]);
        if outcome.Done? { RecoverBinds(w.dbs[d], lookup.seen, lookup.found, outputOk, receipt, w.clock); }
        CommandStepBinds(w, d, outcome);
      }
  }

  lemma ReconcileStepBinds(w: World, i: InvocationId, interruption: Option<ToolError>, receipt: ReceiptId)
    requires WorldInv(w) && WorldBound(w)
    ensures WorldBinds(w, StepReconcile(w, i, interruption, receipt))
  {
    SameDbsBind(w.dbs);
    if StepReconcile(w, i, interruption, receipt) != w {
      var call := w.calls[i];
      var reply := if interruption.Some? then Failure(interruption.value) else call.reply.value;
      assert Inv(w.dbs[call.db]) && BindingsInv(w.dbs[call.db]);
      ReconcileBinds(w.dbs[call.db], call.claimed, reply, receipt, w.clock);
      OneDbBinds(w.dbs, call.db, Reconcile(w.dbs[call.db], call.claimed, reply, receipt, w.clock).db);
    }
  }

  lemma StepBinds(w: World, e: Event)
    requires WorldInv(w) && WorldBound(w)
    ensures WorldBinds(w, Step(w, e))
  {
    SameDbsBind(w.dbs);
    match e
    case TakeSnapshot(d) =>
      if d in w.dbs && w.next !in w.snapshots {
        assert BindingsInv(w.dbs[d]);
        OneDbBinds(w.snapshots, w.next, w.dbs[d]);
      }
    case RestoreFrom(s) =>
      if s in w.snapshots {
        assert BindingsInv(w.snapshots[s]);
        RestoredBinds(w.snapshots[s]);
        OneDbBinds(w.dbs, w.next, Restored(w.snapshots[s]));
      }
    case Do(_, _) => DbStepBinds(w, e);
    case InvokeTool(_, _, _, _, _, _) => DbStepBinds(w, e);
    case LiveReconcile(_, _, _) => DbStepBinds(w, e);
    case RecoverWith(_, _, _, _) => DbStepBinds(w, e);
    case _ =>
  }

  lemma StepAtBinds(w: World, w': World)
    requires WorldInv(w) && WorldBound(w) && exists e :: w' == Step(w, e)
    ensures WorldBinds(w, w')
  {
    var e :| w' == Step(w, e);
    StepBinds(w, e);
  }

  lemma {:induction false} RunBound(worlds: seq<World>, n: nat)
    requires IsRun(worlds) && n < |worlds|
    ensures WorldBound(worlds[n])
  {
    if n > 0 {
      RunBound(worlds, n - 1);
      RunInv(worlds, n - 1);
      assert StepAt(worlds, n - 1);
      StepAtBinds(worlds[n - 1], worlds[n]);
    }
  }

  lemma AllSettingsTransitive(x: map<nat, Db>, y: map<nat, Db>, z: map<nat, Db>)
    requires AllSettingsEvolve(x, y) && AllSettingsEvolve(y, z)
    ensures AllSettingsEvolve(x, z)
  {
    forall d | d in x ensures SettingsEvolve(x[d], z[d]) {
      assert SettingsEvolve(x[d], y[d]) && SettingsEvolve(y[d], z[d]);
      SettingsTransitive(x[d], y[d], z[d]);
    }
  }

  /** In no run do parents or registrations ever move back, or change without a version of their own. */
  lemma {:induction false} SettingsMoveForward(worlds: seq<World>, m: nat, n: nat)
    requires IsRun(worlds) && m <= n < |worlds|
    ensures AllSettingsEvolve(worlds[m].dbs, worlds[n].dbs)
    decreases n - m
  {
    if m == n {
      SameDbsBind(worlds[m].dbs);
    } else {
      SettingsMoveForward(worlds, m, n - 1);
      RunInv(worlds, n - 1);
      RunBound(worlds, n - 1);
      assert StepAt(worlds, n - 1);
      StepAtBinds(worlds[n - 1], worlds[n]);
      AllSettingsTransitive(worlds[m].dbs, worlds[n - 1].dbs, worlds[n].dbs);
    }
  }

  // ---------- Repairing twice ----------

  /** Repairing from this receipt changes nothing now. */
  ghost predicate Spent(db: Db, id: ReceiptId, now: int) {
    Repair(db, id, now) == Done(db)
  }

  lemma SpentMeans(db: Db, id: ReceiptId, now: int)
    requires RunsInv(db.runs, db.parents, db.actions) && id in db.receipts && db.receipts[id].invocation.run in db.runs
    ensures Spent(db, id, now) <==>
      Consume(db, db.receipts[id].invocation) == Done(db) && !Applicable(db, db.receipts[id].invocation, now)
  {
    var call := db.receipts[id].invocation;
    if Consume(db, call).Done? {
      RepairAppliesAtClaimVersion(db, id, now);
      ConsumeVersion(db, call);
    }
  }

  lemma ConsumeVersion(db: Db, call: Invocation)
    requires Consume(db, call).Done?
    ensures var after := Consume(db, call).db; after == db.(governed := after.governed)
  {
  }

  /** A call that can no longer change its run never can again. */
  lemma NeverApplicableAgain(a: Db, b: Db, call: Invocation, now: int, later: int)
    requires SettingsEvolve(a, b) && now <= later && ClaimedUnder(a.parents, a.registry, call)
    requires call.run in a.runs && call.run in b.runs && RunEvolves(a.runs[call.run], b.runs[call.run])
    requires call.runVersion <= a.runs[call.run].version && !Applicable(a, call, now)
    ensures !Applicable(b, call, later)
  {
    assert b.parents[call.run].LaterThan(a.parents[call.run]);
    assert EntryEvolves(a.registry[call.tool.grant], b.registry[call.tool.grant]);
  }

  /** A record that claims the call, now or later, already did when the call existed. */
  lemma ClaimIsOld(a: Db, b: Db, i: InvocationId, k: ActionId)
    requires RecordsInv(b.actions, b.governed) && ClaimsInv(a.governed, a.invocations)
    requires ClaimsInv(b.governed, b.invocations)
    requires i in a.invocations && i in b.invocations && CallEvolves(a.invocations[i], b.invocations[i])
    requires a.invocations[i].action == k && k in b.governed && b.governed[k].invocation == Some(i)
    ensures k in a.governed && a.governed[k].invocation == Some(i)
  {
    assert RecordBound(b.actions, k, b.governed[k]);
    assert RecordClaims(b.invocations, k, b.governed[k]);
    assert CallClaimed(a.governed, i, a.invocations[i]);
  }

  lemma StaysConsumed(x: GovernedAction, y: GovernedAction)
    requires RecordEvolves(x, y) && (!x.HasRequest() || x.consumed)
    ensures !y.HasRequest() || y.consumed
  {
  }

  /** And an approval that is used up stays so. */
  lemma NeverConsumedAgain(a: Db, b: Db, call: Invocation)
    requires RecordsInv(a.actions, a.governed) && ClaimsInv(a.governed, a.invocations)
    requires RecordsInv(b.actions, b.governed) && ClaimsInv(b.governed, b.invocations)
    requires RecordsEvolve(a.governed, b.governed) && CallsEvolve(a.invocations, b.invocations)
    requires call.id in a.invocations && a.invocations[call.id] == call && Consume(a, call) == Done(a)
    ensures Consume(b, call) == Done(b)
  {
    var k := call.action;
    if k in b.governed && b.governed[k].invocation == Some(call.id) {
      assert CallEvolves(call, b.invocations[call.id]);
      ClaimIsOld(a, b, call.id, k);
      assert RecordBound(a.actions, k, a.governed[k]);
      ConsumedOrFree(a, call);
      StaysConsumed(a.governed[k], b.governed[k]);
    }
  }

  lemma ConsumedOrFree(db: Db, call: Invocation)
    requires Consume(db, call) == Done(db)
    requires call.action in db.governed && db.governed[call.action].invocation == Some(call.id)
    requires db.governed[call.action].intent.action == call.action
    ensures !db.governed[call.action].HasRequest() || db.governed[call.action].consumed
  {
  }

  lemma SpentLasts(a: Db, b: Db, id: ReceiptId, now: int, later: int)
    requires Inv(a) && Inv(b) && Evolves(a, b) && BindingsInv(a) && SettingsEvolve(a, b) && now <= later
    requires Spent(a, id, now)
    ensures Spent(b, id, later)
  {
    var call := a.receipts[id].invocation;
    assert ReceiptBound(a.invocations, id, a.receipts[id]);
    assert CallBound(a.runs, a.actions, call.id, call);
    assert ClaimedUnder(a.parents, a.registry, a.invocations[call.id]);
    assert RunEvolves(a.runs[call.run], b.runs[call.run]);
    SpentMeans(a, id, now);
    NeverConsumedAgain(a, b, call);
    NeverApplicableAgain(a, b, call, now, later);
    SpentMeans(b, id, later);
  }

  lemma DbMovesForward(worlds: seq<World>, m: nat, n: nat, d: DbId)
    requires IsRun(worlds) && m <= n < |worlds| && d in worlds[m].dbs
    ensures d in worlds[n].dbs && worlds[m].clock <= worlds[n].clock
    ensures Inv(worlds[m].dbs[d]) && Inv(worlds[n].dbs[d]) && Evolves(worlds[m].dbs[d], worlds[n].dbs[d])
    ensures BindingsInv(worlds[m].dbs[d]) && SettingsEvolve(worlds[m].dbs[d], worlds[n].dbs[d])
  {
    RunExtends(worlds, m, n);
    RunBound(worlds, m);
    SettingsMoveForward(worlds, m, n);
    assert SettingsEvolve(worlds[m].dbs[d], worlds[n].dbs[d]);
  }

  /** Once a receipt has nothing left to repair, it never has again. */
  lemma SpentForever(worlds: seq<World>, m: nat, n: nat, d: DbId, id: ReceiptId)
    requires IsRun(worlds) && m <= n < |worlds| && d in worlds[m].dbs && Spent(worlds[m].dbs[d], id, worlds[m].clock)
    ensures d in worlds[n].dbs && Spent(worlds[n].dbs[d], id, worlds[n].clock)
  {
    DbMovesForward(worlds, m, n, d);
    SpentLasts(worlds[m].dbs[d], worlds[n].dbs[d], id, worlds[m].clock, worlds[n].clock);
  }

  lemma RunDb(worlds: seq<World>, m: nat, d: DbId) returns (db: Db, now: int)
    requires IsRun(worlds) && m + 1 < |worlds| && d in worlds[m].dbs
    ensures db == worlds[m].dbs[d] && now == worlds[m].clock && Inv(db) && now <= worlds[m + 1].clock
  {
    db, now := worlds[m].dbs[d], worlds[m].clock;
    DbMovesForward(worlds, m, m + 1, d);
  }

  lemma RepairedInRun(worlds: seq<World>, m: nat, d: DbId, id: ReceiptId)
    requires IsRun(worlds) && m + 1 < |worlds| && d in worlds[m].dbs && d in worlds[m + 1].dbs
    requires Repair(worlds[m].dbs[d], id, worlds[m].clock) == Done(worlds[m + 1].dbs[d])
    ensures Spent(worlds[m + 1].dbs[d], id, worlds[m + 1].clock)
  {
    var db, now := RunDb(worlds, m, d);
    RepairedIsSpent(db, id, now, worlds[m + 1].clock);
  }

  lemma ReconciledInRun(worlds: seq<World>, m: nat, d: DbId, call: Invocation, reply: Reply, id: ReceiptId)
    requires IsRun(worlds) && m + 1 < |worlds| && d in worlds[m].dbs && d in worlds[m + 1].dbs
    requires Reconcile(worlds[m].dbs[d], call, reply, id, worlds[m].clock) == Done(worlds[m + 1].dbs[d])
    ensures Spent(worlds[m + 1].dbs[d], id, worlds[m + 1].clock)
  {
    var db, now := RunDb(worlds, m, d);
    ReconciledIsSpent(db, call, reply, id, now, worlds[m + 1].clock);
  }

  /** Repeating recovery is harmless however much has happened since: once a receipt has been repaired,
      any later repair of it changes nothing at all. */
  lemma RepairIsIdempotent(worlds: seq<World>, m: nat, n: nat, d: DbId, id: ReceiptId)
    requires IsRun(worlds) && m < n < |worlds| && d in worlds[m].dbs && d in worlds[m + 1].dbs
    requires Repair(worlds[m].dbs[d], id, worlds[m].clock) == Done(worlds[m + 1].dbs[d])
    ensures d in worlds[n].dbs
    ensures Repair(worlds[n].dbs[d], id, worlds[n].clock) == Done(worlds[n].dbs[d])
  {
    RepairedInRun(worlds, m, d, id);
    SpentForever(worlds, m + 1, n, d, id);
  }

  /** The same of recovery from a call that has a receipt: a lookup then adds nothing. */
  lemma RecoveryIsIdempotent(
    worlds: seq<World>, m: nat, n: nat, d: DbId, first: Lookup, again: Lookup, outputOk: bool, outputOk': bool,
    id: ReceiptId, id': ReceiptId)
    requires IsRun(worlds) && m < n < |worlds| && d in worlds[m].dbs && d in worlds[m + 1].dbs
    requires HasReceipt(worlds[m].dbs[d].receipts, first.seen.id) && again.seen.id == first.seen.id
    requires Recover(worlds[m].dbs[d], first.seen, first.found, outputOk, id, worlds[m].clock)
      == Done(worlds[m + 1].dbs[d])
    requires d in worlds[n].dbs && again.seen.run in worlds[n].dbs[d].runs
    ensures Recover(worlds[n].dbs[d], again.seen, again.found, outputOk', id', worlds[n].clock)
      == Done(worlds[n].dbs[d])
  {
    var r := ReceiptOf(worlds[m].dbs[d], first.seen.id);
    RepairIsIdempotent(worlds, m, n, d, r);
    DbMovesForward(worlds, m, n, d);
    var a, b := worlds[m].dbs[d], worlds[n].dbs[d];
    assert ReceiptBound(a.invocations, r, a.receipts[r]);
    assert b.receipts[r] == a.receipts[r] && first.seen.id in b.invocations;
    assert HasReceipt(b.receipts, again.seen.id);
  }

  /** What the live caller leaves: the receipt of its call, and the approval behind it used up. */
  lemma ReconcileRecords(db: Db, call: Invocation, reply: Reply, id: ReceiptId, now: int)
    requires RecordsInv(db.actions, db.governed) && Reconcile(db, call, reply, id, now).Done?
    ensures var after := Reconcile(db, call, reply, id, now).db;
      var settled := call.Finish(now, SettledError(db, db.runs[call.run], call, reply, now));
      && id in after.receipts && after.receipts[id].invocation == settled
      && Consume(after, settled) == Done(after)
  {
    var error := SettledError(db, db.runs[call.run], call, reply, now);
    var receipt := ReceiptFor(id, call, reply, error, now);
    var db1 := FinishInvocation(db, receipt).db;
    RecordedReceipt(db, receipt);
    ConsumedOnce(db1, receipt.invocation, Reconcile(db, call, reply, id, now).db);
  }

  /** After the live caller has reconciled, nothing is left to repair. */
  lemma ReconciledIsSpent(db: Db, call: Invocation, reply: Reply, id: ReceiptId, now: int, later: int)
    requires Inv(db) && Reconcile(db, call, reply, id, now).Done? && now <= later
    ensures Spent(Reconcile(db, call, reply, id, now).db, id, later)
  {
    var after := Reconcile(db, call, reply, id, now).db;
    var run := db.runs[call.run];
    ReconcileKeeps(db, call, reply, id, now);
    ReconcileSettings(db, call, reply, id, now);
    ReconcileAppliesAtClaimVersion(db, call, reply, id, now);
    ReconcileRecords(db, call, reply, id, now);
    LeftNotApplicable(db, after, call, call.Finish(now, SettledError(db, run, call, reply, now)), later);
    SpentMeans(after, id, later);
  }

  /** The live caller leaves the claiming version, or found the run ended or its result stale. */
  lemma LeftNotApplicable(db: Db, after: Db, call: Invocation, settled: Invocation, later: int)
    requires call.run in db.runs && db.runs[call.run].id == call.run
    requires after.parents == db.parents && after.registry == db.registry
    requires if db.runs[call.run].Terminal() || Stale(db, db.runs[call.run], call) then after.runs == db.runs
             else after.runs == db.runs[call.run := db.runs[call.run].Evolve(db.runs[call.run].status, false)]
    requires settled
      == call.(status := settled.status, endedAt := settled.endedAt, error := settled.error, version := settled.version)
    ensures !Applicable(after, settled, later)
  {
  }

  /** A live answer and a later recovery of it never both reach the run. */
  lemma ReconciledNeedsNoRepair(
    worlds: seq<World>, m: nat, n: nat, d: DbId, call: Invocation, reply: Reply, id: ReceiptId)
    requires IsRun(worlds) && m < n < |worlds| && d in worlds[m].dbs && d in worlds[m + 1].dbs
    requires Reconcile(worlds[m].dbs[d], call, reply, id, worlds[m].clock) == Done(worlds[m + 1].dbs[d])
    ensures d in worlds[n].dbs
    ensures Repair(worlds[n].dbs[d], id, worlds[n].clock) == Done(worlds[n].dbs[d])
  {
    ReconciledInRun(worlds, m, d, call, reply, id);
    SpentForever(worlds, m + 1, n, d, id);
  }
}
