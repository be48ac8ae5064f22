/** Every event keeps `WorldInv` and only extends history.

    A step changes one database, or the calls in flight, or the ledger, or the snapshots, so each
    conjunct of the invariant is followed through one such change at a time: a database replaced
    by one that evolved from it, a call entered, answered or lost, a ledger row added, a snapshot
    taken, a fork restored, a claim logged. `StepKeeps` puts the events together, and `RunKeeps`
    the sequences of events.
  */
module GovernedWorldPreservation {
  import opened Prelude
  import opened GovernedRecords
  import opened GovernedCommands
  import opened GovernedInvariants
  import opened GovernedPreservation
  import opened GovernedWorld
  import opened GovernedWorldInvariants

  // ---------- One command on one database ----------

  lemma CommandKeepsRuns(db: Db, cmd: Command, now: int)
    requires Inv(db) && Apply(db, cmd, now).Done?
    requires cmd.AddRunCmd? || cmd.BeginIterationCmd? || cmd.AppendActionCmd? || cmd.AcceptAnswerCmd? || cmd.EndRunCmd?
    ensures Quiet(db, Apply(db, cmd, now).db)
  {
    match cmd
    case AddRunCmd(run, parents) => AddRunKeeps(db, run, parents);
    case BeginIterationCmd(run) => BeginIterationKeeps(db, run, now);
    case AppendActionCmd(action, expected) => AppendActionKeeps(db, action, expected, now);
    case AcceptAnswerCmd(run, expected, answer) => AcceptAnswerKeeps(db, run, expected, answer, now);
    case EndRunCmd(run, cancelled) => EndRunKeeps(db, run, cancelled);
  }

  lemma CommandKeepsWaits(db: Db, cmd: Command, now: int)
    requires Inv(db) && Apply(db, cmd, now).Done?
    requires cmd.ResumeContextCmd? || cmd.ReopenForIntentCmd? || cmd.RestoreWaitCmd? || cmd.TouchRunCmd?
      || cmd.MoveParentsCmd?
    ensures Quiet(db, Apply(db, cmd, now).db)
  {
    match cmd
    case ResumeContextCmd(run, expected) => ResumeContextKeeps(db, run, expected, now);
    case ReopenForIntentCmd(run, intent, expected, orgOk) =>
      ReopenForIntentKeeps(db, run, intent, expected, orgOk, now);
    case RestoreWaitCmd(run, intent, version) => RestoreWaitKeeps(db, run, intent, version);
    case TouchRunCmd(run, expected) => TouchRunKeeps(db, run, expected);
    case MoveParentsCmd(run, parents) => MoveParentsKeeps(db, run, parents);
  }

  lemma CommandKeepsGovernance(db: Db, cmd: Command, now: int)
    requires Inv(db) && Apply(db, cmd, now).Done?
    requires cmd.DecideCmd? || cmd.CancelIntentCmd? || cmd.ExpireCmd? || cmd.RepairCmd?
    ensures Quiet(db, Apply(db, cmd, now).db)
  {
    match cmd
    case DecideCmd(intent, digest, reviewer, kind) => DecideKeeps(db, intent, digest, reviewer, kind, now);
    case CancelIntentCmd(intent) => CancelKeeps(db, intent);
    case ExpireCmd(intent) => ExpireKeeps(db, intent, now);
    case RepairCmd(receipt) => RepairKeeps(db, receipt, now);
  }

  lemma CommandKeepsSettings(db: Db, cmd: Command, now: int)
    requires Inv(db) && Apply(db, cmd, now).Done?
    requires cmd.PublishPolicyCmd? || cmd.SetRegistrationCmd? || cmd.RestrictCmd? || cmd.ReleaseCmd?
    ensures Quiet(db, Apply(db, cmd, now).db)
  {
    var after := Apply(db, cmd, now).db;
    SettingsKeep(db, after.registry, after.policy, after.mode);
    assert after == db.(registry := after.registry, policy := after.policy, mode := after.mode);
  }

  lemma CommandKeeps(db: Db, cmd: Command, now: int)
    requires Inv(db) && Apply(db, cmd, now).Done?
    ensures Quiet(db, Apply(db, cmd, now).db)
  {
    if cmd.AddRunCmd? || cmd.BeginIterationCmd? || cmd.AppendActionCmd? || cmd.AcceptAnswerCmd? || cmd.EndRunCmd? {
      CommandKeepsRuns(db, cmd, now);
    } else if cmd.DecideCmd? || cmd.CancelIntentCmd? || cmd.ExpireCmd? || cmd.RepairCmd? {
      CommandKeepsGovernance(db, cmd, now);
    } else if cmd.PublishPolicyCmd? || cmd.SetRegistrationCmd? || cmd.RestrictCmd? || cmd.ReleaseCmd? {
      CommandKeepsSettings(db, cmd, now);
    } else {
      CommandKeepsWaits(db, cmd, now);
    }
  }

  lemma DecisionTouchesRecordsOnly(
    db: Db, action: ActionId, digest: (RunId, ActionId, ToolVersion, Input), reviewer: ReviewerId, kind: DecisionKind,
    now: int)
    requires Decide(db, action, digest, reviewer, kind, now).Done?
    ensures var after := Decide(db, action, digest, reviewer, kind, now).db;
      after == db.(governed := after.governed)
  {
  }

  lemma ExpiryTouchesRecordsOnly(db: Db, action: ActionId, now: int)
    requires Expire(db, action, now).Done?
    ensures var after := Expire(db, action, now).db; after == db.(governed := after.governed)
  {
  }

  lemma RepairWritesNoReceipt(db: Db, receipt: ReceiptId, now: int)
    requires Repair(db, receipt, now).Done?
    ensures Repair(db, receipt, now).db.receipts == db.receipts
    ensures Repair(db, receipt, now).db.mode == db.mode
  {
  }

  /** No such command writes a receipt. */
  lemma GovernanceWritesNoReceipt(db: Db, cmd: Command, now: int)
    requires cmd.DecideCmd? || cmd.CancelIntentCmd? || cmd.ExpireCmd? || cmd.RepairCmd?
    requires Apply(db, cmd, now).Done?
    ensures Apply(db, cmd, now).db.receipts == db.receipts
    ensures Apply(db, cmd, now).db.mode == db.mode
  {
    if cmd.RepairCmd? {
      RepairWritesNoReceipt(db, cmd.receipt, now);
    } else if cmd.ExpireCmd? {
      ExpiryTouchesRecordsOnly(db, cmd.intent, now);
    } else if cmd.DecideCmd? {
      DecisionTouchesRecordsOnly(db, cmd.intent, cmd.digest, cmd.reviewer, cmd.kind, now);
    }
  }

  lemma RunCommandWritesNoReceipt(db: Db, cmd: Command, now: int)
    requires cmd.AddRunCmd? || cmd.BeginIterationCmd? || cmd.AppendActionCmd? || cmd.AcceptAnswerCmd? || cmd.EndRunCmd?
    requires Apply(db, cmd, now).Done?
    ensures Apply(db, cmd, now).db.receipts == db.receipts
  {
  }

  lemma CommandWritesNoReceipt(db: Db, cmd: Command, now: int)
    requires Apply(db, cmd, now).Done?
    ensures Apply(db, cmd, now).db.receipts == db.receipts
  {
    if cmd.DecideCmd? || cmd.CancelIntentCmd? || cmd.ExpireCmd? || cmd.RepairCmd? {
      GovernanceWritesNoReceipt(db, cmd, now);
    } else if cmd.AddRunCmd? || cmd.BeginIterationCmd? || cmd.AppendActionCmd? || cmd.AcceptAnswerCmd?
      || cmd.EndRunCmd?
    {
      RunCommandWritesNoReceipt(db, cmd, now);
    }
  }

  // ---------- Receipts written by reconciliation ----------

  lemma RecordedReceipt(db: Db, receipt: Receipt)
    requires RecordReceipt(db, receipt).Done?
    ensures RecordReceipt(db, receipt).db.receipts == db.receipts[receipt.id := receipt]
  {
  }

  lemma ReceiptForTruthful(
    ledger: map<ExecutionKey, LedgerRow>, id: ReceiptId, call: Invocation, reply: Reply, error: Option<ToolError>,
    now: int)
    requires call.Consequential() ==> ReplyTruthful(ledger, call, reply)
    requires error.None? ==> reply.Delivered?
    requires error == Some(Rejected) ==> reply == Failure(Rejected)
    ensures ReceiptTruthful(ledger, ReceiptFor(id, call, reply, error, now))
  {
    assert call.Finish(now, error).Key() == call.Key();
  }

  lemma ReconcileTruthful(
    ledger: map<ExecutionKey, LedgerRow>, db: Db, call: Invocation, reply: Reply, id: ReceiptId, now: int)
    requires ReceiptsTruthful(ledger, db.receipts)
    requires call.Consequential() ==> ReplyTruthful(ledger, call, reply)
    requires Reconcile(db, call, reply, id, now).Done?
    ensures ReceiptsTruthful(ledger, Reconcile(db, call, reply, id, now).db.receipts)
  {
    var error := SettledError(db, db.runs[call.run], call, reply, now);
    var receipt := ReceiptFor(id, call, reply, error, now);
    RecordedReceipt(db, receipt);
    ReceiptForTruthful(ledger, id, call, reply, error, now);
    assert Reconcile(db, call, reply, id, now).db.receipts == db.receipts[id := receipt];
  }

  lemma RecordRecoveryTruthful(
    ledger: map<ExecutionKey, LedgerRow>, db: Db, call: Invocation, evidence: Reply, id: ReceiptId, now: int)
    requires ReceiptsTruthful(ledger, db.receipts)
    requires ReplyTruthful(ledger, call, evidence)
    requires RecordRecovery(db, call, evidence, id, now).Done?
    ensures ReceiptsTruthful(ledger, RecordRecovery(db, call, evidence, id, now).db.receipts)
  {
    var error := if evidence.Delivered? then None else Some(evidence.error);
    RecordedReceipt(db, ReceiptFor(id, call, evidence, error, now));
    ReceiptForTruthful(ledger, id, call, evidence, error, now);
  }

  lemma RecoverTruthful(
    ledger: map<ExecutionKey, LedgerRow>, db: Db, lookup: Lookup, outputOk: bool, id: ReceiptId, now: int)
    requires ReceiptsTruthful(ledger, db.receipts)
    requires LookupTruthful(ledger, lookup)
    requires Recover(db, lookup.seen, lookup.found, outputOk, id, now).Done?
    ensures ReceiptsTruthful(ledger, Recover(db, lookup.seen, lookup.found, outputOk, id, now).db.receipts)
  {
    if HasReceipt(db.receipts, lookup.seen.id) {
      RepairWritesNoReceipt(db, ReceiptOf(db, lookup.seen.id), now);
    } else {
      match lookup.found.status
      case UnknownStatus =>
      case NeverReceived =>
      case ProcessedFailure => RecordRecoveryTruthful(ledger, db, lookup.seen, Failure(Rejected), id, now);
      case ProcessedSuccess =>
        RecordRecoveryTruthful(ledger, db, lookup.seen, Delivered(lookup.found.output.value), id, now);
    }
  }

  // ---------- Replacing one database ----------

  lemma EvolvedCallsTracked(
    calls: map<InvocationId, Call>, x: map<InvocationId, Invocation>, y: map<InvocationId, Invocation>)
    requires Tracked(calls, x) && CallsEvolve(x, y) && y.Keys == x.Keys
    ensures Tracked(calls, y)
  {
    forall i | i in y ensures i in calls && CallEvolves(calls[i].claimed, y[i]) {
      assert CallEvolves(x[i], y[i]);
    }
  }

  lemma EvolvedClaimSound(dbs: map<DbId, Db>, claim: Claim, d: DbId, db: Db)
    requires ClaimSound(dbs, claim)
    requires d in dbs && db.holds == dbs[d].holds && RecordsEvolve(dbs[d].governed, db.governed)
    ensures ClaimSound(dbs[d := db], claim)
  {
    if claim.db == d {
      var x := dbs[d].governed[claim.call.action];
      assert RecordEvolves(claim.record, x) && RecordEvolves(x, db.governed[claim.call.action]);
    }
  }

  lemma EvolvedClaimsSound(dbs: map<DbId, Db>, claims: map<InvocationId, Claim>, d: DbId, db: Db)
    requires ClaimsSound(dbs, claims)
    requires d in dbs && db.holds == dbs[d].holds && RecordsEvolve(dbs[d].governed, db.governed)
    ensures ClaimsSound(dbs[d := db], claims)
  {
    forall i | i in claims ensures ClaimSound(dbs[d := db], claims[i]) {
      EvolvedClaimSound(dbs, claims[i], d, db);
    }
  }

  lemma EvolvedLineage(
    next: nat, dbs: map<DbId, Db>, snapshots: map<SnapshotId, Db>,
    origin: map<DbId, SnapshotId>, source: map<SnapshotId, DbId>, d: DbId, db: Db)
    requires LineageInv(next, dbs, snapshots, origin, source)
    requires d in dbs && db.holds == dbs[d].holds
    ensures LineageInv(next, dbs[d := db], snapshots, origin, source)
  {
    forall s | s in snapshots ensures SnapshotBound(dbs[d := db], s, snapshots[s], source[s]) {
      assert SnapshotBound(dbs, s, snapshots[s], source[s]);
    }
    forall k | k in origin ensures ForkBound(snapshots, k, dbs[d := db][k], origin[k]) {
      assert ForkBound(snapshots, k, dbs[k], origin[k]);
    }
  }

  lemma EvolvedHomes(dbs: map<DbId, Db>, calls: map<InvocationId, Call>, d: DbId, db: Db)
    requires CallsHome(dbs, calls) && d in dbs
    requires forall i | i in dbs[d].invocations :: i in db.invocations
    ensures CallsHome(dbs[d := db], calls)
  {
    forall i | i in calls ensures CallHome(dbs[d := db], i, calls[i]) {
      assert CallHome(dbs, i, calls[i]);
    }
  }

  lemma OneDbEvolves(dbs: map<DbId, Db>, d: DbId, db: Db)
    requires d in dbs && Evolves(dbs[d], db)
    ensures DbsEvolve(dbs, dbs[d := db])
  {
    DbsEvolveReflexive(dbs);
    forall k | k in dbs ensures Evolves(dbs[k], dbs[d := db][k]) {
      assert Evolves(dbs[k], dbs[k]);
    }
  }

  lemma OneDbSound(dbs: map<nat, Db>, d: nat, db: Db)
    requires AllInv(dbs) && Inv(db)
    ensures AllInv(dbs[d := db])
  {
    var dbs' := dbs[d := db];
    forall k | k in dbs' ensures Inv(dbs'[k]) {
      assert k != d ==> Inv(dbs[k]);
    }
  }

  lemma OneDbTracked(calls: map<InvocationId, Call>, dbs: map<nat, Db>, d: nat, db: Db)
    requires AllTracked(calls, dbs) && Tracked(calls, db.invocations)
    ensures AllTracked(calls, dbs[d := db])
  {
    var dbs' := dbs[d := db];
    forall k | k in dbs' ensures Tracked(calls, dbs'[k].invocations) {
      assert k != d ==> Tracked(calls, dbs[k].invocations);
    }
  }

  lemma OneDbTruthful(ledger: map<ExecutionKey, LedgerRow>, dbs: map<nat, Db>, d: nat, db: Db)
    requires AllTruthful(ledger, dbs) && ReceiptsTruthful(ledger, db.receipts)
    ensures AllTruthful(ledger, dbs[d := db])
  {
    var dbs' := dbs[d := db];
    forall k | k in dbs' ensures ReceiptsTruthful(ledger, dbs'[k].receipts) {
      assert k != d ==> ReceiptsTruthful(ledger, dbs[k].receipts);
    }
  }

  /** A quiet command in one database. */
  lemma QuietDbKeeps(w: World, d: DbId, db: Db)
    requires WorldInv(w) && d in w.dbs && Quiet(w.dbs[d], db)
    requires ReceiptsTruthful(w.ledger, db.receipts)
    ensures WorldInv(w.(dbs := w.dbs[d := db]))
    ensures WorldEvolves(w, w.(dbs := w.dbs[d := db]))
  {
    assert Tracked(w.calls, w.dbs[d].invocations);
    OneDbEvolves(w.dbs, d, db);
    EvolvedLineage(w.next, w.dbs, w.snapshots, w.origin, w.source, d, db);
    EvolvedHomes(w.dbs, w.calls, d, db);
    EvolvedCallsTracked(w.calls, w.dbs[d].invocations, db.invocations);
    EvolvedClaimsSound(w.dbs, w.claims, d, db);
    OneDbSound(w.dbs, d, db);
    OneDbTracked(w.calls, w.dbs, d, db);
    OneDbTruthful(w.ledger, w.dbs, d, db);
  }

  // ---------- Moving calls on ----------

  lemma KeptTracked(x: map<InvocationId, Call>, y: map<InvocationId, Call>, dbs: map<nat, Db>)
    requires AllTracked(x, dbs) && CallsKept(x, y)
    ensures AllTracked(y, dbs)
  {
    forall d | d in dbs ensures Tracked(y, dbs[d].invocations) {
      assert Tracked(x, dbs[d].invocations);
      forall i | i in dbs[d].invocations ensures i in y && CallEvolves(y[i].claimed, dbs[d].invocations[i]) {
        assert CallKept(x[i], y[i]);
      }
    }
  }

  lemma KeptHomes(dbs: map<DbId, Db>, x: map<InvocationId, Call>, y: map<InvocationId, Call>)
    requires CallsHome(dbs, x) && CallsKept(x, y) && y.Keys == x.Keys
    requires forall i | i in y && y[i].reply.Some? && x[i].reply.None? :: y[i].entered
    ensures CallsHome(dbs, y)
  {
    forall i | i in y ensures CallHome(dbs, i, y[i]) {
      assert CallHome(dbs, i, x[i]) && CallKept(x[i], y[i]);
    }
  }

  lemma KeptClaims(x: map<InvocationId, Call>, y: map<InvocationId, Call>, claims: map<InvocationId, Claim>)
    requires ClaimsLogged(x, claims) && CallsKept(x, y) && y.Keys == x.Keys
    ensures ClaimsLogged(y, claims)
  {
    forall i | i in claims ensures ClaimLogged(y, i, claims[i]) {
      assert ClaimLogged(x, i, claims[i]) && CallKept(x[i], y[i]);
    }
    forall i | i in y && y[i].claimed.Consequential() ensures i in claims {
      assert CallKept(x[i], y[i]);
    }
  }

  lemma KeptEntries(x: map<InvocationId, Call>, y: map<InvocationId, Call>, entries: seq<Entry>)
    requires EntriesInv(x, entries) && CallsKept(x, y)
    ensures EntriesInv(y, entries)
  {
    forall k | 0 <= k < |entries| ensures EntryBound(y, entries[k]) {
      assert EntryBound(x, entries[k]);
      assert CallKept(x[entries[k].call.id], y[entries[k].call.id]);
    }
  }

  lemma KeptLedger(x: map<InvocationId, Call>, y: map<InvocationId, Call>, ledger: map<ExecutionKey, LedgerRow>)
    requires LedgerInv(x, ledger) && CallsKept(x, y)
    ensures LedgerInv(y, ledger)
  {
    forall k | k in ledger ensures RowBound(y, k, ledger[k]) {
      assert RowBound(x, k, ledger[k]);
      assert CallKept(x[k.invocation], y[k.invocation]);
    }
  }

  lemma CallsKeptReflexive(calls: map<InvocationId, Call>)
    ensures CallsKept(calls, calls)
  {
  }

  lemma OneCallKept(calls: map<InvocationId, Call>, i: InvocationId, call: Call)
    requires i in calls && CallKept(calls[i], call)
    ensures CallsKept(calls, calls[i := call])
    ensures calls[i := call].Keys == calls.Keys
  {
    CallsKeptReflexive(calls);
    forall j | j in calls ensures CallKept(calls[j], calls[i := call][j]) {
    }
  }

  lemma OneCallTruthful(
    ledger: map<ExecutionKey, LedgerRow>, calls: map<InvocationId, Call>, i: InvocationId, call: Call)
    requires RepliesTruthful(ledger, calls) && CallTruthful(ledger, call)
    ensures RepliesTruthful(ledger, calls[i := call])
  {
    var calls' := calls[i := call];
    forall j | j in calls' ensures CallTruthful(ledger, calls'[j]) {
      assert j != i ==> CallTruthful(ledger, calls[j]);
    }
  }

  /** Calls move on while databases and ledger stand still. */
  lemma MovedCallsKeep(w: World, calls: map<InvocationId, Call>)
    requires WorldInv(w) && CallsKept(w.calls, calls) && calls.Keys == w.calls.Keys
    requires forall i | i in calls && calls[i].reply.Some? && w.calls[i].reply.None? :: calls[i].entered
    requires RepliesTruthful(w.ledger, calls)
    ensures WorldInv(w.(calls := calls))
    ensures WorldEvolves(w, w.(calls := calls))
  {
    KeptTracked(w.calls, calls, w.dbs);
    KeptTracked(w.calls, calls, w.snapshots);
    KeptHomes(w.dbs, w.calls, calls);
    KeptClaims(w.calls, calls, w.claims);
    KeptEntries(w.calls, calls, w.entries);
    KeptLedger(w.calls, calls, w.ledger);
    DbsEvolveReflexive(w.dbs);
  }

  // ---------- Events ----------

  ghost predicate Follows(w: World, w': World) { WorldInv(w') && WorldEvolves(w, w') }

  lemma CommandOutcome(db: Db, cmd: Command, now: int)
    requires Inv(db)
    ensures var outcome := Apply(db, cmd, now);
      outcome.Done? ==> Quiet(db, outcome.db) && outcome.db.receipts == db.receipts
  {
    if Apply(db, cmd, now).Done? {
      CommandKeeps(db, cmd, now);
      CommandWritesNoReceipt(db, cmd, now);
    }
  }

  lemma AfterCommandKeeps(w: World, d: DbId, outcome: Outcome)
    requires WorldInv(w) && d in w.dbs
    requires outcome.Done? ==> Quiet(w.dbs[d], outcome.db) && ReceiptsTruthful(w.ledger, outcome.db.receipts)
    ensures Follows(w, AfterCommand(w, d, outcome))
  {
    match outcome
    case Refused(_) => WorldEvolvesReflexive(w);
    case Done(db) => QuietDbKeeps(w, d, db);
  }

  lemma DoKeeps(w: World, d: DbId, cmd: Command)
    requires WorldInv(w)
    ensures Follows(w, StepDo(w, d, cmd))
  {
    if d in w.dbs {
      assert Inv(w.dbs[d]) && ReceiptsTruthful(w.ledger, w.dbs[d].receipts);
      CommandOutcome(w.dbs[d], cmd, w.clock);
      AfterCommandKeeps(w, d, Apply(w.dbs[d], cmd, w.clock));
    } else {
      WorldEvolvesReflexive(w);
    }
  }

  lemma AddedEntry(calls: map<InvocationId, Call>, entries: seq<Entry>, i: InvocationId)
    requires EntriesInv(calls, entries) && i in calls && calls[i].live && !calls[i].entered && calls[i].claimed.id == i
    ensures EntriesInv(calls[i := calls[i].(entered := true)], entries + [Entry(calls[i].db, calls[i].claimed)])
  {
    var calls' := calls[i := calls[i].(entered := true)];
    OneCallKept(calls, i, calls'[i]);
    KeptEntries(calls, calls', entries);
    var entries' := entries + [Entry(calls[i].db, calls[i].claimed)];
    forall k | 0 <= k < |entries'|
      ensures EntryBound(calls', entries'[k]) && (k < |entries| ==> entries'[k].call.id != i)
    {
      if k < |entries| {
        assert EntryBound(calls, entries[k]);
        assert EntryBound(calls', entries[k]);
      }
    }
  }

  lemma EnterKeeps(w: World, i: InvocationId)
    requires WorldInv(w)
    ensures Follows(w, StepEnter(w, i))
  {
    if i in w.calls && w.calls[i].live && !w.calls[i].entered {
      var calls := w.calls[i := w.calls[i].(entered := true)];
      assert CallHome(w.dbs, i, w.calls[i]);
      assert CallTruthful(w.ledger, w.calls[i]);
      OneCallKept(w.calls, i, calls[i]);
      OneCallTruthful(w.ledger, w.calls, i, calls[i]);
      MovedCallsKeep(w, calls);
      AddedEntry(w.calls, w.entries, i);
    } else {
      WorldEvolvesReflexive(w);
    }
  }

  lemma AnswerKeeps(w: World, i: InvocationId, answer: Reply)
    requires WorldInv(w)
    ensures Follows(w, StepAnswer(w, i, answer))
  {
    if StepAnswer(w, i, answer) == w {
      WorldEvolvesReflexive(w);
    } else {
      var calls := w.calls[i := w.calls[i].(reply := Some(answer))];
      OneCallKept(w.calls, i, calls[i]);
      OneCallTruthful(w.ledger, w.calls, i, calls[i]);
      MovedCallsKeep(w, calls);
    }
  }

  lemma CrashKeeps(w: World, d: DbId)
    requires WorldInv(w)
    ensures Follows(w, StepCrash(w, d))
  {
    var calls := StepCrash(w, d).calls;
    forall i | i in w.calls ensures i in calls && CallKept(w.calls[i], calls[i]) {}
    forall i | i in calls ensures CallTruthful(w.ledger, calls[i]) {
      assert CallTruthful(w.ledger, w.calls[i]);
    }
    MovedCallsKeep(w, calls);
  }

  // ---------- The remote effect ----------

  /** The first write under a key is the only one: a call with no reply has no row yet. */
  lemma NoRowYet(w: World, i: InvocationId)
    requires WorldInv(w) && i in w.calls && w.calls[i].reply.None?
    ensures w.calls[i].claimed.Key() !in w.ledger
  {
    var key := w.calls[i].claimed.Key();
    assert CallHome(w.dbs, i, w.calls[i]);
    assert key in w.ledger ==> RowBound(w.calls, key, w.ledger[key]);
  }

  lemma AddedRowReceipts(
    ledger: map<ExecutionKey, LedgerRow>, key: ExecutionKey, row: LedgerRow, receipts: map<ReceiptId, Receipt>)
    requires ReceiptsTruthful(ledger, receipts) && key !in ledger
    ensures ReceiptsTruthful(ledger[key := row], receipts)
  {
    forall r | r in receipts ensures ReceiptTruthful(ledger[key := row], receipts[r]) {
      assert ReceiptTruthful(ledger, receipts[r]);
    }
  }

  lemma AddedRowTruthful(ledger: map<ExecutionKey, LedgerRow>, key: ExecutionKey, row: LedgerRow, dbs: map<nat, Db>)
    requires AllTruthful(ledger, dbs) && key !in ledger
    ensures AllTruthful(ledger[key := row], dbs)
  {
    forall d | d in dbs ensures ReceiptsTruthful(ledger[key := row], dbs[d].receipts) {
      assert ReceiptsTruthful(ledger, dbs[d].receipts);
      AddedRowReceipts(ledger, key, row, dbs[d].receipts);
    }
  }

  lemma AddedRowLookups(ledger: map<ExecutionKey, LedgerRow>, key: ExecutionKey, row: LedgerRow, lookups: set<Lookup>)
    requires LookupsTruthful(ledger, lookups) && key !in ledger
    ensures LookupsTruthful(ledger[key := row], lookups)
  {
    forall l | l in lookups ensures LookupTruthful(ledger[key := row], l) {
      assert LookupTruthful(ledger, l);
    }
  }

  lemma AddedRowReplies(
    ledger: map<ExecutionKey, LedgerRow>, key: ExecutionKey, row: LedgerRow, calls: map<InvocationId, Call>)
    requires RepliesTruthful(ledger, calls) && key !in ledger
    ensures RepliesTruthful(ledger[key := row], calls)
  {
    forall i | i in calls ensures CallTruthful(ledger[key := row], calls[i]) {
      assert CallTruthful(ledger, calls[i]);
    }
  }

  lemma AddedRowBound(
    calls: map<InvocationId, Call>, ledger: map<ExecutionKey, LedgerRow>, key: ExecutionKey, row: LedgerRow)
    requires LedgerInv(calls, ledger) && RowBound(calls, key, row)
    ensures LedgerInv(calls, ledger[key := row])
  {
    var ledger' := ledger[key := row];
    forall k | k in ledger' ensures RowBound(calls, k, ledger'[k]) {
      assert k != key ==> RowBound(calls, k, ledger[k]);
    }
  }

  /** A new row contradicts nothing known before. */
  lemma AddedRowKeeps(w: World, key: ExecutionKey, row: LedgerRow)
    requires WorldInv(w) && key !in w.ledger && RowBound(w.calls, key, row)
    ensures WorldInv(w.(ledger := w.ledger[key := row]))
  {
    AddedRowTruthful(w.ledger, key, row, w.dbs);
    AddedRowTruthful(w.ledger, key, row, w.snapshots);
    AddedRowLookups(w.ledger, key, row, w.lookups);
    AddedRowReplies(w.ledger, key, row, w.calls);
    AddedRowBound(w.calls, w.ledger, key, row);
  }

  lemma EffectKeeps(w: World, i: InvocationId, reject: bool)
    requires WorldInv(w)
    ensures Follows(w, StepEffect(w, i, reject))
  {
    if StepEffect(w, i, reject) == w {
      WorldEvolvesReflexive(w);
    } else {
      NoRowYet(w, i);
      assert CallHome(w.dbs, i, w.calls[i]);
      EffectAfterReply(w, i, RowFor(w.calls[i].claimed.input, reject));
    }
  }

  /** The row and the reply appear together; the reply is looked at first. */
  lemma EffectAfterReply(w: World, i: InvocationId, row: LedgerRow)
    requires WorldInv(w) && i in w.calls && w.calls[i].entered && w.calls[i].reply.None?
    requires w.calls[i].claimed.Consequential() && w.calls[i].claimed.id == i && w.calls[i].claimed.Key() !in w.ledger
    requires row == RowFor(w.calls[i].claimed.input, true) || row == RowFor(w.calls[i].claimed.input, false)
    ensures var call := w.calls[i];
      Follows(w, w.(
        ledger := w.ledger[call.claimed.Key() := row],
        calls := w.calls[i := call.(reply := Some(DispatchReply(row, call.claimed.input)))]))
  {
    var call := w.calls[i];
    var key := call.claimed.Key();
    var calls := w.calls[i := call.(reply := Some(DispatchReply(row, call.claimed.input)))];
    OneCallKept(w.calls, i, calls[i]);
    var unanswered := w.calls[i := call.(reply := Some(Failure(InternalExecutorError)))];
    OneCallKept(w.calls, i, unanswered[i]);
    OneCallTruthful(w.ledger, w.calls, i, unanswered[i]);
    MovedCallsKeep(w, unanswered);
    AddedRowKeeps(w.(calls := unanswered), key, row);
    var w1 := w.(calls := unanswered, ledger := w.ledger[key := row]);
    OneCallTruthful(w1.ledger, w1.calls, i, calls[i]);
    assert unanswered[i := calls[i]] == calls;
    KeptTracked(w.calls, calls, w.dbs);
    KeptTracked(w.calls, calls, w.snapshots);
    KeptHomes(w.dbs, w.calls, calls);
    KeptClaims(w.calls, calls, w.claims);
    KeptEntries(w.calls, calls, w.entries);
    RepliedLedger(unanswered, i, calls[i], w1.ledger);
    WorldEvolvesReflexive(w);
  }

  lemma RepliedLedger(calls: map<InvocationId, Call>, i: InvocationId, call: Call, ledger: map<ExecutionKey, LedgerRow>)
    requires LedgerInv(calls, ledger) && i in calls && call.claimed == calls[i].claimed
    requires call.entered && call.reply.Some?
    ensures LedgerInv(calls[i := call], ledger)
  {
    forall k | k in ledger ensures RowBound(calls[i := call], k, ledger[k]) {
      assert RowBound(calls, k, ledger[k]);
    }
  }

  // ---------- Reconciling and recovering ----------

  lemma ReconcileEventKeeps(w: World, i: InvocationId, interruption: Option<ToolError>, receipt: ReceiptId)
    requires WorldInv(w)
    ensures Follows(w, StepReconcile(w, i, interruption, receipt))
  {
    if StepReconcile(w, i, interruption, receipt) == w {
      WorldEvolvesReflexive(w);
    } else {
      var call := w.calls[i];
      var reply := if interruption.Some? then Failure(interruption.value) else call.reply.value;
      assert CallTruthful(w.ledger, call);
      assert Inv(w.dbs[call.db]);
      assert ReceiptsTruthful(w.ledger, w.dbs[call.db].receipts);
      ReconcileKeeps(w.dbs[call.db], call.claimed, reply, receipt, w.clock);
      ReconcileTruthful(w.ledger, w.dbs[call.db], call.claimed, reply, receipt, w.clock);
      SettledKeeps(w, i, Reconcile(w.dbs[call.db], call.claimed, reply, receipt, w.clock).db);
    }
  }

  lemma SettledKeeps(w: World, i: InvocationId, db: Db)
    requires WorldInv(w) && i in w.calls && w.calls[i].db in w.dbs && Quiet(w.dbs[w.calls[i].db], db)
    requires ReceiptsTruthful(w.ledger, db.receipts)
    ensures Follows(w, w.(dbs := w.dbs[w.calls[i].db := db], calls := w.calls[i := w.calls[i].(live := false)]))
  {
    var call := w.calls[i].(live := false);
    var w1 := w.(dbs := w.dbs[call.db := db]);
    QuietDbKeeps(w, call.db, db);
    assert CallTruthful(w.ledger, w.calls[i]);
    OneCallKept(w.calls, i, call);
    OneCallTruthful(w.ledger, w.calls, i, call);
    MovedCallsKeep(w1, w.calls[i := call]);
    WorldEvolvesTransitive(w, w1, w1.(calls := w.calls[i := call]));
  }

  lemma LookUpKeeps(w: World, d: DbId, i: InvocationId, unknown: bool)
    requires WorldInv(w)
    ensures Follows(w, StepLookUp(w, d, i, unknown))
  {
    WorldEvolvesReflexive(w);
    if StepLookUp(w, d, i, unknown) != w {
      var seen := w.dbs[d].invocations[i];
      FreshLookupTruthful(w, d, i, unknown);
      var lookup := Lookup(seen, LookupStatus(w.ledger, seen.Key(), unknown));
      forall l | l in w.lookups + {lookup} ensures LookupTruthful(w.ledger, l) {
        assert l != lookup ==> LookupTruthful(w.ledger, l);
      }
    }
  }

  lemma FreshLookupTruthful(w: World, d: DbId, i: InvocationId, unknown: bool)
    requires AllTracked(w.calls, w.dbs) && LedgerInv(w.calls, w.ledger) && CallsHome(w.dbs, w.calls)
    requires d in w.dbs && i in w.dbs[d].invocations
    ensures var seen := w.dbs[d].invocations[i];
      LookupTruthful(w.ledger, Lookup(seen, LookupStatus(w.ledger, seen.Key(), unknown)))
  {
    var seen := w.dbs[d].invocations[i];
    assert Tracked(w.calls, w.dbs[d].invocations);
    assert CallHome(w.dbs, i, w.calls[i]);
    assert seen.Key() in w.ledger ==> RowBound(w.calls, seen.Key(), w.ledger[seen.Key()]);
  }

  lemma RecoverEventKeeps(w: World, d: DbId, lookup: Lookup, outputOk: bool, receipt: ReceiptId)
    requires WorldInv(w)
    ensures Follows(w, StepRecover(w, d, lookup, outputOk, receipt))
  {
    if d in w.dbs && lookup in w.lookups {
      var db := w.dbs[d];
      assert LookupTruthful(w.ledger, lookup) && Inv(db) && ReceiptsTruthful(w.ledger, w.dbs[d].receipts);
      if Recover(db, lookup.seen, lookup.found, outputOk, receipt, w.clock).Done? {
        RecoverKeeps(db, lookup.seen, lookup.found, outputOk, receipt, w.clock);
        RecoverTruthful(w.ledger, db, lookup, outputOk, receipt, w.clock);
      }
      AfterCommandKeeps(w, d, Recover(db, lookup.seen, lookup.found, outputOk, receipt, w.clock));
    } else {
      WorldEvolvesReflexive(w);
    }
  }

  // ---------- Snapshots and forks ----------

  lemma SnapshotLineage(
    next: nat, dbs: map<DbId, Db>, snapshots: map<SnapshotId, Db>,
    origin: map<DbId, SnapshotId>, source: map<SnapshotId, DbId>, d: DbId)
    requires LineageInv(next, dbs, snapshots, origin, source) && d in dbs
    ensures LineageInv(next + 1, dbs, snapshots[next := dbs[d]], origin, source[next := d])
  {
    var snapshots', source' := snapshots[next := dbs[d]], source[next := d];
    forall s | s in snapshots' ensures SnapshotBound(dbs, s, snapshots'[s], source'[s]) {
      assert s != next ==> SnapshotBound(dbs, s, snapshots[s], source[s]);
    }
    forall k | k in origin ensures ForkBound(snapshots', k, dbs[k], origin[k]) {
      assert ForkBound(snapshots, k, dbs[k], origin[k]);
    }
  }

  lemma SnapshotKeeps(w: World, d: DbId)
    requires WorldInv(w)
    ensures Follows(w, StepSnapshot(w, d))
  {
    WorldEvolvesReflexive(w);
    if d in w.dbs {
      assert Inv(w.dbs[d]) && Tracked(w.calls, w.dbs[d].invocations) && ReceiptsTruthful(w.ledger, w.dbs[d].receipts);
      SnapshotLineage(w.next, w.dbs, w.snapshots, w.origin, w.source, d);
      OneDbSound(w.snapshots, w.next, w.dbs[d]);
      OneDbTracked(w.calls, w.snapshots, w.next, w.dbs[d]);
      OneDbTruthful(w.ledger, w.snapshots, w.next, w.dbs[d]);
    }
  }

  lemma ForkLineage(
    next: nat, dbs: map<DbId, Db>, snapshots: map<SnapshotId, Db>,
    origin: map<DbId, SnapshotId>, source: map<SnapshotId, DbId>, s: SnapshotId, fork: Db)
    requires LineageInv(next, dbs, snapshots, origin, source) && s in snapshots
    requires fork.holds == snapshots[s].holds + snapshots[s].governed.Keys
    ensures LineageInv(next + 1, dbs[next := fork], snapshots, origin[next := s], source)
  {
    var dbs', origin' := dbs[next := fork], origin[next := s];
    forall k | k in snapshots ensures SnapshotBound(dbs', k, snapshots[k], source[k]) {
      assert SnapshotBound(dbs, k, snapshots[k], source[k]);
    }
    forall k | k in origin' ensures ForkBound(snapshots, k, dbs'[k], origin'[k]) {
      assert k != next ==> ForkBound(snapshots, k, dbs[k], origin[k]);
    }
  }

  /** A new database disturbs neither the calls nor the claims of the others. */
  lemma NewDbKeepsClaims(
    dbs: map<DbId, Db>, calls: map<InvocationId, Call>, claims: map<InvocationId, Claim>, d: DbId, db: Db)
    requires CallsHome(dbs, calls) && ClaimsSound(dbs, claims) && d !in dbs
    ensures CallsHome(dbs[d := db], calls) && ClaimsSound(dbs[d := db], claims)
  {
    forall i | i in calls ensures CallHome(dbs[d := db], i, calls[i]) {
      assert CallHome(dbs, i, calls[i]);
    }
    forall i | i in claims ensures ClaimSound(dbs[d := db], claims[i]) {
      assert ClaimSound(dbs, claims[i]);
    }
  }

  lemma NewDbEvolves(dbs: map<DbId, Db>, d: DbId, db: Db)
    requires d !in dbs
    ensures DbsEvolve(dbs, dbs[d := db])
  {
    forall k | k in dbs ensures Evolves(dbs[k], dbs[d := db][k]) {
      EvolvesReflexive(dbs[k]);
    }
  }

  lemma ForkSound(w: World, s: SnapshotId)
    requires AllInv(w.dbs) && AllInv(w.snapshots) && s in w.snapshots
    ensures AllInv(w.dbs[w.next := Restored(w.snapshots[s])])
  {
    assert Inv(w.snapshots[s]);
    RestoredInv(w.snapshots[s]);
    OneDbSound(w.dbs, w.next, Restored(w.snapshots[s]));
  }

  lemma ForkKeeps(w: World, s: SnapshotId)
    requires WorldInv(w)
    ensures Follows(w, StepFork(w, s))
  {
    WorldEvolvesReflexive(w);
    if s in w.snapshots {
      var fork := Restored(w.snapshots[s]);
      ForkSound(w, s);
      assert Tracked(w.calls, w.snapshots[s].invocations) && ReceiptsTruthful(w.ledger, w.snapshots[s].receipts);
      ForkLineage(w.next, w.dbs, w.snapshots, w.origin, w.source, s, fork);
      OneDbTracked(w.calls, w.dbs, w.next, fork);
      OneDbTruthful(w.ledger, w.dbs, w.next, fork);
      NewDbKeepsClaims(w.dbs, w.calls, w.claims, w.next, fork);
      NewDbEvolves(w.dbs, w.next, fork);
    }
  }

  // ---------- The claim ----------

  lemma ClaimedTracked(calls: map<InvocationId, Call>, i: InvocationId, call: Call, dbs: map<nat, Db>)
    requires AllTracked(calls, dbs) && i !in calls
    ensures AllTracked(calls[i := call], dbs)
    ensures CallsKept(calls, calls[i := call])
  {
    CallsKeptReflexive(calls);
    forall j | j in calls ensures CallKept(calls[j], calls[i := call][j]) {}
    KeptTracked(calls, calls[i := call], dbs);
  }

  lemma ClaimedHomes(
    dbs: map<DbId, Db>, calls: map<InvocationId, Call>, d: DbId, db: Db, call: Invocation)
    requires CallsHome(dbs, calls) && d in dbs && call.status == InFlight && call.id !in calls
    requires db.invocations == dbs[d].invocations[call.id := call]
    ensures CallsHome(dbs[d := db], calls[call.id := Call(d, call, true, false, None)])
  {
    var calls' := calls[call.id := Call(d, call, true, false, None)];
    forall i | i in calls' ensures CallHome(dbs[d := db], i, calls'[i]) {
      assert i != call.id ==> CallHome(dbs, i, calls[i]);
    }
  }

  lemma NewClaimLogged(
    calls: map<InvocationId, Call>, claims: map<InvocationId, Claim>, call: Call, claims': map<InvocationId, Claim>)
    requires ClaimsLogged(calls, claims) && call.claimed.id !in calls
    requires forall i | i in claims' && i != call.claimed.id :: i in claims && claims'[i] == claims[i]
    requires call.claimed.id in claims' <==> call.claimed.Consequential()
    requires call.claimed.id in claims' ==>
      ClaimLogged(calls[call.claimed.id := call], call.claimed.id, claims'[call.claimed.id])
    requires claims'.Keys >= claims.Keys
    ensures ClaimsLogged(calls[call.claimed.id := call], claims')
  {
    var calls' := calls[call.claimed.id := call];
    forall i | i in claims' ensures ClaimLogged(calls', i, claims'[i]) {
      assert i != call.claimed.id ==> ClaimLogged(calls, i, claims[i]);
    }
  }

  lemma NewClaimSound(w: World, d: DbId, db: Db, call: Invocation)
    requires ClaimsSound(w.dbs, w.claims) && d in w.dbs && ClaimStep(w.dbs[d], db, call, w.clock)
    requires call.Consequential()
    ensures call.action in db.governed
    ensures ClaimsSound(w.dbs[d := db], w.claims[call.id := Claim(d, call, db.governed[call.action], w.clock)])
  {
    EvolvedClaimsSound(w.dbs, w.claims, d, db);
    var dbs := w.dbs[d := db];
    var claims := w.claims[call.id := Claim(d, call, db.governed[call.action], w.clock)];
    var record := db.governed[call.action];
    assert RecordClaims(db.invocations, call.action, record);
    assert CallClaimed(db.governed, call.id, db.invocations[call.id]);
    assert RecordBound(db.actions, call.action, record);
    assert CallBound(db.runs, db.actions, call.id, db.invocations[call.id]);
    forall i | i in claims ensures ClaimSound(dbs, claims[i]) {
      assert i != call.id ==> ClaimSound(dbs, w.claims[i]);
    }
  }

  /** The calls and claims of a world after a claim, whatever else changed. */
  ghost predicate CallsClaimed(w: World, calls: map<InvocationId, Call>, claims: map<InvocationId, Claim>) {
    && CallsKept(w.calls, calls)
    && ClaimsLogged(calls, claims)
    && EntriesInv(calls, w.entries)
    && LedgerInv(calls, w.ledger)
    && RepliesTruthful(w.ledger, calls)
    && AllTracked(calls, w.snapshots)
    && Kept(w.claims, claims)
  }

  lemma ClaimedCallsKeep(
    w: World, calls: map<InvocationId, Call>, claims: map<InvocationId, Claim>, d: DbId, call: Invocation)
    requires EntriesInv(w.calls, w.entries) && LedgerInv(w.calls, w.ledger) && RepliesTruthful(w.ledger, w.calls)
    requires AllTracked(w.calls, w.snapshots) && ClaimsLogged(w.calls, w.claims)
    requires call.id !in w.calls && calls == w.calls[call.id := Call(d, call, true, false, None)]
    requires if call.Consequential()
             then call.id in claims && claims == w.claims[call.id := claims[call.id]]
                  && claims[call.id].call == call && claims[call.id].db == d
             else claims == w.claims
    ensures CallsClaimed(w, calls, claims)
  {
    var entry := Call(d, call, true, false, None);
    ClaimedTracked(w.calls, call.id, entry, w.snapshots);
    KeptEntries(w.calls, calls, w.entries);
    KeptLedger(w.calls, calls, w.ledger);
    OneCallTruthful(w.ledger, w.calls, call.id, entry);
    assert call.id in w.claims ==> ClaimLogged(w.calls, call.id, w.claims[call.id]);
    NewClaimLogged(w.calls, w.claims, entry, claims);
  }

  ghost predicate DbsClaimed(
    w: World, dbs: map<DbId, Db>, calls: map<InvocationId, Call>, claims: map<InvocationId, Claim>)
  {
    && DbsEvolve(w.dbs, dbs)
    && AllInv(dbs)
    && LineageInv(w.next, dbs, w.snapshots, w.origin, w.source)
    && CallsHome(dbs, calls)
    && ClaimsSound(dbs, claims)
    && AllTracked(calls, dbs)
  }

  lemma ClaimedDbsKeep(w: World, d: DbId, db: Db, call: Invocation)
    requires WorldInv(w) && d in w.dbs && call.id !in w.calls
    requires ClaimStep(w.dbs[d], db, call, w.clock)
    ensures var w' := AfterClaim(w, d, db, call);
      DbsClaimed(w, w'.dbs, w'.calls, w'.claims)
  {
    var entry := Call(d, call, true, false, None);
    OneDbEvolves(w.dbs, d, db);
    OneDbSound(w.dbs, d, db);
    EvolvedLineage(w.next, w.dbs, w.snapshots, w.origin, w.source, d, db);
    ClaimedHomes(w.dbs, w.calls, d, db, call);
    EvolvedClaimsSound(w.dbs, w.claims, d, db);
    ClaimedTracked(w.calls, call.id, entry, w.dbs);
    var calls := w.calls[call.id := entry];
    assert Tracked(calls, w.dbs[d].invocations);
    assert Tracked(calls, db.invocations);
    OneDbTracked(calls, w.dbs, d, db);
    if call.Consequential() {
      NewClaimSound(w, d, db, call);
    }
  }

  lemma ClaimAssembles(w: World, w': World, d: DbId)
    requires WorldInv(w) && d in w'.dbs
    requires w' == w.(dbs := w'.dbs, calls := w'.calls, claims := w'.claims)
    requires w'.dbs == w.dbs[d := w'.dbs[d]] && ReceiptsTruthful(w.ledger, w'.dbs[d].receipts)
    requires CallsClaimed(w, w'.calls, w'.claims) && DbsClaimed(w, w'.dbs, w'.calls, w'.claims)
    ensures Follows(w, w')
  {
    OneDbTruthful(w.ledger, w.dbs, d, w'.dbs[d]);
  }

  lemma ClaimEventKeeps(w: World, d: DbId, db: Db, call: Invocation)
    requires WorldInv(w) && d in w.dbs && call.id !in w.calls
    requires ClaimStep(w.dbs[d], db, call, w.clock)
    requires ReceiptsTruthful(w.ledger, db.receipts)
    ensures Follows(w, AfterClaim(w, d, db, call))
  {
    var w' := AfterClaim(w, d, db, call);
    assert CallClaimed(db.governed, call.id, db.invocations[call.id]);
    ClaimedCallsKeep(w, w'.calls, w'.claims, d, call);
    ClaimedDbsKeep(w, d, db, call);
    ClaimAssembles(w, w', d);
  }

  lemma AuthorizeWritesNoReceipt(db: Db, run: AgentRun, action: Action, orgOk: bool, now: int)
    ensures Authorize(db, run, action, orgOk, now).db.receipts == db.receipts
  {
  }

  lemma DispatchWritesNoReceipt(
    db: Db, run: AgentRun, action: Action, tool: ToolVersion, revision: nat, id: InvocationId, now: int)
    ensures var result := Dispatch(db, run, action, tool, revision, id, now);
      result.Claimed? ==> result.db.receipts == db.receipts
  {
  }

  lemma InvokeWritesNoReceipt(db: Db, run: AgentRun, action: Action, orgOk: bool, id: InvocationId, now: int)
    ensures match AuthorizeAndClaim(db, run, action, orgOk, id, now)
      case Settled(after) => after.receipts == db.receipts
      case Claimed(after, _) => after.receipts == db.receipts
      case _ => true
  {
    AuthorizeWritesNoReceipt(db, run, action, orgOk, now);
    match Authorize(db, run, action, orgOk, now)
    case Proceed(db', tool, revision) => DispatchWritesNoReceipt(db', run, action, tool, revision, id, now);
    case _ =>
  }

  lemma InvokeOutcome(db: Db, run: RunId, action: Action, expected: nat, orgOk: bool, id: InvocationId, now: int)
    requires Inv(db)
    ensures match Invoke(db, run, action, expected, orgOk, id, now)
      case Claimed(after, call) => ClaimStep(db, after, call, now) && call.id == id && after.receipts == db.receipts
      case Settled(after) => Quiet(db, after) && after.receipts == db.receipts
      case _ => true
  {
    InvokeKeeps(db, run, action, expected, orgOk, id, now);
    if InvokeGuard(db, run, action, expected, now).None? {
      InvokeWritesNoReceipt(db, db.runs[run], action, orgOk, id, now);
    }
  }

  lemma AfterInvokeKeeps(w: World, d: DbId, id: InvocationId, result: InvokeResult)
    requires WorldInv(w) && d in w.dbs && id !in w.calls
    requires match result
      case Claimed(after, call) =>
        ClaimStep(w.dbs[d], after, call, w.clock) && call.id == id && after.receipts == w.dbs[d].receipts
      case Settled(after) => Quiet(w.dbs[d], after) && after.receipts == w.dbs[d].receipts
      case _ => true
    ensures Follows(w, AfterInvoke(w, d, result))
  {
    assert ReceiptsTruthful(w.ledger, w.dbs[d].receipts);
    match result
    case Settled(db) => QuietDbKeeps(w, d, db);
    case Claimed(db, call) => ClaimEventKeeps(w, d, db, call);
    case _ => WorldEvolvesReflexive(w);
  }

  lemma InvokeEventKeeps(
    w: World, d: DbId, run: RunId, action: Action, expected: nat, orgOk: bool, id: InvocationId)
    requires WorldInv(w)
    ensures Follows(w, StepInvoke(w, d, run, action, expected, orgOk, id))
  {
    if d in w.dbs && id !in w.calls {
      assert Inv(w.dbs[d]);
      InvokeOutcome(w.dbs[d], run, action, expected, orgOk, id, w.clock);
      AfterInvokeKeeps(w, d, id, Invoke(w.dbs[d], run, action, expected, orgOk, id, w.clock));
    } else {
      WorldEvolvesReflexive(w);
    }
  }

  // ---------- Every step, every run ----------

  lemma StepKeeps(w: World, e: Event)
    requires WorldInv(w)
    ensures Follows(w, Step(w, e))
  {
    match e
    case Tick(ticks) => WorldEvolvesReflexive(w);
    case Do(d, cmd) => DoKeeps(w, d, cmd);
    case InvokeTool(d, run, action, expected, orgOk, id) => InvokeEventKeeps(w, d, run, action, expected, orgOk, id);
    case EnterExecutor(i) => EnterKeeps(w, i);
    case RemoteEffect(i, reject) => EffectKeeps(w, i, reject);
    case ExecutorAnswers(i, answer) => AnswerKeeps(w, i, answer);
    case LiveReconcile(i, interruption, receipt) => ReconcileEventKeeps(w, i, interruption, receipt);
    case LookUp(d, i, unknown) => LookUpKeeps(w, d, i, unknown);
    case RecoverWith(d, lookup, outputOk, receipt) => RecoverEventKeeps(w, d, lookup, outputOk, receipt);
    case Crash(d) => CrashKeeps(w, d);
    case TakeSnapshot(d) => SnapshotKeeps(w, d);
    case RestoreFrom(s) => ForkKeeps(w, s);
  }

  lemma GenesisInv()
    ensures WorldInv(GENESIS)
  {
    EmptyInv();
  }

  lemma {:induction false} RunKeeps(w: World, events: seq<Event>)
    requires WorldInv(w)
    ensures WorldInv(Exec(w, events)) && WorldEvolves(w, Exec(w, events))
    decreases |events|
  {
    if events == [] {
      WorldEvolvesReflexive(w);
    } else {
      var before := Exec(w, events[..|events| - 1]);
      RunKeeps(w, events[..|events| - 1]);
      StepKeeps(before, events[|events| - 1]);
      WorldEvolvesTransitive(w, before, Exec(w, events));
    }
  }
}
