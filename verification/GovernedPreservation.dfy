/** Every command keeps `Inv` and follows `Evolves`.

    The commands are taken apart as they are put together: first what a change of one table
    does to each conjunct of the invariant that mentions it (a run moved on, a record saved, a
    call added, a receipt appended), then the store primitives, then the commands that combine
    them. A command that claims no call is `Quiet`: it keeps the invariant, follows the order
    and leaves the set of calls alone. The one command that claims is `Invoke`, and `InvokeKeeps`
    says what its claim is: one new call, made on a record executable at that very moment, with
    the run moved on and the record claimed in the same transaction.
  */
module GovernedPreservation {
  import opened Prelude
  import opened GovernedRecords
  import opened GovernedCommands
  import opened GovernedInvariants

  // ---------- One run moves ----------

  lemma MovedRunCalls(db: Db, run: AgentRun)
    requires CallsInv(db.runs, db.actions, db.invocations)
    requires run.id in db.runs && RunEvolves(db.runs[run.id], run)
    ensures CallsInv(db.runs[run.id := run], db.actions, db.invocations)
  {
    forall i | i in db.invocations ensures CallBound(db.runs[run.id := run], db.actions, i, db.invocations[i]) {
      assert CallBound(db.runs, db.actions, i, db.invocations[i]);
    }
  }

  lemma MovedRunApplied(db: Db, run: AgentRun)
    requires AppliedOnceInv(db.runs, db.receipts, db.observations)
    requires run.id in db.runs && RunEvolves(db.runs[run.id], run)
    ensures AppliedOnceInv(db.runs[run.id := run], db.receipts, db.observations)
  {
    forall k | 0 <= k < |db.observations| ensures Applied(db.runs[run.id := run], db.receipts, db.observations[k]) {
      assert Applied(db.runs, db.receipts, db.observations[k]);
    }
  }

  lemma MovedRunSuccess(
    runs: map<RunId, AgentRun>, governed: map<ActionId, GovernedAction>, receipts: map<ReceiptId, Receipt>,
    run: AgentRun)
    requires SuccessInv(runs, governed, receipts) && run.id in runs && RunEvolves(runs[run.id], run)
    requires run.status == Succeeded ==> ConsequencesResolved(governed, receipts, run.id)
    ensures SuccessInv(runs[run.id := run], governed, receipts)
    ensures RunsEvolve(runs, runs[run.id := run])
  {
  }

  /** The common case: one unfinished run moves on, and so may its parents. */
  lemma RunMoves(db: Db, run: AgentRun, parents: Parents)
    requires Inv(db) && run.id in db.runs
    requires RunEvolves(db.runs[run.id], run) && (run.Terminal() ==> !run.pending)
    requires run.status == Succeeded ==> ConsequencesResolved(db.governed, db.receipts, run.id)
    ensures Quiet(db, PutRun(db.(parents := db.parents[run.id := parents]), run))
  {
    EvolvesReflexive(db);
    MovedRunCalls(db, run);
    MovedRunApplied(db, run);
    MovedRunSuccess(db.runs, db.governed, db.receipts, run);
  }

  // ---------- One governed record moves ----------

  lemma SavedRecordSuccess(
    runs: map<RunId, AgentRun>, governed: map<ActionId, GovernedAction>, receipts: map<ReceiptId, Receipt>,
    a: ActionId, record: GovernedAction)
    requires SuccessInv(runs, governed, receipts) && a in governed
    requires record.intent == governed[a].intent && record.invocation == governed[a].invocation
    ensures SuccessInv(runs, governed[a := record], receipts)
  {
    forall r | r in runs && runs[r].status == Succeeded
      ensures ConsequencesResolved(governed[a := record], receipts, r)
    {
      assert ConsequencesResolved(governed, receipts, r);
    }
  }

  lemma SavedRecordClaims(db: Db, a: ActionId, record: GovernedAction)
    requires ClaimsInv(db.governed, db.invocations) && a in db.governed
    requires RecordEvolves(db.governed[a], record) && record.invocation == db.governed[a].invocation
    ensures ClaimsInv(db.governed[a := record], db.invocations)
  {
    var governed := db.governed[a := record];
    assert RecordClaims(db.invocations, a, db.governed[a]);
    forall k | k in governed ensures RecordClaims(db.invocations, k, governed[k]) {
      assert k != a ==> RecordClaims(db.invocations, k, db.governed[k]);
    }
    forall i | i in db.invocations ensures CallClaimed(governed, i, db.invocations[i]) {
      assert CallClaimed(db.governed, i, db.invocations[i]);
    }
  }

  lemma SavedRecordEvolves(
    actions: map<ActionId, Action>, governed: map<ActionId, GovernedAction>, a: ActionId, record: GovernedAction)
    requires RecordsInv(actions, governed) && a in governed
    requires RecordBound(actions, a, record)
    requires RecordEvolves(governed[a], record) && record.invocation == governed[a].invocation
    ensures RecordsInv(actions, governed[a := record])
    ensures RecordsEvolve(governed, governed[a := record])
    ensures NoNewClaims(governed, governed[a := record])
  {
  }

  lemma SavedRecordKeeps(db: Db, a: ActionId, record: GovernedAction)
    requires Inv(db) && a in db.governed
    requires RecordBound(db.actions, a, record)
    requires RecordEvolves(db.governed[a], record)
    requires record.invocation == db.governed[a].invocation
    ensures Quiet(db, db.(governed := db.governed[a := record]))
  {
    EvolvesReflexive(db);
    SavedRecordEvolves(db.actions, db.governed, a, record);
    SavedRecordClaims(db, a, record);
    SavedRecordSuccess(db.runs, db.governed, db.receipts, a, record);
  }

  /** What the guards of a save, and nothing else, make certain about a record's next version: its history
      only grows, by one decision at most, a closed record stays closed, and a claim is never moved. */
  lemma AcceptedSaveFollows(db: Db, record: GovernedAction, expected: Option<nat>)
    requires RecordsInv(db.actions, db.governed) && record.intent.action in db.governed
    requires SaveGoverned(db, record, expected).Done?
    ensures var before := db.governed[record.intent.action];
      && record.intent == before.intent && record.WellFormed()
      && before.version < record.version
      && before.decisions <= record.decisions && |record.decisions| <= |before.decisions| + 1
      && (before.cancelled ==> record.cancelled) && (before.consumed ==> record.consumed)
      && (before.Closed() ==> record.Closed())
      && (|before.decisions| > 0 && !before.LastApproved() ==> record.decisions == before.decisions)
      && (before.invocation.Some? ==> record.invocation == before.invocation)
    ensures SaveGoverned(db, record, expected).db == db.(governed := db.governed[record.intent.action := record])
  {
    assert RecordBound(db.actions, record.intent.action, db.governed[record.intent.action]);
    if db.governed[record.intent.action].decisions != [] && !db.governed[record.intent.action].LastApproved() {
      FinalDecisionStays(db.governed[record.intent.action], record);
    }
  }

  lemma FinalDecisionStays(before: GovernedAction, record: GovernedAction)
    requires before.WellFormed() && record.WellFormed() && before.decisions <= record.decisions
    requires |before.decisions| > 0 && !before.LastApproved()
    ensures record.decisions == before.decisions
  {
    assert record.decisions[0] == before.decisions[0];
  }

  /** A save the store accepts keeps the invariant when it cannot reopen or rewrite the record. */
  lemma GuardedSaveKeeps(db: Db, a: ActionId, record: GovernedAction)
    requires Inv(db) && a in db.governed && record.intent == db.governed[a].intent
    requires SaveGoverned(db, record, Some(db.governed[a].version)).Done?
    requires RecordEvolves(db.governed[a], record) && record.invocation == db.governed[a].invocation
    ensures SaveGoverned(db, record, Some(db.governed[a].version)).db == db.(governed := db.governed[a := record])
    ensures Quiet(db, db.(governed := db.governed[a := record]))
  {
    assert RecordBound(db.actions, a, db.governed[a]);
    SavedRecordKeeps(db, a, record);
  }

  lemma AppendedDecisionEvolves(record: GovernedAction, decision: Decision)
    requires record.WellFormed() && record.invocation.None? && !record.cancelled
    requires record.Closed() ==> decision.kind != Approved
    ensures RecordEvolves(record, record.(decisions := record.decisions + [decision], version := record.version + 1))
  {
  }

  lemma DecideKeeps(
    db: Db, action: ActionId, digest: (RunId, ActionId, ToolVersion, Input), reviewer: ReviewerId, kind: DecisionKind,
    now: int)
    requires Inv(db) && Decide(db, action, digest, reviewer, kind, now).Done?
    ensures Quiet(db, Decide(db, action, digest, reviewer, kind, now).db)
  {
    var record := db.governed[action];
    assert RecordBound(db.actions, action, record);
    var decision := Decision(kind, db.policy.value.version, Some(reviewer), now);
    AppendedDecisionEvolves(record, decision);
    GuardedSaveKeeps(db, action, record.(decisions := record.decisions + [decision], version := record.version + 1));
  }

  lemma CancelKeeps(db: Db, action: ActionId)
    requires Inv(db) && CancelIntent(db, action).Done?
    ensures Quiet(db, CancelIntent(db, action).db)
  {
    var record := db.governed[action];
    GuardedSaveKeeps(db, action, record.(cancelled := true, version := record.version + 1));
  }

  lemma ExpireKeeps(db: Db, action: ActionId, now: int)
    requires Inv(db) && Expire(db, action, now).Done?
    ensures Quiet(db, Expire(db, action, now).db)
  {
    var record := db.governed[action];
    if !record.ExpiryDue(now) {
      EvolvesReflexive(db);
    } else {
      assert RecordBound(db.actions, action, record);
      var decision := Decision(Expired, record.intent.policy.version, None, now);
      AppendedDecisionEvolves(record, decision);
      GuardedSaveKeeps(db, action, record.(decisions := record.decisions + [decision], version := record.version + 1));
    }
  }

  lemma ConsumeKeeps(db: Db, invocation: Invocation)
    requires Inv(db) && Consume(db, invocation).Done?
    ensures Quiet(db, Consume(db, invocation).db)
    ensures Consume(db, invocation).db == db.(governed := Consume(db, invocation).db.governed)
  {
    if Consume(db, invocation) == Done(db) {
      EvolvesReflexive(db);
    } else {
      var record := db.governed[invocation.action];
      GuardedSaveKeeps(db, invocation.action, record.(consumed := true, version := record.version + 1));
    }
  }

  // ---------- A new record ----------

  lemma NewRecordSuccess(
    runs: map<RunId, AgentRun>, governed: map<ActionId, GovernedAction>, receipts: map<ReceiptId, Receipt>,
    a: ActionId, record: GovernedAction)
    requires SuccessInv(runs, governed, receipts) && a !in governed
    requires record.intent.run in runs && runs[record.intent.run].status != Succeeded
    ensures SuccessInv(runs, governed[a := record], receipts)
  {
    forall r | r in runs && runs[r].status == Succeeded
      ensures ConsequencesResolved(governed[a := record], receipts, r)
    {
      assert ConsequencesResolved(governed, receipts, r);
    }
  }

  lemma NewRecordBound(db: Db, a: ActionId, record: GovernedAction)
    requires RecordsInv(db.actions, db.governed) && ClaimsInv(db.governed, db.invocations)
    requires a !in db.governed && RecordBound(db.actions, a, record) && record.invocation.None?
    ensures RecordsInv(db.actions, db.governed[a := record])
    ensures ClaimsInv(db.governed[a := record], db.invocations)
    ensures RecordsEvolve(db.governed, db.governed[a := record])
    ensures NoNewClaims(db.governed, db.governed[a := record])
  {
    var governed := db.governed[a := record];
    forall k | k in governed ensures RecordClaims(db.invocations, k, governed[k]) {
      assert k != a ==> RecordClaims(db.invocations, k, db.governed[k]);
    }
    forall i | i in db.invocations ensures CallClaimed(governed, i, db.invocations[i]) {
      assert CallClaimed(db.governed, i, db.invocations[i]);
    }
  }

  lemma NewRecordKeeps(db: Db, a: ActionId, record: GovernedAction)
    requires Inv(db) && a !in db.governed && RecordBound(db.actions, a, record) && record.invocation.None?
    requires record.intent.run in db.runs && db.runs[record.intent.run].status != Succeeded
    ensures Quiet(db, db.(governed := db.governed[a := record]))
  {
    EvolvesReflexive(db);
    NewRecordBound(db, a, record);
    NewRecordSuccess(db.runs, db.governed, db.receipts, a, record);
  }

  /** A prepared record binds exactly the tool and arguments of this call. */
  lemma PrepareKeeps(db: Db, run: AgentRun, action: Action, tool: ToolVersion, orgOk: bool, now: int)
    requires Inv(db) && run.id in db.runs && db.runs[run.id] == run && run.status == Running
    requires action.id in db.actions && db.actions[action.id] == action && action.run == run.id
    requires ValidInput(action.args, tool) && tool.kind == SendFixtureMessage
    requires Prepare(db, run, action, tool, orgOk, now).Done?
    ensures var after := Prepare(db, run, action, tool, orgOk, now).db;
      && Quiet(db, after)
      && after == db.(governed := after.governed)
      && action.id in after.governed
      && after.governed[action.id].intent.tool == tool
  {
    if action.id in db.governed {
      EvolvesReflexive(db);
    } else {
      var intent := NewIntent(run, action, tool, db.policy.value, now);
      NewRecordKeeps(db, action.id, GovernedAction(intent, [], false, None, false, 1));
    }
  }

  // ---------- Observations ----------

  lemma ObservedOnce(
    runs: map<RunId, AgentRun>, receipts: map<ReceiptId, Receipt>, before: seq<Observation>, seen: Observation)
    requires AppliedOnceInv(runs, receipts, before) && Applied(runs, receipts, seen)
    requires seen.receipt.Some? ==> forall k | 0 <= k < |before| :: before[k].receipt != seen.receipt
    ensures AppliedOnceInv(runs, receipts, before + [seen])
  {
  }

  lemma ReceiptVersionReached(db: Db, r: ReceiptId)
    requires CallsInv(db.runs, db.actions, db.invocations) && ReceiptsInv(db.invocations, db.receipts)
    requires r in db.receipts
    ensures db.receipts[r].invocation.run in db.runs
    ensures db.receipts[r].invocation.runVersion <= db.runs[db.receipts[r].invocation.run].version
  {
    var call := db.receipts[r].invocation;
    assert ReceiptBound(db.invocations, r, db.receipts[r]);
    assert CallBound(db.runs, db.actions, call.id, db.invocations[call.id]);
  }

  lemma AddedObservationKeeps(db: Db, db1: Db, seen: Observation)
    requires Quiet(db, db1) && db.observations <= db1.observations
    requires AppliedOnceInv(db1.runs, db1.receipts, db1.observations + [seen])
    ensures Quiet(db, db1.(observations := db1.observations + [seen]))
  {
  }

  /** An observation is appended together with the version step that makes it final. */
  lemma ObserveKeeps(db: Db, run: AgentRun, action: ActionId, receipt: Option<ReceiptId>, error: Option<ToolError>)
    requires Inv(db) && run.id in db.runs && db.runs[run.id] == run && !run.Terminal()
    requires receipt.Some? ==>
      && receipt.value in db.receipts
      && db.receipts[receipt.value].invocation.run == run.id
      && (forall k | 0 <= k < |db.observations| :: db.observations[k].receipt != receipt)
    ensures Quiet(db, Observe(db, run, action, receipt, error))
  {
    var moved := run.Evolve(run.status, false);
    var seen := Observation(run.id, action, receipt, error);
    assert run.id in db.parents;
    RunMoves(db, moved, db.parents[run.id]);
    assert db.parents[run.id := db.parents[run.id]] == db.parents;
    if receipt.Some? {
      ReceiptVersionReached(db, receipt.value);
    }
    assert Applied(db.runs[run.id := moved], db.receipts, seen);
    MovedRunApplied(db, moved);
    ObservedOnce(db.runs[run.id := moved], db.receipts, db.observations, seen);
    AddedObservationKeeps(db, PutRun(db, moved), seen);
  }

  // ---------- Receipts ----------

  lemma FinishedReceipts(calls: map<InvocationId, Invocation>, receipts: map<ReceiptId, Receipt>, receipt: Receipt)
    requires ReceiptsInv(calls, receipts)
    requires receipt.id !in receipts && receipt.WellFormed()
    requires receipt.invocation.id in calls && receipt.invocation.FinishOf(calls[receipt.invocation.id])
    ensures ReceiptsInv(calls[receipt.invocation.id := receipt.invocation], receipts[receipt.id := receipt])
    ensures ReceiptsEvolve(receipts, receipts[receipt.id := receipt])
  {
    var calls' := calls[receipt.invocation.id := receipt.invocation];
    var receipts' := receipts[receipt.id := receipt];
    forall r | r in receipts' ensures ReceiptBound(calls', r, receipts'[r]) {
      assert r != receipt.id ==> ReceiptBound(calls, r, receipts[r]);
    }
    forall i | i in calls' && calls'[i].status != InFlight ensures HasReceipt(receipts', i) {
      if i == receipt.invocation.id {
        assert receipts'[receipt.id].invocation.id == i;
      } else {
        assert HasReceipt(receipts, i);
        var r :| r in receipts && receipts[r].invocation.id == i;
        assert receipts'[r] == receipts[r];
      }
    }
  }

  lemma FinishedCalls(db: Db, call: Invocation)
    requires CallsInv(db.runs, db.actions, db.invocations) && OneCallPerAction(db.invocations)
    requires ClaimsInv(db.governed, db.invocations)
    requires call.id in db.invocations && call.FinishOf(db.invocations[call.id])
    ensures CallsInv(db.runs, db.actions, db.invocations[call.id := call])
    ensures OneCallPerAction(db.invocations[call.id := call])
    ensures ClaimsInv(db.governed, db.invocations[call.id := call])
    ensures CallsEvolve(db.invocations, db.invocations[call.id := call])
    ensures db.invocations[call.id := call].Keys == db.invocations.Keys
  {
    var calls := db.invocations[call.id := call];
    forall i | i in calls ensures CallBound(db.runs, db.actions, i, calls[i]) && CallClaimed(db.governed, i, calls[i]) {
      assert CallBound(db.runs, db.actions, i, db.invocations[i]);
      assert CallClaimed(db.governed, i, db.invocations[i]);
    }
    forall a | a in db.governed ensures RecordClaims(calls, a, db.governed[a]) {
      assert RecordClaims(db.invocations, a, db.governed[a]);
    }
  }

  lemma AddedReceiptApplied(
    runs: map<RunId, AgentRun>, receipts: map<ReceiptId, Receipt>, observations: seq<Observation>, receipt: Receipt)
    requires AppliedOnceInv(runs, receipts, observations) && receipt.id !in receipts
    ensures AppliedOnceInv(runs, receipts[receipt.id := receipt], observations)
    ensures forall k | 0 <= k < |observations| :: observations[k].receipt != Some(receipt.id)
  {
    forall k | 0 <= k < |observations|
      ensures Applied(runs, receipts[receipt.id := receipt], observations[k])
      ensures observations[k].receipt != Some(receipt.id)
    {
      assert Applied(runs, receipts, observations[k]);
    }
  }

  lemma AddedReceiptSuccess(
    runs: map<RunId, AgentRun>, governed: map<ActionId, GovernedAction>, receipts: map<ReceiptId, Receipt>,
    receipt: Receipt)
    requires SuccessInv(runs, governed, receipts) && receipt.id !in receipts
    ensures SuccessInv(runs, governed, receipts[receipt.id := receipt])
  {
    var receipts' := receipts[receipt.id := receipt];
    forall r | r in runs && runs[r].status == Succeeded ensures ConsequencesResolved(governed, receipts', r) {
      assert ConsequencesResolved(governed, receipts, r);
      forall k | k in governed && governed[k].intent.run == r
        ensures governed[k].invocation.Some? && SuccessfulCall(receipts', governed[k].invocation.value)
      {
        assert SuccessfulCall(receipts, governed[k].invocation.value);
        var q :| q in receipts && receipts[q].invocation.id == governed[k].invocation.value && receipts[q].output.Some?;
        assert receipts'[q] == receipts[q];
      }
    }
  }

  lemma FinishKeeps(db: Db, receipt: Receipt)
    requires Inv(db) && FinishInvocation(db, receipt).Done?
    ensures Quiet(db, FinishInvocation(db, receipt).db)
    ensures forall k | 0 <= k < |db.observations| :: db.observations[k].receipt != Some(receipt.id)
  {
    EvolvesReflexive(db);
    FinishedReceipts(db.invocations, db.receipts, receipt);
    FinishedCalls(db, receipt.invocation);
    AddedReceiptApplied(db.runs, db.receipts, db.observations, receipt);
    AddedReceiptSuccess(db.runs, db.governed, db.receipts, receipt);
  }

  // ---------- Settling a call ----------

  lemma QuietTransitive(a: Db, b: Db, c: Db)
    requires Quiet(a, b) && Quiet(b, c)
    ensures Quiet(a, c)
  {
    EvolvesTransitive(a, b, c);
  }

  lemma RecordReceiptKeeps(db: Db, receipt: Receipt)
    requires Inv(db) && RecordReceipt(db, receipt).Done?
    ensures var after := RecordReceipt(db, receipt).db;
      && Quiet(db, after)
      && after == db.(governed := after.governed, invocations := after.invocations, receipts := after.receipts)
      && after.receipts == db.receipts[receipt.id := receipt]
      && (forall k | 0 <= k < |db.observations| :: db.observations[k].receipt != Some(receipt.id))
  {
    FinishKeeps(db, receipt);
    var db1 := FinishInvocation(db, receipt).db;
    ConsumeKeeps(db1, receipt.invocation);
    QuietTransitive(db, db1, Consume(db1, receipt.invocation).db);
  }

  lemma ReconcileKeeps(db: Db, invocation: Invocation, reply: Reply, id: ReceiptId, now: int)
    requires Inv(db) && Reconcile(db, invocation, reply, id, now).Done?
    ensures Quiet(db, Reconcile(db, invocation, reply, id, now).db)
  {
    var run := db.runs[invocation.run];
    var error := SettledError(db, run, invocation, reply, now);
    var receipt := ReceiptFor(id, invocation, reply, error, now);
    RecordReceiptKeeps(db, receipt);
    var db1 := RecordReceipt(db, receipt).db;
    if !run.Terminal() && !Stale(db, run, invocation) {
      ObserveKeeps(db1, run, invocation.action, Some(id), error);
      QuietTransitive(db, db1, Observe(db1, run, invocation.action, Some(id), error));
    }
  }

  /** A run still at the claiming version has not been shown the receipt. */
  lemma UnappliedAtClaimVersion(
    runs: map<RunId, AgentRun>, receipts: map<ReceiptId, Receipt>, observations: seq<Observation>, r: ReceiptId)
    requires AppliedOnceInv(runs, receipts, observations) && r in receipts
    requires receipts[r].invocation.run in runs
    requires runs[receipts[r].invocation.run].version == receipts[r].invocation.runVersion
    ensures forall k | 0 <= k < |observations| :: observations[k].receipt != Some(r)
  {
    forall k | 0 <= k < |observations| ensures observations[k].receipt != Some(r) {
      assert Applied(runs, receipts, observations[k]);
    }
  }

  lemma RepairKeeps(db: Db, receipt: ReceiptId, now: int)
    requires Inv(db) && Repair(db, receipt, now).Done?
    ensures Quiet(db, Repair(db, receipt, now).db)
  {
    var invocation := db.receipts[receipt].invocation;
    ConsumeKeeps(db, invocation);
    var db1 := Consume(db, invocation).db;
    if Applicable(db1, invocation, now) {
      assert RunsInv(db1.runs, db1.parents, db1.actions);
      UnappliedAtClaimVersion(db1.runs, db1.receipts, db1.observations, receipt);
      ObserveKeeps(db1, db1.runs[invocation.run], invocation.action, Some(receipt), invocation.error);
      QuietTransitive(db, db1,
          Observe(db1, db1.runs[invocation.run], invocation.action, Some(receipt), invocation.error));
    }
  }

  lemma RecordRecoveryKeeps(db: Db, seen: Invocation, evidence: Reply, id: ReceiptId, now: int)
    requires Inv(db) && RecordRecovery(db, seen, evidence, id, now).Done?
    ensures Quiet(db, RecordRecovery(db, seen, evidence, id, now).db)
  {
    var error := if evidence.Delivered? then None else Some(evidence.error);
    RecordReceiptKeeps(db, ReceiptFor(id, seen, evidence, error, now));
  }

  lemma RecoverKeeps(db: Db, seen: Invocation, lookup: RemoteLookup, outputOk: bool, id: ReceiptId, now: int)
    requires Inv(db) && Recover(db, seen, lookup, outputOk, id, now).Done?
    ensures Quiet(db, Recover(db, seen, lookup, outputOk, id, now).db)
  {
    if HasReceipt(db.receipts, seen.id) {
      RepairKeeps(db, ReceiptOf(db, seen.id), now);
    } else {
      match lookup.status
      case UnknownStatus => EvolvesReflexive(db);
      case NeverReceived => EvolvesReflexive(db);
      case ProcessedFailure => RecordRecoveryKeeps(db, seen, Failure(Rejected), id, now);
      case ProcessedSuccess => RecordRecoveryKeeps(db, seen, Delivered(lookup.output.value), id, now);
    }
  }

  // ---------- The run loop ----------

  /** A command that only moves one run, and perhaps the parents above it. */
  ghost predicate MovesRun(a: Db, b: Db, run: RunId) {
    && run in a.runs && run in b.runs && run in a.parents && run in b.parents
    && b.runs[run].id == run
    && RunEvolves(a.runs[run], b.runs[run])
    && (b.runs[run].Terminal() ==> !b.runs[run].pending)
    && (b.runs[run].status == Succeeded ==>
        a.runs[run] == b.runs[run] || ConsequencesResolved(a.governed, a.receipts, run))
    && b == a.(runs := a.runs[run := b.runs[run]], parents := a.parents[run := b.parents[run]])
  }

  lemma MovesRunKeeps(a: Db, b: Db, run: RunId)
    requires Inv(a) && MovesRun(a, b, run)
    ensures Quiet(a, b)
  {
    assert SuccessInv(a.runs, a.governed, a.receipts);
    RunMoves(a, b.runs[run], b.parents[run]);
  }

  lemma BeginIterationKeeps(db: Db, run: RunId, now: int)
    requires Inv(db) && BeginIteration(db, run, now).Done?
    ensures Quiet(db, BeginIteration(db, run, now).db)
  {
    assert db.parents[run := db.parents[run]] == db.parents;
    MovesRunKeeps(db, BeginIteration(db, run, now).db, run);
  }

  lemma AcceptAnswerKeeps(db: Db, run: RunId, expected: nat, answer: Answer, now: int)
    requires Inv(db) && AcceptAnswer(db, run, expected, answer, now).Done?
    ensures Quiet(db, AcceptAnswer(db, run, expected, answer, now).db)
  {
    assert db.parents[run := db.parents[run]] == db.parents;
    MovesRunKeeps(db, AcceptAnswer(db, run, expected, answer, now).db, run);
  }

  lemma EndRunMoves(db: Db, run: RunId, cancelled: bool)
    requires run in db.runs && db.runs[run].id == run
    requires EndRun(db, run, cancelled).Done? && !db.runs[run].Terminal()
    ensures MovesRun(db, EndRun(db, run, cancelled).db, run)
  {
  }

  lemma EndRunKeeps(db: Db, run: RunId, cancelled: bool)
    requires Inv(db) && EndRun(db, run, cancelled).Done?
    ensures Quiet(db, EndRun(db, run, cancelled).db)
  {
    if db.runs[run].Terminal() {
      EvolvesReflexive(db);
    } else {
      EndRunMoves(db, run, cancelled);
      MovesRunKeeps(db, EndRun(db, run, cancelled).db, run);
    }
  }

  lemma ResumeContextKeeps(db: Db, run: RunId, expected: nat, now: int)
    requires Inv(db) && ResumeContext(db, run, expected, now).Done?
    ensures Quiet(db, ResumeContext(db, run, expected, now).db)
  {
    if now >= db.runs[run].deadline {
      EndRunKeeps(db, run, false);
    } else {
      MovesRunKeeps(db, ResumeContext(db, run, expected, now).db, run);
    }
  }

  lemma ReopenForIntentKeeps(db: Db, run: RunId, action: ActionId, expected: nat, orgOk: bool, now: int)
    requires Inv(db) && ReopenForIntent(db, run, action, expected, orgOk, now).Done?
    ensures Quiet(db, ReopenForIntent(db, run, action, expected, orgOk, now).db)
  {
    MovesRunKeeps(db, ReopenForIntent(db, run, action, expected, orgOk, now).db, run);
  }

  lemma ApprovalWaitKeeps(db: Db, run: AgentRun)
    requires Inv(db) && run.id in db.runs && db.runs[run.id] == run && run.status == Running
    ensures run.id in db.parents && Quiet(db, ApprovalWait(db, run))
  {
    MovesRunKeeps(db, ApprovalWait(db, run), run.id);
  }

  lemma RestoreWaitKeeps(db: Db, run: RunId, action: ActionId, version: nat)
    requires Inv(db) && RestoreWait(db, run, action, version).Done?
    ensures Quiet(db, RestoreWait(db, run, action, version).db)
  {
    if RestoreWait(db, run, action, version) == Done(db) {
      EvolvesReflexive(db);
    } else {
      ApprovalWaitKeeps(db, db.runs[run]);
    }
  }

  lemma TouchRunKeeps(db: Db, run: RunId, expected: nat)
    requires Inv(db) && TouchRun(db, run, expected).Done?
    ensures Quiet(db, TouchRun(db, run, expected).db)
  {
    assert db.parents[run := db.parents[run]] == db.parents;
    MovesRunKeeps(db, TouchRun(db, run, expected).db, run);
  }

  lemma MoveParentsKeeps(db: Db, run: RunId, parents: Parents)
    requires Inv(db) && MoveParents(db, run, parents).Done?
    ensures Quiet(db, MoveParents(db, run, parents).db)
  {
    assert db.runs[run := db.runs[run]] == db.runs;
    MovesRunKeeps(db, MoveParents(db, run, parents).db, run);
  }

  lemma AddedRunCalls(db: Db, run: AgentRun)
    requires CallsInv(db.runs, db.actions, db.invocations) && AppliedOnceInv(db.runs, db.receipts, db.observations)
    requires run.id !in db.runs
    ensures CallsInv(db.runs[run.id := run], db.actions, db.invocations)
    ensures AppliedOnceInv(db.runs[run.id := run], db.receipts, db.observations)
  {
    var runs := db.runs[run.id := run];
    forall i | i in db.invocations ensures CallBound(runs, db.actions, i, db.invocations[i]) {
      assert CallBound(db.runs, db.actions, i, db.invocations[i]);
    }
    forall k | 0 <= k < |db.observations| ensures Applied(runs, db.receipts, db.observations[k]) {
      assert Applied(db.runs, db.receipts, db.observations[k]);
    }
  }

  lemma AddRunKeeps(db: Db, run: AgentRun, parents: Parents)
    requires Inv(db) && AddRun(db, run, parents).Done?
    ensures Quiet(db, AddRun(db, run, parents).db)
  {
    var runs := db.runs[run.id := run];
    EvolvesReflexive(db);
    AddedRunCalls(db, run);
    assert RunsInv(runs, db.parents[run.id := parents], db.actions);
    assert SuccessInv(runs, db.governed, db.receipts);
    assert RunsEvolve(db.runs, runs);
  }

  lemma AppendActionKeeps(db: Db, action: Action, expected: nat, now: int)
    requires Inv(db) && AppendAction(db, action, expected, now).Done?
    ensures Quiet(db, AppendAction(db, action, expected, now).db)
  {
    var actions := db.actions[action.id := action];
    EvolvesReflexive(db);
    forall i | i in db.invocations ensures CallBound(db.runs, actions, i, db.invocations[i]) {
      assert CallBound(db.runs, db.actions, i, db.invocations[i]);
    }
    forall a | a in db.governed ensures RecordBound(actions, a, db.governed[a]) {
      assert RecordBound(db.actions, a, db.governed[a]);
    }
    assert ActionsEvolve(db.actions, actions);
  }

  lemma SettingsKeep(db: Db, registry: map<Grant, Registration>, policy: Option<Policy>, mode: Mode)
    requires Inv(db)
    ensures Quiet(db, db.(registry := registry, policy := policy, mode := mode))
  {
    EvolvesReflexive(db);
  }

  // ---------- The claim ----------

  lemma AddedCallBound(db: Db, call: Invocation)
    requires CallsInv(db.runs, db.actions, db.invocations) && OneCallPerAction(db.invocations)
    requires ReceiptsInv(db.invocations, db.receipts)
    requires CallBound(db.runs, db.actions, call.id, call) && call.id !in db.invocations && call.status == InFlight
    requires !ActionInvoked(db, call.action)
    ensures CallsInv(db.runs, db.actions, db.invocations[call.id := call])
    ensures OneCallPerAction(db.invocations[call.id := call])
    ensures ReceiptsInv(db.invocations[call.id := call], db.receipts)
    ensures CallsEvolve(db.invocations, db.invocations[call.id := call])
  {
    var calls := db.invocations[call.id := call];
    forall r | r in db.receipts ensures ReceiptBound(calls, r, db.receipts[r]) {
      assert ReceiptBound(db.invocations, r, db.receipts[r]);
    }
  }

  function WithClaim(record: GovernedAction, call: InvocationId): GovernedAction {
    record.(invocation := Some(call), version := record.version + 1)
  }

  /** The governed half of a claim: the record takes the call's id while it is executable. */
  lemma ClaimedRecord(
    actions: map<ActionId, Action>, governed: map<ActionId, GovernedAction>, calls: map<InvocationId, Invocation>,
    call: Invocation, now: int)
    requires RecordsInv(actions, governed) && ClaimsInv(governed, calls)
    requires call.id !in calls && call.action in governed && governed[call.action].Executable(now)
    requires governed[call.action].intent.tool == call.tool
    ensures var record := WithClaim(governed[call.action], call.id);
      && RecordsInv(actions, governed[call.action := record])
      && ClaimsInv(governed[call.action := record], calls[call.id := call])
      && RecordsEvolve(governed, governed[call.action := record])
      && Unclaimed(record).Executable(now)
  {
    var a := call.action;
    var record := WithClaim(governed[a], call.id);
    var governed', calls' := governed[a := record], calls[call.id := call];
    assert RecordBound(actions, a, governed[a]);
    forall k | k in governed' ensures RecordBound(actions, k, governed'[k]) && RecordClaims(calls', k, governed'[k]) {
      assert RecordBound(actions, k, governed[k]);
      assert RecordClaims(calls, k, governed[k]);
    }
    forall i | i in calls' ensures CallClaimed(governed', i, calls'[i]) {
      assert i != call.id ==> CallClaimed(governed, i, calls[i]);
    }
  }

  lemma ReadOnlyCall(governed: map<ActionId, GovernedAction>, calls: map<InvocationId, Invocation>, call: Invocation)
    requires ClaimsInv(governed, calls) && call.id !in calls && !call.Consequential()
    ensures ClaimsInv(governed, calls[call.id := call])
  {
    var calls' := calls[call.id := call];
    forall k | k in governed ensures RecordClaims(calls', k, governed[k]) {
      assert RecordClaims(calls, k, governed[k]);
    }
    forall i | i in calls' ensures CallClaimed(governed, i, calls'[i]) {
      assert i != call.id ==> CallClaimed(governed, i, calls[i]);
    }
  }

  lemma ClaimedSuccess(
    runs: map<RunId, AgentRun>, governed: map<ActionId, GovernedAction>, receipts: map<ReceiptId, Receipt>,
    a: ActionId, record: GovernedAction)
    requires SuccessInv(runs, governed, receipts) && a in governed && record.intent == governed[a].intent
    requires record.intent.run in runs && runs[record.intent.run].status != Succeeded
    ensures SuccessInv(runs, governed[a := record], receipts)
  {
    forall r | r in runs && runs[r].status == Succeeded
      ensures ConsequencesResolved(governed[a := record], receipts, r)
    {
      assert ConsequencesResolved(governed, receipts, r);
    }
  }

  /** What the two store calls of a claim write together. */
  lemma ClaimCommits(db: Db, call: Invocation, now: int)
    requires AddInvocation(db, call).Done? && call.action in db.governed
    requires db.governed[call.action].intent.action == call.action
    requires ClaimRecord(AddInvocation(db, call).db, call.action, call.id, now).Done?
    ensures ClaimRecord(AddInvocation(db, call).db, call.action, call.id, now).db == db.(
        invocations := db.invocations[call.id := call],
        governed := db.governed[call.action := WithClaim(db.governed[call.action], call.id)])
    ensures db.governed[call.action].Executable(now)
    ensures call.id !in db.invocations && call.status == InFlight && !ActionInvoked(db, call.action)
  {
  }

  lemma OnlyNewClaim(governed: map<ActionId, GovernedAction>, a: ActionId, call: InvocationId)
    requires a in governed
    ensures forall k | k in governed[a := WithClaim(governed[a], call)] :: 
      governed[a := WithClaim(governed[a], call)][k].invocation.Some?
      && governed[a := WithClaim(governed[a], call)][k].invocation != Some(call) ==>
      k in governed && governed[k].invocation == governed[a := WithClaim(governed[a], call)][k].invocation
  {
  }

  /** `db` already carries the claiming run version. */
  lemma AddGovernedCallKeeps(db: Db, call: Invocation, now: int)
    requires Inv(db) && AddInvocation(db, call).Done? && call.Consequential()
    requires CallBound(db.runs, db.actions, call.id, call) && call.startedAt == now
    requires db.runs[call.run].status == Running
    requires call.action in db.governed && db.governed[call.action].intent.tool == call.tool
    requires ClaimRecord(AddInvocation(db, call).db, call.action, call.id, now).Done? && MayDispatch(db, call.action)
    ensures ClaimStep(db, ClaimRecord(AddInvocation(db, call).db, call.action, call.id, now).db, call, now)
  {
    assert RecordBound(db.actions, call.action, db.governed[call.action]);
    ClaimCommits(db, call, now);
    EvolvesReflexive(db);
    AddedCallBound(db, call);
    ClaimedRecord(db.actions, db.governed, db.invocations, call, now);
    ClaimedSuccess(db.runs, db.governed, db.receipts, call.action, WithClaim(db.governed[call.action], call.id));
    OnlyNewClaim(db.governed, call.action, call.id);
  }

  lemma AddReadOnlyCallKeeps(db: Db, call: Invocation, now: int)
    requires Inv(db) && AddInvocation(db, call).Done? && !call.Consequential()
    requires CallBound(db.runs, db.actions, call.id, call) && call.startedAt == now
    ensures ClaimStep(db, AddInvocation(db, call).db, call, now)
  {
    EvolvesReflexive(db);
    AddedCallBound(db, call);
    ReadOnlyCall(db.governed, db.invocations, call);
  }

  lemma QuietThenClaim(a: Db, b: Db, c: Db, call: Invocation, now: int)
    requires Quiet(a, b) && ClaimStep(b, c, call, now)
    requires b.invocations == a.invocations
    ensures ClaimStep(a, c, call, now)
  {
    EvolvesTransitive(a, b, c);
  }

  lemma NewCallBound(db: Db, claimed: AgentRun, action: Action, call: Invocation)
    requires claimed.id in db.runs && db.runs[claimed.id] == claimed
    requires action.id in db.actions && db.actions[action.id] == action && action.run == claimed.id
    requires call
      == NewInvocation(call.id, claimed, action, call.tool, call.parents, call.registryRevision, call.startedAt)
    ensures CallBound(db.runs, db.actions, call.id, call)
  {
  }

  lemma DispatchKeeps(
    db: Db, run: AgentRun, action: Action, tool: ToolVersion, revision: nat, id: InvocationId, now: int)
    requires Inv(db) && run.id in db.runs && db.runs[run.id] == run && run.status == Running
    requires action.id in db.actions && db.actions[action.id] == action && action.run == run.id
    requires tool.kind == SendFixtureMessage ==>
      && action.id in db.governed
      && db.governed[action.id].intent.tool == tool
      && tool.risk != ReadOnly
    requires Dispatch(db, run, action, tool, revision, id, now).Claimed?
    ensures var result := Dispatch(db, run, action, tool, revision, id, now);
      ClaimStep(db, result.db, result.invocation, now) && result.invocation.id == id
  {
    var claimed := run.Evolve(run.status, run.pending);
    var db1 := PutRun(db, claimed);
    assert db.parents[run.id := db.parents[run.id]] == db.parents;
    MovesRunKeeps(db, db1, run.id);
    var call := NewInvocation(id, claimed, action, tool, ActiveParents(db, run.id).value, revision, now);
    NewCallBound(db1, claimed, action, call);
    var after := Dispatch(db, run, action, tool, revision, id, now).db;
    if tool.kind == SendFixtureMessage {
      AddGovernedCallKeeps(db1, call, now);
    } else {
      AddReadOnlyCallKeeps(db1, call, now);
    }
    QuietThenClaim(db, db1, after, call, now);
  }

  /** What an authorization leaves behind: at most one new record, bound to this call. */
  ghost predicate Authorized(db: Db, action: ActionId, result: Authorization) {
    && Quiet(db, result.db)
    && result.db == db.(governed := result.db.governed)
    && (result.Proceed? && result.tool.kind == SendFixtureMessage ==>
          && action in result.db.governed
          && result.db.governed[action].intent.tool == result.tool
          && result.tool.risk != ReadOnly)
  }

  lemma PreparedKeeps(db: Db, run: AgentRun, action: Action, entry: Registration, orgOk: bool, now: int)
    requires Inv(db) && run.id in db.runs && db.runs[run.id] == run && run.status == Running
    requires action.id in db.actions && db.actions[action.id] == action && action.run == run.id
    requires ValidInput(action.args, entry.version) && entry.version.kind == SendFixtureMessage
    ensures Authorized(db, action.id,
      Prepared(db, Prepare(db, run, action, entry.version, orgOk, now), action.id, entry, now))
  {
    if Prepare(db, run, action, entry.version, orgOk, now).Done? {
      PrepareKeeps(db, run, action, entry.version, orgOk, now);
      var prepared := Prepare(db, run, action, entry.version, orgOk, now).db;
      assert RecordBound(prepared.actions, action.id, prepared.governed[action.id]);
    } else {
      EvolvesReflexive(db);
    }
  }

  lemma AuthorizeKeeps(db: Db, run: AgentRun, action: Action, orgOk: bool, now: int)
    requires Inv(db) && run.id in db.runs && db.runs[run.id] == run && run.status == Running
    requires action.id in db.actions && db.actions[action.id] == action && action.run == run.id
    ensures Authorized(db, action.id, Authorize(db, run, action, orgOk, now))
  {
    var grant := FirstGrant(run.definition.allowedTools, action.tool);
    if && grant.Some? && grant.value in db.registry && db.registry[grant.value].enabled
       && ValidInput(action.args, db.registry[grant.value].version)
       && db.registry[grant.value].version.kind == SendFixtureMessage
    {
      PreparedKeeps(db, run, action, db.registry[grant.value], orgOk, now);
    } else {
      EvolvesReflexive(db);
    }
  }

  lemma ClaimAfterAuthorize(
    db: Db, db1: Db, run: AgentRun, action: Action, tool: ToolVersion, revision: nat, id: InvocationId, now: int)
    requires Quiet(db, db1) && db1 == db.(governed := db1.governed)
    requires run.id in db.runs && db.runs[run.id] == run && run.status == Running
    requires action.id in db.actions && db.actions[action.id] == action && action.run == run.id
    requires tool.kind == SendFixtureMessage ==>
      && action.id in db1.governed
      && db1.governed[action.id].intent.tool == tool
      && tool.risk != ReadOnly
    requires Dispatch(db1, run, action, tool, revision, id, now).Claimed?
    ensures var result := Dispatch(db1, run, action, tool, revision, id, now);
      ClaimStep(db, result.db, result.invocation, now) && result.invocation.id == id
  {
    DispatchKeeps(db1, run, action, tool, revision, id, now);
    var result := Dispatch(db1, run, action, tool, revision, id, now);
    QuietThenClaim(db, db1, result.db, result.invocation, now);
  }

  lemma RejectKeeps(db: Db, db1: Db, run: AgentRun, action: ActionId, code: ToolError)
    requires Quiet(db, db1) && db1 == db.(governed := db1.governed)
    requires run.id in db.runs && db.runs[run.id] == run && run.status == Running
    ensures Quiet(db, Observe(db1, run, action, None, Some(code)))
  {
    ObserveKeeps(db1, run, action, None, Some(code));
    QuietTransitive(db, db1, Observe(db1, run, action, None, Some(code)));
  }

  lemma WaitKeeps(db: Db, db1: Db, run: AgentRun)
    requires Quiet(db, db1) && db1 == db.(governed := db1.governed)
    requires run.id in db.runs && db.runs[run.id] == run && run.status == Running
    ensures run.id in db1.parents && Quiet(db, ApprovalWait(db1, run))
  {
    ApprovalWaitKeeps(db1, run);
    QuietTransitive(db, db1, ApprovalWait(db1, run));
  }

  lemma ProceedKeeps(
    db: Db, db1: Db, tool: ToolVersion, revision: nat, run: AgentRun, action: Action, id: InvocationId, now: int)
    requires Authorized(db, action.id, Proceed(db1, tool, revision))
    requires run.id in db.runs && db.runs[run.id] == run && run.status == Running
    requires action.id in db.actions && db.actions[action.id] == action && action.run == run.id
    ensures match Dispatch(db1, run, action, tool, revision, id, now)
      case Claimed(after, call) => ClaimStep(db, after, call, now) && call.id == id
      case Settled(_) => false
      case _ => true
  {
    if Dispatch(db1, run, action, tool, revision, id, now).Claimed? {
      ClaimAfterAuthorize(db, db1, run, action, tool, revision, id, now);
    }
  }

  lemma ProceededKeeps(db: Db, authorization: Authorization, run: AgentRun, action: Action, id: InvocationId, now: int)
    requires Authorized(db, action.id, authorization)
    requires run.id in db.runs && db.runs[run.id] == run && run.status == Running
    requires action.id in db.actions && db.actions[action.id] == action && action.run == run.id
    ensures match Proceeded(authorization, run, action, id, now)
      case Claimed(after, call) => ClaimStep(db, after, call, now) && call.id == id
      case Settled(after) => Quiet(db, after)
      case _ => true
  {
    match authorization
    case Reject(db', code) => RejectKeeps(db, db', run, action.id, code);
    case Wait(db') => WaitKeeps(db, db', run);
    case Proceed(db', tool, revision) =>
      ProceedKeeps(db, db', tool, revision, run, action, id, now);
  }

  lemma AuthorizeAndClaimKeeps(db: Db, run: AgentRun, action: Action, orgOk: bool, id: InvocationId, now: int)
    requires Inv(db) && run.id in db.runs && db.runs[run.id] == run && run.status == Running
    requires action.id in db.actions && db.actions[action.id] == action && action.run == run.id
    ensures match AuthorizeAndClaim(db, run, action, orgOk, id, now)
      case Claimed(after, call) => ClaimStep(db, after, call, now) && call.id == id
      case Settled(after) => Quiet(db, after)
      case _ => true
  {
    AuthorizeKeeps(db, run, action, orgOk, now);
    ProceededKeeps(db, Authorize(db, run, action, orgOk, now), run, action, id, now);
  }

  lemma GuardPassed(db: Db, runId: RunId, action: Action, expected: nat, now: int)
    requires RunsInv(db.runs, db.parents, db.actions)
    requires InvokeGuard(db, runId, action, expected, now).None?
    ensures runId in db.runs && db.runs[runId].id == runId && db.runs[runId].status == Running
    ensures action.id in db.actions && db.actions[action.id] == action && action.run == runId
  {
  }

  /** `invoke` either claims exactly one call, or settles quietly. */
  lemma InvokeKeeps(db: Db, runId: RunId, action: Action, expected: nat, orgOk: bool, id: InvocationId, now: int)
    requires Inv(db)
    ensures match Invoke(db, runId, action, expected, orgOk, id, now)
      case Claimed(after, call) => ClaimStep(db, after, call, now) && call.id == id
      case Settled(after) => Quiet(db, after)
      case _ => true
  {
    if InvokeGuard(db, runId, action, expected, now).None? {
      GuardPassed(db, runId, action, expected, now);
      AuthorizeAndClaimKeeps(db, db.runs[runId], action, orgOk, id, now);
    }
  }

  // ---------- Starting points ----------

  lemma EmptyInv()
    ensures Inv(EMPTY_DB)
  {
  }

  /** A restored copy changes only mode, holds and incident count. */
  lemma RestoredInv(snapshot: Db)
    requires Inv(snapshot)
    ensures Inv(Restored(snapshot))
  {
  }
}
