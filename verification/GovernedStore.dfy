/** The governed-write commands as they run: step by step on a store whose tables are
    reassigned in place, inside transactions that put every table back when a guard refuses.

    Each method is proved to do exactly what its command in `GovernedCommands` says, so
    everything proved about those commands holds of these methods.
  */
module GovernedStore {
  import opened Prelude
  import opened GovernedRecords
  import opened GovernedCommands
  import opened GovernedInvariants
  import opened GovernedWorld

  datatype CallResult =
    | NotStarted(rule: Rule)
    | AlreadyCalled
    | NoCall
    | Started(invocation: Invocation)

  /** The command's outcome is what the store now holds and what the caller is told. */
  ghost predicate Ran(outcome: Outcome, before: Db, refused: Option<Rule>, after: Db) {
    match outcome
    case Refused(rule) => refused == Some(rule) && after == before
    case Done(db) => refused == None && after == db
  }

  ghost predicate Invoked(outcome: InvokeResult, before: Db, result: CallResult, after: Db) {
    match outcome
    case InvokeRefused(rule) => result == NotStarted(rule) && after == before
    case Replayed => result == AlreadyCalled && after == before
    case Settled(db) => result == NoCall && after == db
    case Claimed(db, invocation) => result == Started(invocation) && after == db
  }

  class Store {
    var runs: map<RunId, AgentRun>
    var parents: map<RunId, Parents>
    var actions: map<ActionId, Action>
    var registry: map<Grant, Registration>
    var policy: Option<Policy>
    var governed: map<ActionId, GovernedAction>
    var invocations: map<InvocationId, Invocation>
    var receipts: map<ReceiptId, Receipt>
    var observations: seq<Observation>
    var mode: Mode
    var holds: set<ActionId>
    var incidents: nat

    function Contents(): (db: Db)
      reads this
    {
      Db(
        runs, parents, actions, registry, policy, governed, invocations, receipts, observations, mode, holds,
        incidents)
    }

    constructor ()
      ensures Contents() == EMPTY_DB
    {
      runs, parents, actions, registry := map[], map[], map[], map[];
      policy, governed, invocations, receipts := None, map[], map[], map[];
      observations, mode, holds, incidents := [], Normal, {}, 0;
    }

    /** Every table goes back to what the transaction found. */
    method Rollback(snapshot: Db)
      modifies this
      ensures Contents() == snapshot
    {
      runs, parents, actions, registry := snapshot.runs, snapshot.parents, snapshot.actions, snapshot.registry;
      policy, governed := snapshot.policy, snapshot.governed;
      invocations, receipts, observations := snapshot.invocations, snapshot.receipts, snapshot.observations;
      mode, holds, incidents := snapshot.mode, snapshot.holds, snapshot.incidents;
    }

    // ---------- Store primitives ----------

    method SaveGovernedAction(record: GovernedAction, expected: Option<nat>) returns (refused: Option<Rule>)
      modifies this`governed
      ensures Ran(SaveGoverned(old(Contents()), record, expected), old(Contents()), refused, Contents())
    {
      var intent := record.intent;
      if intent.run !in runs || intent.action !in actions {
        return Some(NotFound);
      }
      if actions[intent.action].run != intent.run {
        return Some(ToolActionBinding);
      }
      if !record.WellFormed() {
        return Some(GovernedActionSchema);
      }
      if intent.action !in governed {
        if || expected.Some? || record.version != 1 || record.decisions != [] || record.cancelled
           || record.invocation.Some? || record.consumed || |governed| >= 200
        {
          return Some(GovernedActionInitialState);
        }
      } else {
        var before := governed[intent.action];
        if expected != Some(before.version) {
          return Some(GovernedActionVersionConflict);
        }
        if || intent != before.intent
           || record.version != before.version + 1
           || !(before.decisions <= record.decisions)
           || |record.decisions| > |before.decisions| + 1
           || (before.cancelled && !record.cancelled)
           || (before.invocation.Some? && record.invocation != before.invocation)
           || (before.consumed && !record.consumed)
        {
          return Some(GovernedActionHistoryImmutable);
        }
      }
      governed := governed[intent.action := record];
      return None;
    }

    method AddToolInvocation(invocation: Invocation) returns (refused: Option<Rule>)
      modifies this`invocations
      ensures Ran(AddInvocation(old(Contents()), invocation), old(Contents()), refused, Contents())
    {
      if invocation.run !in runs || invocation.action !in actions {
        return Some(NotFound);
      }
      var run := runs[invocation.run];
      if || actions[invocation.action].run != run.id
         || invocation.runVersion != run.version
         || invocation.tool.grant !in run.definition.allowedTools
         || invocation.id in invocations
         || invocation.version != 1
         || invocation.status != InFlight
         || exists i :: i in invocations && invocations[i].action == invocation.action
      {
        return Some(InvocationBindingOrDuplicate);
      }
      invocations := invocations[invocation.id := invocation];
      return None;
    }

    method FinishToolInvocation(receipt: Receipt) returns (refused: Option<Rule>)
      modifies this`invocations, this`receipts
      ensures Ran(FinishInvocation(old(Contents()), receipt), old(Contents()), refused, Contents())
    {
      var invocation := receipt.invocation;
      if invocation.run !in runs || invocation.id !in invocations {
        return Some(NotFound);
      }
      if receipt.id in receipts || !receipt.WellFormed() || !invocation.FinishOf(invocations[invocation.id]) {
        return Some(ReceiptAppendOnly);
      }
      invocations := invocations[invocation.id := invocation];
      receipts := receipts[receipt.id := receipt];
      return None;
    }

    method SaveRun(run: AgentRun)
      modifies this`runs
      ensures Contents() == PutRun(old(Contents()), run)
    {
      runs := runs[run.id := run];
    }

    method ObserveResult(run: AgentRun, action: ActionId, receipt: Option<ReceiptId>, error: Option<ToolError>)
      modifies this`runs, this`observations
      ensures Contents() == Observe(old(Contents()), run, action, receipt, error)
    {
      observations := observations + [Observation(run.id, action, receipt, error)];
      SaveRun(run.Evolve(run.status, false));
    }

    method WaitForApproval(run: AgentRun)
      requires run.id in parents
      modifies this`runs, this`parents
      ensures Contents() == ApprovalWait(old(Contents()), run)
    {
      parents := parents[run.id := SetExecution(parents[run.id], ExecutionWaiting)];
      SaveRun(run.Evolve(Waiting, run.pending));
    }

    // ---------- Governance ----------

    method PrepareIntent(run: AgentRun, action: Action, tool: ToolVersion, orgOk: bool, now: int)
      returns (refused: Option<Rule>)
      requires action.args.FixtureMessage?
      modifies this`governed
      ensures Ran(Prepare(old(Contents()), run, action, tool, orgOk, now), old(Contents()), refused, Contents())
    {
      if action.id in governed {
        if !StillBound(Contents(), governed[action.id], run, action, tool, orgOk) {
          return Some(BindingOrPolicyChanged);
        }
        return None;
      }
      if policy.None? {
        return Some(PolicyMissing);
      }
      if !orgOk {
        return Some(OrganizationChanged);
      }
      var intent := NewIntent(run, action, tool, policy.value, now);
      if intent.expiresAt <= now {
        return Some(GovernedActionSchema);
      }
      refused := SaveGovernedAction(GovernedAction(intent, [], false, None, false, 1), None);
    }

    method DecideIntent(
      action: ActionId, digest: (RunId, ActionId, ToolVersion, Input), reviewer: ReviewerId, kind: DecisionKind,
      now: int)
      returns (refused: Option<Rule>)
      modifies this`governed
      ensures Ran(Decide(old(Contents()), action, digest, reviewer, kind, now), old(Contents()), refused, Contents())
    {
      if action !in governed {
        return Some(NotFound);
      }
      var record := governed[action];
      if policy.None? || reviewer !in policy.value.reviewers || reviewer !in record.intent.policy.reviewers {
        return Some(ReviewerNotAuthorized);
      }
      if || !record.HasRequest()
         || digest != record.intent.Digest()
         || record.intent.policy != policy.value
         || record.cancelled
         || record.invocation.Some?
         || now >= record.intent.expiresAt
         || kind == Expired
         || (kind == Revoked && !record.LastApproved())
         || (kind != Revoked && record.decisions != [])
      {
        return Some(DecisionNotAvailable);
      }
      var decision := Decision(kind, policy.value.version, Some(reviewer), now);
      var updated := record.(decisions := record.decisions + [decision], version := record.version + 1);
      refused := SaveGovernedAction(updated, Some(record.version));
    }

    method Cancel(action: ActionId) returns (refused: Option<Rule>)
      modifies this`governed
      ensures Ran(CancelIntent(old(Contents()), action), old(Contents()), refused, Contents())
    {
      if action !in governed {
        return Some(NotFound);
      }
      var record := governed[action];
      if record.cancelled || record.invocation.Some? {
        return Some(CancelledOrClaimed);
      }
      refused := SaveGovernedAction(record.(cancelled := true, version := record.version + 1), Some(record.version));
    }

    method ExpireIntent(action: ActionId, now: int) returns (refused: Option<Rule>)
      modifies this`governed
      ensures Ran(Expire(old(Contents()), action, now), old(Contents()), refused, Contents())
    {
      if action !in governed {
        return Some(NotFound);
      }
      var record := governed[action];
      if !record.ExpiryDue(now) {
        return None;
      }
      var decision := Decision(Expired, record.intent.policy.version, None, now);
      var updated := record.(decisions := record.decisions + [decision], version := record.version + 1);
      refused := SaveGovernedAction(updated, Some(record.version));
    }

    method Claim(action: ActionId, invocation: InvocationId, now: int) returns (refused: Option<Rule>)
      modifies this`governed
      ensures Ran(ClaimRecord(old(Contents()), action, invocation, now), old(Contents()), refused, Contents())
    {
      if action !in governed {
        return Some(NotFound);
      }
      var record := governed[action];
      if !record.Executable(now) {
        return Some(ApprovalNotExecutable);
      }
      var updated := record.(invocation := Some(invocation), version := record.version + 1);
      refused := SaveGovernedAction(updated, Some(record.version));
    }

    method Consumed(invocation: Invocation) returns (refused: Option<Rule>)
      modifies this`governed
      ensures Ran(Consume(old(Contents()), invocation), old(Contents()), refused, Contents())
    {
      if invocation.action !in governed {
        return None;
      }
      var record := governed[invocation.action];
      if record.invocation != Some(invocation.id) || !record.HasRequest() || record.consumed {
        return None;
      }
      refused := SaveGovernedAction(record.(consumed := true, version := record.version + 1), Some(record.version));
    }

    // ---------- Invoking a tool ----------

    /** Run version, invocation and governed record move together or not at all. */
    method DispatchCall(run: AgentRun, action: Action, tool: ToolVersion, revision: nat, id: InvocationId, now: int)
      returns (result: CallResult)
      modifies this
      ensures Invoked(Dispatch(old(Contents()), run, action, tool, revision, id, now), old(Contents()), result,
        Contents())
    {
      var snapshot := Contents();
      if BudgetSpent(snapshot, run, action.tool) {
        return NotStarted(ToolBudgetExceeded);
      }
      if tool.risk != ReadOnly {
        if mode != Normal {
          return NotStarted(ModeBlocksConsequentialDispatch);
        }
        if tool.kind == SendFixtureMessage && action.id in holds {
          return NotStarted(RestoredIntentRequiresNewWork);
        }
      }
      var versions := ActiveParents(snapshot, run.id);
      if versions.None? {
        return NotStarted(ParentsNotActive);
      }
      var claimed := run.Evolve(run.status, run.pending);
      SaveRun(claimed);
      var invocation := NewInvocation(id, claimed, action, tool, versions.value, revision, now);
      var refused := AddToolInvocation(invocation);
      if refused.None? && tool.kind == SendFixtureMessage {
        refused := Claim(action.id, id, now);
      }
      if refused.Some? {
        Rollback(snapshot);
        return NotStarted(refused.value);
      }
      return Started(invocation);
    }

    /** Everything of `invoke` that happens before the executor is entered. */
    method InvokeTool(runId: RunId, action: Action, expected: nat, orgOk: bool, id: InvocationId, now: int)
      returns (result: CallResult)
      modifies this
      ensures Invoked(Invoke(old(Contents()), runId, action, expected, orgOk, id, now), old(Contents()), result,
        Contents())
    {
      var snapshot := Contents();
      var guard := InvokeGuard(snapshot, runId, action, expected, now);
      if guard.Some? {
        result := if guard.value == Replayed then AlreadyCalled else NotStarted(guard.value.rule);
        return;
      }
      var run := runs[runId];
      var grant := FirstGrant(run.definition.allowedTools, action.tool);
      var rejection: Option<ToolError> := None;
      if grant.None? {
        rejection := Some(if Known(snapshot, action.tool) then Unauthorized else ToolNotFound);
      } else if grant.value !in registry {
        rejection := Some(ToolNotFound);
      } else if !registry[grant.value].enabled {
        rejection := Some(Unauthorized);
      } else if !ValidInput(action.args, registry[grant.value].version) {
        rejection := Some(ValidationError);
      } else if registry[grant.value].version.kind == SendFixtureMessage {
        var refused := PrepareIntent(run, action, registry[grant.value].version, orgOk, now);
        if refused.Some? || action.id !in governed {
          Rollback(snapshot);
          rejection := Some(Unauthorized);
        } else if governed[action.id].intent.effect == Deny {
          rejection := Some(Unauthorized);
        } else if !governed[action.id].Executable(now) {
          if run.id !in parents {
            Rollback(snapshot);
            return NotStarted(ParentsNotActive);
          }
          WaitForApproval(run);
          return NoCall;
        }
      } else if registry[grant.value].version.risk != ReadOnly {
        rejection := Some(Unauthorized);
      }
      if rejection.Some? {
        ObserveResult(run, action.id, None, rejection);
        return NoCall;
      }
      result := DispatchCall(run, action, registry[grant.value].version, registry[grant.value].revision, id, now);
      if result.NotStarted? {
        Rollback(snapshot);
      }
    }

    method Reopen(runId: RunId, action: ActionId, expected: nat, orgOk: bool, now: int) returns (refused: Option<Rule>)
      modifies this`runs, this`parents
      ensures Ran(ReopenForIntent(old(Contents()), runId, action, expected, orgOk, now), old(Contents()), refused,
        Contents())
    {
      if action !in governed || runId !in runs || runId !in parents || action !in actions {
        return Some(NotFound);
      }
      var record, run, above := governed[action], runs[runId], parents[runId];
      var grant := record.intent.tool.grant;
      if || record.intent.run != runId
         || grant !in registry
         || !registry[grant].enabled
         || !ValidInput(record.intent.request, registry[grant].version)
         || run.version != expected
         || run.status != Waiting
         || !run.pending
         || now >= run.deadline
         || !StillBound(Contents(), record, run, actions[action], registry[grant].version, orgOk)
         || !record.Executable(now)
         || !above.goalActive || !above.taskInProgress || !above.attemptRunning
         || above.execution != ExecutionWaiting
      {
        return Some(ApprovalRevalidationFailed);
      }
      parents := parents[runId := SetExecution(above, ExecutionRunning)];
      SaveRun(run.Evolve(Running, run.pending));
      return None;
    }

    /** Nothing was sent when a dispatch was refused, so the run waits again. */
    method WaitAgain(runId: RunId, action: ActionId, version: nat)
      requires action in governed && runId in runs
      modifies this`runs, this`parents
      ensures RestoreWait(old(Contents()), runId, action, version) == Done(Contents())
    {
      var run := runs[runId];
      if && governed[action].invocation.None? && run.version == version && run.status == Running && run.pending
         && run.id in parents && parents[run.id].execution == ExecutionRunning
      {
        WaitForApproval(run);
      }
    }

    method ResumeApproved(runId: RunId, action: ActionId, expected: nat, orgOk: bool, id: InvocationId, now: int)
      returns (result: CallResult)
      requires runId in runs ==> runs[runId].id == runId
      modifies this
      ensures var (outcome, after) := ResumeIntent(old(Contents()), runId, action, expected, orgOk, id, now);
        Contents() == after
        && match outcome
           case InvokeRefused(rule) => result == NotStarted(rule)
           case Replayed => result == AlreadyCalled
           case Settled(_) => result == NoCall
           case Claimed(_, invocation) => result == Started(invocation)
    {
      var refused := ExpireIntent(action, now);
      if refused.Some? {
        return NotStarted(refused.value);
      }
      refused := Reopen(runId, action, expected, orgOk, now);
      if refused.Some? {
        return NotStarted(refused.value);
      }
      var version := runs[runId].version;
      result := InvokeTool(runId, actions[action], version, orgOk, id, now);
      if result.NotStarted? {
        WaitAgain(runId, action, version);
      }
    }

    // ---------- Reconciling ----------

    method RecordOutcome(receipt: Receipt) returns (refused: Option<Rule>)
      modifies this
      ensures Ran(RecordReceipt(old(Contents()), receipt), old(Contents()), refused, Contents())
    {
      var snapshot := Contents();
      refused := FinishToolInvocation(receipt);
      if refused.None? {
        refused := Consumed(receipt.invocation);
        if refused.Some? {
          Rollback(snapshot);
        }
      }
    }

    method ReconcileLive(invocation: Invocation, reply: Reply, id: ReceiptId, now: int) returns (refused: Option<Rule>)
      modifies this
      ensures Ran(Reconcile(old(Contents()), invocation, reply, id, now), old(Contents()), refused, Contents())
    {
      if invocation.run !in runs {
        return Some(NotFound);
      }
      if !invocation.CanFinish(now) {
        return Some(ReceiptAppendOnly);
      }
      var run := runs[invocation.run];
      var terminal := run.Terminal();
      var stale := run.version != invocation.runVersion || ParentsOrRegistryMoved(Contents(), invocation);
      var error: Option<ToolError> := if reply.Failure? then Some(reply.error) else None;
      if terminal {
        error := Some(if run.status == Cancelled then CancelledCall else StaleResult);
      } else if stale {
        error := Some(StaleResult);
      } else if now >= run.deadline {
        error := Some(Timeout);
      }
      refused := RecordOutcome(ReceiptFor(id, invocation, reply, error, now));
      if refused.None? && !terminal && !stale {
        ObserveResult(run, invocation.action, Some(id), error);
      }
    }

    method ReconcileReceipt(id: ReceiptId, now: int) returns (refused: Option<Rule>)
      modifies this
      ensures Ran(Repair(old(Contents()), id, now), old(Contents()), refused, Contents())
    {
      if id !in receipts {
        return Some(RecoveryRequiresCanonicalReceipt);
      }
      var invocation := receipts[id].invocation;
      if invocation.run !in runs {
        return Some(NotFound);
      }
      refused := Consumed(invocation);
      if refused.Some? {
        return;
      }
      var run := runs[invocation.run];
      if run.status != Running || !run.pending || run.version != invocation.runVersion || now >= run.deadline {
        return;
      }
      if ParentsOrRegistryMoved(Contents(), invocation) {
        return;
      }
      ObserveResult(run, invocation.action, Some(id), invocation.error);
    }

    /** Searches the receipts one by one. */
    method FindReceipt(invocation: InvocationId) returns (found: Option<ReceiptId>)
      ensures found.Some? <==> HasReceipt(receipts, invocation)
      ensures found.Some? ==> found.value in receipts && receipts[found.value].invocation.id == invocation
    {
      var rest := receipts.Keys;
      while rest != {}
        invariant rest <= receipts.Keys
        invariant forall r | r in receipts && r !in rest :: receipts[r].invocation.id != invocation
        decreases |rest|
      {
        var r :| r in rest;
        if receipts[r].invocation.id == invocation {
          return Some(r);
        }
        rest := rest - {r};
      }
      return None;
    }

    /** The transaction that follows a status lookup. */
    method RecoverReceipt(seen: Invocation, lookup: RemoteLookup, outputOk: bool, id: ReceiptId, now: int)
      returns (refused: Option<Rule>)
      requires ReceiptsInv(invocations, receipts)
      modifies this
      ensures Ran(Recover(old(Contents()), seen, lookup, outputOk, id, now), old(Contents()), refused, Contents())
    {
      if seen.run !in runs || seen.id !in invocations {
        return Some(NotFound);
      }
      var existing := FindReceipt(seen.id);
      if existing.Some? {
        refused := ReconcileReceipt(existing.value, now);
        return;
      }
      if invocations[seen.id] != seen || seen.status != InFlight {
        return Some(RecoveryInvocationChanged);
      }
      if lookup.status == UnknownStatus || lookup.status == NeverReceived {
        return None;
      }
      if lookup.status == ProcessedSuccess && (!outputOk || lookup.output.None?) {
        return Some(MalformedLookup);
      }
      if !seen.CanFinish(now) {
        return Some(ReceiptAppendOnly);
      }
      if lookup.status == ProcessedFailure {
        refused := RecordOutcome(ReceiptFor(id, seen, Failure(Rejected), Some(Rejected), now));
      } else {
        refused := RecordOutcome(ReceiptFor(id, seen, Delivered(lookup.output.value), None, now));
      }
    }

    // ---------- Operational mode and restore ----------

    method RestrictMode(to: Mode) returns (refused: Option<Rule>)
      modifies this`mode
      ensures Ran(Restrict(old(Contents()), to), old(Contents()), refused, Contents())
    {
      if to == Normal || (mode == RestoreQuarantine && to != mode) {
        return Some(ReleaseNotSupported);
      }
      mode := to;
      return None;
    }

    /** Looks for an intent that no hold fences, as a release must find none. */
    method ReleaseQuarantine(authorized: bool, integrityOk: bool, classified: bool) returns (success: bool)
      modifies this`mode
      ensures Contents() == Release(old(Contents()), authorized, integrityOk, classified)
      ensures success == ReleaseSucceeds(old(Contents()), authorized, integrityOk, classified)
    {
      if !authorized || mode != RestoreQuarantine || incidents == 0 || !integrityOk {
        return false;
      }
      success := classified;
      var rest := governed.Keys;
      while rest != {}
        invariant rest <= governed.Keys
        invariant success <==> classified && (forall a | a in governed && a !in rest :: a in holds)
        invariant Contents() == old(Contents())
        decreases |rest|
      {
        var a :| a in rest;
        success := success && a in holds;
        rest := rest - {a};
      }
      if success {
        mode := Normal;
      }
    }

    /** The tail of a restore, run on the copied tables before the copy gets its name. */
    method Quarantine()
      modifies this`mode, this`holds, this`incidents
      ensures Contents() == Restored(old(Contents()))
    {
      incidents := incidents + 1;
      var rest := governed.Keys;
      while rest != {}
        invariant rest <= governed.Keys
        invariant holds == old(holds) + (governed.Keys - rest)
        invariant incidents == old(incidents) + 1 && mode == old(mode)
        decreases |rest|
      {
        var a :| a in rest;
        holds := holds + {a};
        rest := rest - {a};
      }
      mode := RestoreQuarantine;
    }
  }

  /** The recoverable fixture: an effects table keyed by idempotency key, and a call counter. */
  class RecoverableFixture {
    var effects: map<ExecutionKey, LedgerRow>
    var calls: nat
    var unknown: bool
    var reject: bool

    constructor (unknown: bool, reject: bool)
      ensures effects == map[] && calls == 0
      ensures this.unknown == unknown && this.reject == reject
    {
      effects, calls := map[], 0;
      this.unknown, this.reject := unknown, reject;
    }

    /** Every call is counted, but only the first request under a key has an effect. */
    method Dispatch(key: ExecutionKey, request: Input) returns (reply: Reply)
      modifies this`effects, this`calls
      ensures calls == old(calls) + 1
      ensures effects == LedgerAfter(old(effects), key, request, reject)
      ensures key in effects && reply == DispatchReply(effects[key], request)
      ensures key in old(effects) ==> effects == old(effects)
    {
      calls := calls + 1;
      if key !in effects {
        effects := effects[key := RowFor(request, reject)];
      } else if effects[key].payload != request {
        return Failure(InternalExecutorError);
      }
      var row := effects[key];
      if row.status == ProcessedSuccess && row.output.Some? {
        return Delivered(row.output.value);
      }
      return Failure(Rejected);
    }

    method Lookup(key: ExecutionKey) returns (found: RemoteLookup)
      ensures found == LookupStatus(effects, key, unknown)
      ensures unknown ==> found.status == UnknownStatus
      ensures !unknown ==> (found.status == NeverReceived <==> key !in effects || effects[key].status == NeverReceived)
    {
      if unknown {
        return RemoteLookup(UnknownStatus, None);
      }
      if key in effects {
        return RemoteLookup(effects[key].status, effects[key].output);
      }
      return RemoteLookup(NeverReceived, None);
    }
  }
}
