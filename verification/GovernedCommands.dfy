/** The database of one workspace and every command on it, as values.

    A command is one transaction: it reads the database, refuses with a rule or
    returns the database it commits. `GovernedStore` runs the same commands step by
    step on mutable state and is proved against these definitions.
  */
module GovernedCommands {
  import opened Prelude
  import opened GovernedRecords

  datatype Db = Db(
    runs: map<RunId, AgentRun>,
    parents: map<RunId, Parents>,
    actions: map<ActionId, Action>,
    registry: map<Grant, Registration>,
    policy: Option<Policy>,
    governed: map<ActionId, GovernedAction>,
    invocations: map<InvocationId, Invocation>,
    receipts: map<ReceiptId, Receipt>,
    observations: seq<Observation>,
    mode: Mode,
    holds: set<ActionId>,
    incidents: nat)

  const EMPTY_DB := Db(map[], map[], map[], map[], None, map[], map[], map[], [], Normal, {}, 0)

  datatype Outcome =
    | Refused(rule: Rule)
    | Done(db: Db)

  // ---------- Store primitives ----------

  /** `save_governed_action`: the guards that make a record's history monotone. */
  function SaveGoverned(db: Db, record: GovernedAction, expected: Option<nat>): Outcome {
    var intent := record.intent;
    if intent.run !in db.runs || intent.action !in db.actions then Refused(NotFound)
    else if db.actions[intent.action].run != intent.run then Refused(ToolActionBinding)
    else if !record.WellFormed() then Refused(GovernedActionSchema)
    else if intent.action !in db.governed then
      if || expected.Some?
         || record.version != 1
         || record.decisions != []
         || record.cancelled
         || record.invocation.Some?
         || record.consumed
         || |db.governed| >= 200
      then Refused(GovernedActionInitialState)
      else Done(db.(governed := db.governed[intent.action := record]))
    else
      var before := db.governed[intent.action];
      if expected != Some(before.version) then Refused(GovernedActionVersionConflict)
      else if
        || intent != before.intent
        || record.version != before.version + 1
        || !(before.decisions <= record.decisions)
        || |record.decisions| > |before.decisions| + 1
        || (before.cancelled && !record.cancelled)
        || (before.invocation.Some? && record.invocation != before.invocation)
        || (before.consumed && !record.consumed)
      then Refused(GovernedActionHistoryImmutable)
      else Done(db.(governed := db.governed[intent.action := record]))
  }

  predicate ActionInvoked(db: Db, action: ActionId) {
    exists i :: i in db.invocations && db.invocations[i].action == action
  }

  /** `add_tool_invocation`: one invocation per action, bound to the claiming run version. */
  function AddInvocation(db: Db, invocation: Invocation): Outcome {
    if invocation.run !in db.runs || invocation.action !in db.actions then Refused(NotFound)
    else
      var run := db.runs[invocation.run];
      if || db.actions[invocation.action].run != run.id
         || invocation.runVersion != run.version
         || invocation.tool.grant !in run.definition.allowedTools
         || invocation.id in db.invocations
         || invocation.version != 1
         || invocation.status != InFlight
         || ActionInvoked(db, invocation.action)
      then Refused(InvocationBindingOrDuplicate)
      else Done(db.(invocations := db.invocations[invocation.id := invocation]))
  }

  /** `finish_tool_invocation`: a receipt is appended only for a call still in flight. */
  function FinishInvocation(db: Db, receipt: Receipt): Outcome {
    var invocation := receipt.invocation;
    if invocation.run !in db.runs || invocation.id !in db.invocations then Refused(NotFound)
    else if
      || receipt.id in db.receipts
      || !receipt.WellFormed()
      || !invocation.FinishOf(db.invocations[invocation.id])
    then Refused(ReceiptAppendOnly)
    else Done(db.(
      invocations := db.invocations[invocation.id := invocation],
      receipts := db.receipts[receipt.id := receipt]))
  }

  function PutRun(db: Db, run: AgentRun): Db { db.(runs := db.runs[run.id := run]) }

  function ActiveParents(db: Db, run: RunId): Option<(nat, nat, nat, nat)> {
    if run in db.parents && db.parents[run].Active() then Some(db.parents[run].Versions()) else None
  }

  /** `_observe`: append the observation and move the run on by one version. */
  function Observe(db: Db, run: AgentRun, action: ActionId, receipt: Option<ReceiptId>, error: Option<ToolError>): Db {
    PutRun(
      db.(observations := db.observations + [Observation(run.id, action, receipt, error)]),
      run.Evolve(run.status, false))
  }

  function SetExecution(parents: Parents, state: ExecutionState): Parents {
    parents.(execution := state, executionVersion := parents.executionVersion + 1)
  }

  /** `_approval_wait`: execution and run wait together. */
  function ApprovalWait(db: Db, run: AgentRun): Db
    requires run.id in db.parents
  {
    PutRun(
      db.(parents := db.parents[run.id := SetExecution(db.parents[run.id], ExecutionWaiting)]),
      run.Evolve(Waiting, run.pending))
  }

  // ---------- Governance ----------

  /** `validate`: the stored intent still describes exactly this call under this policy. */
  predicate StillBound(db: Db, record: GovernedAction, run: AgentRun, action: Action, tool: ToolVersion, orgOk: bool) {
    var intent := record.intent;
    && intent.run == run.id
    && intent.action == action.id
    && intent.tool == tool
    && intent.request == action.args
    && action.args.FixtureMessage?
    && db.policy == Some(intent.policy)
    && tool.grant in run.definition.allowedTools
    && run.definition.enabled
    && intent.effect == intent.policy.Evaluate(run.definition.autonomy, tool, action.args.destination)
    && orgOk
  }

  function Min(a: int, b: int): int { if a <= b then a else b }

  function NewIntent(run: AgentRun, action: Action, tool: ToolVersion, policy: Policy, now: int): Intent
    requires action.args.FixtureMessage?
  {
    Intent(
      action.id, run.id, tool, action.args, policy,
      policy.Evaluate(run.definition.autonomy, tool, action.args.destination),
      now, Min(run.deadline, now + policy.expirySeconds))
  }

  /** `prepare`: reuse the action's record when it still binds, else store a new one. */
  function Prepare(db: Db, run: AgentRun, action: Action, tool: ToolVersion, orgOk: bool, now: int): Outcome
    requires action.args.FixtureMessage?
  {
    if action.id in db.governed then
      if StillBound(db, db.governed[action.id], run, action, tool, orgOk) then Done(db)
      else Refused(BindingOrPolicyChanged)
    else if db.policy.None? then Refused(PolicyMissing)
    else if !orgOk then Refused(OrganizationChanged)
    else
      var intent := NewIntent(run, action, tool, db.policy.value, now);
      if intent.expiresAt <= now then Refused(GovernedActionSchema)
      else SaveGoverned(db, GovernedAction(intent, [], false, None, false, 1), None)
  }

  function Decide(
    db: Db, action: ActionId, digest: (RunId, ActionId, ToolVersion, Input), reviewer: ReviewerId,
    kind: DecisionKind, now: int): Outcome
  {
    if action !in db.governed then Refused(NotFound)
    else
      var record := db.governed[action];
      if || db.policy.None?
         || reviewer !in db.policy.value.reviewers
         || reviewer !in record.intent.policy.reviewers
      then Refused(ReviewerNotAuthorized)
      else if
        || !record.HasRequest()
        || digest != record.intent.Digest()
        || record.intent.policy != db.policy.value
        || record.cancelled
        || record.invocation.Some?
        || now >= record.intent.expiresAt
        || kind == Expired
        || (kind == Revoked && !record.LastApproved())
        || (kind != Revoked && record.decisions != [])
      then Refused(DecisionNotAvailable)
      else
        var decision := Decision(kind, db.policy.value.version, Some(reviewer), now);
        SaveGoverned(
          db,
          record.(decisions := record.decisions + [decision], version := record.version + 1),
          Some(record.version))
  }

  function CancelIntent(db: Db, action: ActionId): Outcome {
    if action !in db.governed then Refused(NotFound)
    else
      var record := db.governed[action];
      if record.cancelled || record.invocation.Some? then Refused(CancelledOrClaimed)
      else SaveGoverned(db, record.(cancelled := true, version := record.version + 1), Some(record.version))
  }

  /** `expire`: records an expiry only while one is due; otherwise the record is returned as it is. */
  function Expire(db: Db, action: ActionId, now: int): Outcome {
    if action !in db.governed then Refused(NotFound)
    else
      var record := db.governed[action];
      if record.ExpiryDue(now) then
        var decision := Decision(Expired, record.intent.policy.version, None, now);
        SaveGoverned(
          db,
          record.(decisions := record.decisions + [decision], version := record.version + 1),
          Some(record.version))
      else Done(db)
  }

  function ClaimRecord(db: Db, action: ActionId, invocation: InvocationId, now: int): Outcome {
    if action !in db.governed then Refused(NotFound)
    else
      var record := db.governed[action];
      if !record.Executable(now) then Refused(ApprovalNotExecutable)
      else SaveGoverned(
        db, record.(invocation := Some(invocation), version := record.version + 1), Some(record.version))
  }

  /** `consumed`: the approval behind a finished call is used up once. */
  function Consume(db: Db, invocation: Invocation): Outcome {
    if invocation.action !in db.governed then Done(db)
    else
      var record := db.governed[invocation.action];
      if record.invocation == Some(invocation.id) && record.HasRequest() && !record.consumed then
        SaveGoverned(db, record.(consumed := true, version := record.version + 1), Some(record.version))
      else Done(db)
  }

  function PublishPolicy(db: Db, policy: Policy): Outcome {
    if policy.version != (if db.policy.Some? then db.policy.value.version + 1 else 1)
    then Refused(PolicyVersionSequence)
    else Done(db.(policy := Some(policy)))
  }

  // ---------- Invoking a tool ----------

  datatype InvokeResult =
    | InvokeRefused(rule: Rule)
    | Replayed
    | Settled(db: Db)
    | Claimed(db: Db, invocation: Invocation)

  datatype Authorization =
    | Reject(db: Db, code: ToolError)
    | Wait(db: Db)
    | Proceed(db: Db, tool: ToolVersion, revision: nat)

  function FirstGrant(allowed: seq<Grant>, tool: nat): Option<Grant> {
    if allowed == [] then None
    else if allowed[0].tool == tool then Some(allowed[0])
    else FirstGrant(allowed[1..], tool)
  }

  predicate Known(db: Db, tool: nat) { exists g :: g in db.registry && g.tool == tool }

  function RunInvocations(db: Db, run: RunId): set<InvocationId> {
    set i | i in db.invocations && db.invocations[i].run == run
  }

  function ToolInvocations(db: Db, run: RunId, tool: nat): set<InvocationId> {
    set i | i in db.invocations && db.invocations[i].run == run && db.invocations[i].tool.grant.tool == tool
  }

  predicate BudgetSpent(db: Db, run: AgentRun, tool: nat) {
    || |RunInvocations(db, run.id)| >= run.maxToolCalls
    || |ToolInvocations(db, run.id, tool)| >= run.maxCallsPerTool
  }

  /** The run's calls for this action; there is at most one. */
  function PriorCalls(db: Db, run: RunId, action: ActionId): set<InvocationId> {
    set i | i in db.invocations && db.invocations[i].run == run && db.invocations[i].action == action
  }

  /** The checks before authorization; `None` means the call may be authorized. */
  function InvokeGuard(db: Db, runId: RunId, action: Action, expected: nat, now: int): Option<InvokeResult> {
    if runId !in db.runs then Some(InvokeRefused(NotFound))
    else
      var run := db.runs[runId];
      if action.run != runId || action.id !in db.actions || db.actions[action.id] != action
      then Some(InvokeRefused(ToolActionBinding))
      else if !run.definition.mayCallTools then Some(InvokeRefused(UnauthorizedAction))
      else if exists i :: i in PriorCalls(db, runId, action.id) && db.invocations[i].Consequential()
      then Some(InvokeRefused(ConsequentialActionReplay))
      else if exists i :: i in PriorCalls(db, runId, action.id) && db.invocations[i].status == InFlight
      then Some(InvokeRefused(ToolInvocationInProgress))
      else if PriorCalls(db, runId, action.id) != {} then Some(Replayed)
      else if run.version != expected then Some(InvokeRefused(VersionConflict))
      else if run.status != Running || !run.pending then Some(InvokeRefused(RequiresClaimedRunningIteration))
      else if action.iteration != run.iteration then Some(InvokeRefused(ToolActionIteration))
      else if ActiveParents(db, runId).None? then Some(InvokeRefused(ParentsNotActive))
      else if now >= run.deadline then Some(InvokeRefused(DeadlineExceeded))
      else None
  }

  /** A prepared intent is denied, waits, or may be claimed now. */
  function Prepared(db: Db, outcome: Outcome, action: ActionId, entry: Registration, now: int): Authorization {
    match outcome
    case Refused(_) => Reject(db, Unauthorized)
    case Done(db') =>
      if action !in db'.governed then Reject(db, Unauthorized)
      else
        var record := db'.governed[action];
        if record.intent.effect == Deny then Reject(db', Unauthorized)
        else if !record.Executable(now) then Wait(db')
        else Proceed(db', entry.version, entry.revision)
  }

  /** Grant, registry, input schema and approval, in the order the claim checks them. */
  function Authorize(db: Db, run: AgentRun, action: Action, orgOk: bool, now: int): Authorization {
    var grant := FirstGrant(run.definition.allowedTools, action.tool);
    if grant.None? then Reject(db, if Known(db, action.tool) then Unauthorized else ToolNotFound)
    else if grant.value !in db.registry then Reject(db, ToolNotFound)
    else
      var entry := db.registry[grant.value];
      if !entry.enabled then Reject(db, Unauthorized)
      else if !ValidInput(action.args, entry.version) then Reject(db, ValidationError)
      else if entry.version.kind == SendFixtureMessage then
        Prepared(db, Prepare(db, run, action, entry.version, orgOk, now), action.id, entry, now)
      else if entry.version.risk != ReadOnly then Reject(db, Unauthorized)
      else Proceed(db, entry.version, entry.revision)
  }

  predicate MayDispatch(db: Db, action: ActionId) { db.mode == Normal && action !in db.holds }

  function NewInvocation(
    id: InvocationId, claimed: AgentRun, action: Action, tool: ToolVersion,
    parents: (nat, nat, nat, nat), revision: nat, now: int): Invocation
  {
    Invocation(
      id, claimed.id, action.id, tool, action.args, claimed.version, parents, revision, now, 1, InFlight, None, None)
  }

  /** The claim proper: run version, invocation and governed record move in one transaction. */
  function Dispatch(db: Db, run: AgentRun, action: Action, tool: ToolVersion, revision: nat, id: InvocationId, now: int)
    : InvokeResult
  {
    if BudgetSpent(db, run, action.tool) then InvokeRefused(ToolBudgetExceeded)
    else if tool.risk != ReadOnly && db.mode != Normal then InvokeRefused(ModeBlocksConsequentialDispatch)
    else if tool.risk != ReadOnly && tool.kind == SendFixtureMessage && action.id in db.holds
    then InvokeRefused(RestoredIntentRequiresNewWork)
    else if ActiveParents(db, run.id).None? then InvokeRefused(ParentsNotActive)
    else
      var claimed := run.Evolve(run.status, run.pending);
      var invocation := NewInvocation(id, claimed, action, tool, ActiveParents(db, run.id).value, revision, now);
      match AddInvocation(PutRun(db, claimed), invocation)
      case Refused(rule) => InvokeRefused(rule)
      case Done(db1) =>
        if tool.kind == SendFixtureMessage then
          match ClaimRecord(db1, action.id, id, now)
          case Refused(rule) => InvokeRefused(rule)
          case Done(db2) => Claimed(db2, invocation)
        else Claimed(db1, invocation)
  }

  /** What follows the guard: reject and observe, wait for approval, or claim. */
  function AuthorizeAndClaim(db: Db, run: AgentRun, action: Action, orgOk: bool, id: InvocationId, now: int)
    : InvokeResult
  {
    Proceeded(Authorize(db, run, action, orgOk, now), run, action, id, now)
  }

  function Proceeded(authorization: Authorization, run: AgentRun, action: Action, id: InvocationId, now: int)
    : InvokeResult
  {
    match authorization
    case Reject(db', code) => Settled(Observe(db', run, action.id, None, Some(code)))
    case Wait(db') =>
      if run.id in db'.parents then Settled(ApprovalWait(db', run)) else InvokeRefused(ParentsNotActive)
    case Proceed(db', tool, revision) => Dispatch(db', run, action, tool, revision, id, now)
  }

  /** The first transaction of `invoke`; only `Claimed` may enter an executor afterwards. */
  function Invoke(db: Db, runId: RunId, action: Action, expected: nat, orgOk: bool, id: InvocationId, now: int)
    : InvokeResult
  {
    match InvokeGuard(db, runId, action, expected, now)
    case Some(result) => result
    case None => AuthorizeAndClaim(db, db.runs[runId], action, orgOk, id, now)
  }

  // ---------- Reconciling ----------

  datatype Reply =
    | Delivered(output: Output)
    | Failure(error: ToolError)

  predicate ParentsOrRegistryMoved(db: Db, invocation: Invocation) {
    || ActiveParents(db, invocation.run) != Some(invocation.parents)
    || invocation.tool.grant !in db.registry
    || !db.registry[invocation.tool.grant].enabled
    || db.registry[invocation.tool.grant].revision != invocation.registryRevision
  }

  /** Whether the executor's result may still change the run it was claimed for. */
  predicate Stale(db: Db, run: AgentRun, invocation: Invocation) {
    run.version != invocation.runVersion || ParentsOrRegistryMoved(db, invocation)
  }

  /** The error the receipt records, after the run's own state has overridden the reply. */
  function SettledError(db: Db, run: AgentRun, invocation: Invocation, reply: Reply, now: int): Option<ToolError> {
    if run.Terminal() then Some(if run.status == Cancelled then CancelledCall else StaleResult)
    else if Stale(db, run, invocation) then Some(StaleResult)
    else if now >= run.deadline then Some(Timeout)
    else match reply
      case Delivered(_) => None
      case Failure(e) => Some(e)
  }

  function OutcomeOf(error: Option<ToolError>): RemoteOutcome {
    if error.None? then Observed else if error.value == Rejected then ObservedFailure else Unknown
  }

  function ReceiptFor(id: ReceiptId, invocation: Invocation, reply: Reply, error: Option<ToolError>, now: int)
    : Receipt
  {
    Receipt(
      id,
      invocation.Finish(now, error),
      if error.None? && reply.Delivered? then Some(reply.output) else None,
      OutcomeOf(error))
  }

  /** A receipt is committed together with the consumption of its approval. */
  function RecordReceipt(db: Db, receipt: Receipt): Outcome {
    match FinishInvocation(db, receipt)
    case Refused(rule) => Refused(rule)
    case Done(db1) => Consume(db1, receipt.invocation)
  }

  /** `_reconcile` by the live caller, with the invocation object it claimed. */
  function Reconcile(db: Db, invocation: Invocation, reply: Reply, id: ReceiptId, now: int): Outcome {
    if invocation.run !in db.runs then Refused(NotFound)
    else if !invocation.CanFinish(now) then Refused(ReceiptAppendOnly)
    else
      var run := db.runs[invocation.run];
      var error := SettledError(db, run, invocation, reply, now);
      match RecordReceipt(db, ReceiptFor(id, invocation, reply, error, now))
      case Refused(rule) => Refused(rule)
      case Done(db1) =>
        if run.Terminal() || Stale(db, run, invocation) then Done(db1)
        else Done(Observe(db1, run, invocation.action, Some(id), error))
  }

  /** Whether an already durable receipt may still be applied to its run. */
  predicate Applicable(db: Db, invocation: Invocation, now: int) {
    && invocation.run in db.runs
    && db.runs[invocation.run].status == Running
    && db.runs[invocation.run].pending
    && now < db.runs[invocation.run].deadline
    && !Stale(db, db.runs[invocation.run], invocation)
  }

  /** `reconcile_receipt`: local repair from durable evidence; nothing is dispatched. */
  function Repair(db: Db, receipt: ReceiptId, now: int): Outcome {
    if receipt !in db.receipts then Refused(RecoveryRequiresCanonicalReceipt)
    else
      var invocation := db.receipts[receipt].invocation;
      if invocation.run !in db.runs then Refused(NotFound)
      else
        match Consume(db, invocation)
        case Refused(rule) => Refused(rule)
        case Done(db1) =>
          if !Applicable(db1, invocation, now) then Done(db1)
          else Done(Observe(db1, db1.runs[invocation.run], invocation.action, Some(receipt), invocation.error))
  }

  predicate HasReceipt(receipts: map<ReceiptId, Receipt>, invocation: InvocationId) {
    exists r :: r in receipts && receipts[r].invocation.id == invocation
  }

  ghost function ReceiptOf(db: Db, invocation: InvocationId): ReceiptId
    requires HasReceipt(db.receipts, invocation)
  {
    var r :| r in db.receipts && db.receipts[r].invocation.id == invocation; r
  }

  /** The transaction after a status lookup. `outputOk` says the looked-up text validates. */
  ghost function Recover(db: Db, seen: Invocation, lookup: RemoteLookup, outputOk: bool, id: ReceiptId, now: int)
    : Outcome
  {
    if seen.run !in db.runs || seen.id !in db.invocations then Refused(NotFound)
    else if HasReceipt(db.receipts, seen.id) then Repair(db, ReceiptOf(db, seen.id), now)
    else if db.invocations[seen.id] != seen || seen.status != InFlight then Refused(RecoveryInvocationChanged)
    else match lookup.status
      case UnknownStatus => Done(db)
      case NeverReceived => Done(db)
      case ProcessedFailure => RecordRecovery(db, seen, Failure(Rejected), id, now)
      case ProcessedSuccess =>
        if !outputOk || lookup.output.None? then Refused(MalformedLookup)
        else RecordRecovery(db, seen, Delivered(lookup.output.value), id, now)
  }

  function RecordRecovery(db: Db, seen: Invocation, evidence: Reply, id: ReceiptId, now: int): Outcome {
    if !seen.CanFinish(now) then Refused(ReceiptAppendOnly)
    else
      var error := if evidence.Delivered? then None else Some(evidence.error);
      RecordReceipt(db, ReceiptFor(id, seen, evidence, error, now))
  }

  // ---------- The run loop ----------

  function AddRun(db: Db, run: AgentRun, parents: Parents): Outcome {
    if run.id in db.runs || run.id in db.parents then Refused(IdentityInUse)
    else if run.version != 1 || run.status != Running || run.pending || !parents.Active() then Refused(RunNotAvailable)
    else Done(PutRun(db.(parents := db.parents[run.id := parents]), run))
  }

  /** `drive` claims an iteration before it calls the model. */
  function BeginIteration(db: Db, runId: RunId, now: int): Outcome {
    if runId !in db.runs then Refused(NotFound)
    else
      var run := db.runs[runId];
      if run.status != Running || run.pending || run.iteration >= run.maxIterations then Refused(RunNotAvailable)
      else if ActiveParents(db, runId).None? then Refused(ParentsNotActive)
      else if now >= run.deadline then Refused(DeadlineExceeded)
      else Done(PutRun(db, run.Evolve(Running, true).(iteration := run.iteration + 1)))
  }

  /** The transaction that commits an action before its intent can exist. */
  function AppendAction(db: Db, action: Action, expected: nat, now: int): Outcome {
    if action.run !in db.runs then Refused(NotFound)
    else
      var run := db.runs[action.run];
      if run.version != expected then Refused(VersionConflict)
      else if now >= run.deadline then Refused(DeadlineExceeded)
      else if ActiveParents(db, run.id).None? then Refused(ParentsNotActive)
      else if !run.definition.mayCallTools then Refused(UnauthorizedAction)
      else if action.iteration != run.iteration then Refused(ToolActionIteration)
      else if action.id in db.actions then Refused(IdentityInUse)
      else Done(db.(actions := db.actions[action.id := action]))
  }

  /** Every governed action of the run has a claimed invocation whose receipt carries an output. */
  predicate ConsequencesResolved(
    governed: map<ActionId, GovernedAction>, receipts: map<ReceiptId, Receipt>, run: RunId)
  {
    forall a | a in governed && governed[a].intent.run == run ::
      governed[a].invocation.Some? && SuccessfulCall(receipts, governed[a].invocation.value)
  }

  predicate SuccessfulCall(receipts: map<ReceiptId, Receipt>, invocation: InvocationId) {
    exists r :: r in receipts && receipts[r].invocation.id == invocation && receipts[r].output.Some?
  }

  datatype Answer =
    | Respond
    | Complete(executionDone: bool)
    | AskForContext

  /** The completion branch of `drive` for an answer that is not a tool call. */
  function AcceptAnswer(db: Db, runId: RunId, expected: nat, answer: Answer, now: int): Outcome {
    if runId !in db.runs || runId !in db.parents then Refused(NotFound)
    else
      var run := db.runs[runId];
      var parents := db.parents[runId];
      if run.version != expected then Refused(VersionConflict)
      else if run.status != Running || !run.pending then Refused(RunNotAvailable)
      else if now >= run.deadline then Refused(DeadlineExceeded)
      else if !parents.Active() then Refused(ParentsNotActive)
      else match answer
        case Respond => Done(PutRun(db, run.Evolve(Running, false)))
        case Complete(executionDone) =>
          if !ConsequencesResolved(db.governed, db.receipts, runId) then Refused(ConsequentialActionUnresolved)
          else
            var settled := parents.(
              attemptRunning := false, attemptVersion := parents.attemptVersion + 1,
              taskInProgress := false, taskVersion := parents.taskVersion + 1);
            var closed := if executionDone then SetExecution(settled, ExecutionOther) else settled;
            Done(PutRun(db.(parents := db.parents[runId := closed]), run.Evolve(Succeeded, false)))
        case AskForContext =>
          Done(PutRun(
            db.(parents := db.parents[runId := SetExecution(parents, ExecutionWaiting)]),
            run.Evolve(Waiting, false)))
  }

  /** `_failure` and `cancel`: end the run and settle what is still open above it. */
  function EndRun(db: Db, runId: RunId, cancelled: bool): Outcome {
    if runId !in db.runs || runId !in db.parents then Refused(NotFound)
    else
      var run := db.runs[runId];
      var parents := db.parents[runId];
      if run.Terminal() then Done(db)
      else
        var afterAttempt :=
          if parents.attemptRunning
          then parents.(attemptRunning := false, attemptVersion := parents.attemptVersion + 1) else parents;
        var afterTask :=
          if parents.taskInProgress
          then afterAttempt.(taskInProgress := false, taskVersion := parents.taskVersion + 1) else afterAttempt;
        var settled :=
          if parents.execution != ExecutionOther then SetExecution(afterTask, ExecutionOther) else afterTask;
        Done(PutRun(
          db.(parents := db.parents[runId := settled]),
          run.Evolve(if cancelled then Cancelled else Failed, false)))
  }

  /** `resume`: a run waiting for context continues; one waiting for approval does not. */
  function ResumeContext(db: Db, runId: RunId, expected: nat, now: int): Outcome {
    if runId !in db.runs || runId !in db.parents then Refused(NotFound)
    else
      var run := db.runs[runId];
      var parents := db.parents[runId];
      if run.version != expected then Refused(VersionConflict)
      else if run.status != Waiting || run.pending then Refused(RunNotAvailable)
      else if now >= run.deadline then EndRun(db, runId, false)
      else if !parents.(execution := ExecutionRunning).Active() || parents.execution != ExecutionWaiting
      then Refused(ParentsNotActive)
      else Done(PutRun(
        db.(parents := db.parents[runId := SetExecution(parents, ExecutionRunning)]),
        run.Evolve(Running, false)))
  }

  /** The first transaction of `resume_intent`: only an executable, still bound intent reopens its run. */
  function ReopenForIntent(db: Db, runId: RunId, action: ActionId, expected: nat, orgOk: bool, now: int): Outcome {
    if action !in db.governed || runId !in db.runs || runId !in db.parents || action !in db.actions
    then Refused(NotFound)
    else
      var record := db.governed[action];
      var run := db.runs[runId];
      var parents := db.parents[runId];
      var grant := record.intent.tool.grant;
      if || record.intent.run != runId
         || grant !in db.registry
         || !db.registry[grant].enabled
         || !ValidInput(record.intent.request, db.registry[grant].version)
         || run.version != expected
         || run.status != Waiting
         || !run.pending
         || now >= run.deadline
         || !StillBound(db, record, run, db.actions[action], db.registry[grant].version, orgOk)
         || !record.Executable(now)
         || !parents.(execution := ExecutionRunning).Active()
         || parents.execution != ExecutionWaiting
      then Refused(ApprovalRevalidationFailed)
      else Done(PutRun(
        db.(parents := db.parents[runId := SetExecution(parents, ExecutionRunning)]),
        run.Evolve(Running, run.pending)))
  }

  /** The last transaction of `resume_intent`: a dispatch that never claimed goes back to waiting. */
  function RestoreWait(db: Db, runId: RunId, action: ActionId, version: nat): Outcome {
    if action !in db.governed || runId !in db.runs then Refused(NotFound)
    else
      var run := db.runs[runId];
      if && db.governed[action].invocation.None?
         && run.version == version
         && run.status == Running
         && run.pending
         && run.id in db.parents
         && db.parents[run.id].execution == ExecutionRunning
      then Done(ApprovalWait(db, run))
      else Done(db)
  }

  /** `resume_intent` when nothing else runs between its transactions: record a due expiry, reopen the
      run, invoke, and go back to waiting when the dispatch was refused. */
  function ResumeIntent(
    db: Db, runId: RunId, action: ActionId, expected: nat, orgOk: bool, id: InvocationId, now: int): (InvokeResult, Db)
  {
    match Expire(db, action, now)
    case Refused(rule) => (InvokeRefused(rule), db)
    case Done(db0) =>
      match ReopenForIntent(db0, runId, action, expected, orgOk, now)
      case Refused(rule) => (InvokeRefused(rule), db0)
      case Done(db1) =>
        var version := db1.runs[runId].version;
        var result := Invoke(db1, runId, db1.actions[action], version, orgOk, id, now);
        match result
        case InvokeRefused(_) => (result, RestoreWait(db1, runId, action, version).db)
        case Replayed => (result, db1)
        case Settled(db2) => (result, db2)
        case Claimed(db2, _) => (result, db2)
  }

  /** Knowledge and memory retrieval save the run without changing its status. */
  function TouchRun(db: Db, runId: RunId, expected: nat): Outcome {
    if runId !in db.runs then Refused(NotFound)
    else
      var run := db.runs[runId];
      if run.version != expected then Refused(VersionConflict)
      else if run.status != Running || run.pending then Refused(RunNotAvailable)
      else Done(PutRun(db, run.Evolve(Running, false)))
  }

  /** Goals, tasks, attempts and executions move on by their own commands. */
  function MoveParents(db: Db, runId: RunId, parents: Parents): Outcome {
    if runId !in db.parents then Refused(NotFound)
    else if !parents.LaterThan(db.parents[runId]) then Refused(VersionConflict)
    else Done(db.(parents := db.parents[runId := parents]))
  }

  /** A tool version is registered under its own grant and never replaced; enabling and disabling it
      advances the revision. */
  function SetRegistration(db: Db, entry: Registration): Outcome {
    var grant := entry.version.grant;
    if grant in db.registry
       && (entry.version != db.registry[grant].version || entry.revision <= db.registry[grant].revision)
    then Refused(VersionConflict)
    else Done(db.(registry := db.registry[grant := entry]))
  }

  // ---------- Operational mode, backup and restore ----------

  function Restrict(db: Db, mode: Mode): Outcome {
    if mode == Normal then Refused(ReleaseNotSupported)
    else if db.mode == RestoreQuarantine && mode != RestoreQuarantine then Refused(ReleaseNotSupported)
    else Done(db.(mode := mode))
  }

  predicate AllIntentsHeld(db: Db) { db.governed.Keys <= db.holds }

  /** `release` succeeds only here; every other call leaves the mode as it was. */
  predicate ReleaseSucceeds(db: Db, authorized: bool, integrityOk: bool, classified: bool) {
    && authorized
    && db.mode == RestoreQuarantine
    && db.incidents > 0
    && integrityOk
    && classified
    && AllIntentsHeld(db)
  }

  function Release(db: Db, authorized: bool, integrityOk: bool, classified: bool): Db {
    if ReleaseSucceeds(db, authorized, integrityOk, classified) then db.(mode := Normal) else db
  }

  /** `restore`: a copied database starts quarantined with every intent it contains held. */
  function Restored(snapshot: Db): Db {
    snapshot.(
      mode := RestoreQuarantine,
      holds := snapshot.holds + snapshot.governed.Keys,
      incidents := snapshot.incidents + 1)
  }
}
