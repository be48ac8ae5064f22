/** Immutable records of the governed-write protocol: tools, policies, intents,
    approval decisions, invocations, receipts and agent runs.

    One workspace is modelled, as a backup refuses any other number. An intent is
    identified by its action, because its id is the text `intent:` followed by the
    action id. Hashes (fingerprints, execution keys, payload digests) are the values
    they are computed from.
  */
module GovernedRecords {
  import opened Prelude

  type ActionId = nat
  type RunId = nat
  type InvocationId = nat
  type ReceiptId = nat
  type ReviewerId = nat
  type Output = string

  /** The rules by which commands refuse. A refusal rolls the transaction back. */
  datatype Rule =
    | NotFound
    | VersionConflict
    | ToolActionBinding
    | UnauthorizedAction
    | ConsequentialActionReplay
    | ToolInvocationInProgress
    | RequiresClaimedRunningIteration
    | ToolActionIteration
    | ParentsNotActive
    | DeadlineExceeded
    | ToolBudgetExceeded
    | ModeBlocksConsequentialDispatch
    | RestoredIntentRequiresNewWork
    | InvocationBindingOrDuplicate
    | GovernedActionInitialState
    | GovernedActionVersionConflict
    | GovernedActionHistoryImmutable
    | GovernedActionSchema
    | BindingOrPolicyChanged
    | PolicyMissing
    | OrganizationChanged
    | ReviewerNotAuthorized
    | DecisionNotAvailable
    | CancelledOrClaimed
    | ApprovalNotExecutable
    | ApprovalRevalidationFailed
    | ReceiptAppendOnly
    | RecoveryRequiresCanonicalReceipt
    | RecoveryInvocationChanged
    | MalformedLookup
    | RunNotAvailable
    | ConsequentialActionUnresolved
    | ReleaseNotSupported
    | PolicyVersionSequence
    | IdentityInUse

  datatype Grant = Grant(tool: nat, version: nat)

  datatype ExecutorKind = SendFixtureMessage | CompanyLookup | SourceLookup

  datatype Risk = ReadOnly | InternalWrite | ExternalWrite | HighRisk

  datatype ToolVersion = ToolVersion(grant: Grant, kind: ExecutorKind, risk: Risk)

  /** Tool arguments after parsing; `Malformed` stands for text no schema accepts. */
  datatype Input =
    | Malformed
    | FixtureMessage(destination: string, message: string)
    | CompanyQuery(company: string)
    | SourceQuery(source: string, keys: seq<string>)

  predicate ValidInput(args: Input, tool: ToolVersion) {
    match tool.kind
    case SendFixtureMessage => args.FixtureMessage?
    case CompanyLookup => args.CompanyQuery?
    case SourceLookup => args.SourceQuery?
  }

  datatype ToolError =
    | Rejected | ValidationError | Unauthorized | ToolNotFound | Timeout | RateLimited
    | UpstreamUnavailable | MalformedOutput | CancelledCall | InternalExecutorError
    | OutputTooLarge | StaleResult

  // ---------- Approval policy and intents ----------

  datatype Effect = Deny | Required | Allow

  datatype Policy = Policy(
    version: nat,
    tools: set<Grant>,
    destinations: set<string>,
    reviewers: set<ReviewerId>,
    boundedExecute: bool,
    enabled: bool,
    expirySeconds: nat)
  {
    function Evaluate(autonomy: nat, tool: ToolVersion, destination: string): Effect {
      if || !enabled
         || tool.grant !in tools
         || destination !in destinations
         || tool.kind != SendFixtureMessage
         || tool.risk != ExternalWrite
         || (autonomy != 2 && autonomy != 3)
      then Deny
      else if autonomy == 3 && boundedExecute then Allow
      else Required
    }
  }

  datatype DecisionKind = Approved | Denied | Expired | Revoked

  datatype Decision = Decision(
    kind: DecisionKind,
    policyVersion: nat,
    reviewer: Option<ReviewerId>,
    at: int)

  datatype Intent = Intent(
    action: ActionId,
    run: RunId,
    tool: ToolVersion,
    request: Input,
    policy: Policy,
    effect: Effect,
    createdAt: int,
    expiresAt: int)
  {
    function Digest(): (RunId, ActionId, ToolVersion, Input) { (run, action, tool, request) }
  }

  datatype GovernedAction = GovernedAction(
    intent: Intent,
    decisions: seq<Decision>,
    cancelled: bool,
    invocation: Option<InvocationId>,
    consumed: bool,
    version: nat)
  {
    /** An approval request exists exactly for intents that require one. */
    predicate HasRequest() { intent.effect == Required }

    predicate LastApproved() {
      |decisions| > 0 && decisions[|decisions| - 1].kind == Approved
    }

    /** The checks a record's constructor makes. */
    predicate WellFormed() {
      && |decisions| <= 2
      && (consumed ==> invocation.Some?)
      && (|decisions| > 0 ==> HasRequest())
      && (forall k | 0 <= k < |decisions| :: WellBound(decisions[k]))
      && (|decisions| > 0 ==> decisions[0].kind != Revoked)
      && (|decisions| > 1 ==>
            && decisions[0].kind == Approved
            && (decisions[1].kind == Revoked || decisions[1].kind == Expired)
            && decisions[0].at <= decisions[1].at)
    }

    predicate WellBound(d: Decision) {
      && d.policyVersion == intent.policy.version
      && intent.createdAt <= d.at
      && (d.kind == Approved ==> d.at < intent.expiresAt)
      && (d.kind == Expired ==> intent.expiresAt <= d.at)
      && (d.kind != Expired ==> d.reviewer.Some?)
      && (d.reviewer.Some? ==> d.reviewer.value in intent.policy.reviewers)
    }

    /** Whether the record may be claimed at `now`. */
    predicate Executable(now: int) {
      && !cancelled
      && invocation.None?
      && !consumed
      && now < intent.expiresAt
      && (intent.effect == Allow || (intent.effect == Required && LastApproved()))
    }

    /** Whether an expiry is still to be recorded at `now`. */
    predicate ExpiryDue(now: int) {
      && HasRequest()
      && !cancelled
      && invocation.None?
      && now >= intent.expiresAt
      && (decisions == [] || LastApproved())
    }

    /** No later claim is possible: cancelled, or the last decision is not an approval. */
    predicate Closed() {
      cancelled || (|decisions| > 0 && !LastApproved())
    }
  }

  // ---------- Runs ----------

  datatype RunStatus = Running | Waiting | Succeeded | Failed | Cancelled

  datatype Definition = Definition(
    allowedTools: seq<Grant>,
    mayCallTools: bool,
    enabled: bool,
    autonomy: nat)

  datatype AgentRun = AgentRun(
    id: RunId,
    definition: Definition,
    deadline: int,
    maxIterations: nat,
    maxToolCalls: nat,
    maxCallsPerTool: nat,
    version: nat,
    status: RunStatus,
    pending: bool,
    iteration: nat)
  {
    predicate Terminal() { status != Running && status != Waiting }

    /** One `evolve`: the version always advances, a finished run never does. */
    function Evolve(status': RunStatus, pending': bool): AgentRun {
      this.(status := status', pending := pending', version := version + 1)
    }
  }

  datatype ExecutionState = ExecutionRunning | ExecutionWaiting | ExecutionOther

  /** The goal, task, attempt and execution a run hangs from. */
  datatype Parents = Parents(
    goalVersion: nat,
    taskVersion: nat,
    attemptVersion: nat,
    executionVersion: nat,
    goalActive: bool,
    taskInProgress: bool,
    attemptRunning: bool,
    execution: ExecutionState)
  {
    function Versions(): (nat, nat, nat, nat) {
      (goalVersion, taskVersion, attemptVersion, executionVersion)
    }

    predicate Active() {
      goalActive && taskInProgress && attemptRunning && execution == ExecutionRunning
    }

    /** Each entity may have moved on, and none has changed without a version step of its own. */
    predicate LaterThan(before: Parents) {
      && (before.goalVersion < goalVersion || (before.goalVersion == goalVersion && before.goalActive == goalActive))
      && (before.taskVersion < taskVersion
          || (before.taskVersion == taskVersion && before.taskInProgress == taskInProgress))
      && (before.attemptVersion < attemptVersion
          || (before.attemptVersion == attemptVersion && before.attemptRunning == attemptRunning))
      && (before.executionVersion < executionVersion
          || (before.executionVersion == executionVersion && before.execution == execution))
    }
  }

  datatype Action = Action(id: ActionId, run: RunId, iteration: nat, tool: nat, args: Input)

  datatype Registration = Registration(version: ToolVersion, enabled: bool, revision: nat)

  // ---------- Invocations and receipts ----------

  datatype InvocationStatus = InFlight | CallSucceeded | CallFailed | CallCancelled

  datatype Invocation = Invocation(
    id: InvocationId,
    run: RunId,
    action: ActionId,
    tool: ToolVersion,
    input: Input,
    runVersion: nat,
    parents: (nat, nat, nat, nat),
    registryRevision: nat,
    startedAt: int,
    version: nat,
    status: InvocationStatus,
    endedAt: Option<int>,
    error: Option<ToolError>)
  {
    predicate WellFormed() {
      && (status == InFlight <==> endedAt.None?)
      && (endedAt.Some? ==> startedAt <= endedAt.value)
      && (error.Some? <==> (status == CallFailed || status == CallCancelled))
    }

    predicate Consequential() { tool.kind == SendFixtureMessage }

    predicate CanFinish(at: int) { status == InFlight && startedAt <= at }

    function Finish(at: int, e: Option<ToolError>): Invocation {
      this.(
        status := if e.None? then CallSucceeded else if e.value == CancelledCall then CallCancelled else CallFailed,
        endedAt := Some(at),
        error := e,
        version := version + 1)
    }

    /** The remote idempotency key. */
    function Key(): ExecutionKey { ExecutionKey(action, id, tool.grant) }

    predicate FinishOf(before: Invocation) {
      && before.status == InFlight
      && status != InFlight
      && endedAt.Some?
      && before.CanFinish(endedAt.value)
      && this == before.Finish(endedAt.value, error)
    }
  }

  datatype ExecutionKey = ExecutionKey(action: ActionId, invocation: InvocationId, grant: Grant)

  datatype RemoteOutcome = Observed | ObservedFailure | Unknown

  datatype Receipt = Receipt(
    id: ReceiptId,
    invocation: Invocation,
    output: Option<Output>,
    outcome: RemoteOutcome)
  {
    predicate WellFormed() {
      && invocation.WellFormed()
      && invocation.status != InFlight
      && (output.Some? <==> invocation.status == CallSucceeded)
      && outcome == (if output.Some? then Observed
                     else if invocation.error == Some(Rejected) then ObservedFailure
                     else Unknown)
    }
  }

  datatype Observation = Observation(
    run: RunId,
    action: ActionId,
    receipt: Option<ReceiptId>,
    error: Option<ToolError>)

  // ---------- Remote ledger ----------

  datatype RemoteStatus = NeverReceived | ProcessedSuccess | ProcessedFailure | UnknownStatus

  datatype LedgerRow = LedgerRow(payload: Input, status: RemoteStatus, output: Option<Output>)

  datatype RemoteLookup = RemoteLookup(status: RemoteStatus, output: Option<Output>)

  datatype Mode = Normal | Maintenance | RestoreQuarantine
}
