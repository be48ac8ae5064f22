/** Recovery's classification of unfinished work, and what its answers are worth. */
module GovernedRecovery {
  import opened Prelude
  import opened GovernedRecords
  import opened GovernedCommands
  import opened GovernedInvariants
  import opened GovernedPreservation
  import opened GovernedWorldPreservation
  import opened GovernedSafety

  datatype Subject =
    | IntentSubject(action: ActionId)
    | RunSubject(run: RunId)
    | ExecutionSubject(execution: nat)
    | OrchestrationSubject(orchestration: nat)
    | AttemptSubject(attempt: nat)
    | CallSubject(call: InvocationId)

  datatype Reason =
    | ResumeLocal | SafeToRetry | AwaitingApproval | ConnectorRequired
    | ManualReview | TerminalUnknown | PastDeadline | WasCancelled

  datatype Knowledge = NotExecuted | OutcomeUnknown | ObservedSuccess | ObservedFailed

  datatype Case = Case(subject: Subject, reason: Reason, outcome: Knowledge)

  // ---------- What each record is reported as ----------

  function RunReason(run: AgentRun, now: int): Reason {
    if now >= run.deadline then PastDeadline
    else if run.status == Waiting then if run.pending then AwaitingApproval else ResumeLocal
    else if run.pending then ManualReview
    else ResumeLocal
  }

  function RunCase(db: Db, r: RunId, now: int): Option<Case>
    requires r in db.runs
  {
    if db.runs[r].Terminal() then None
    else Some(Case(
      RunSubject(r),
      RunReason(db.runs[r], now),
      if RunInvocations(db, r) != {} then OutcomeUnknown else NotExecuted))
  }

  function IntentReason(db: Db, a: ActionId, now: int): Reason
    requires a in db.governed
  {
    var record := db.governed[a];
    if record.cancelled then WasCancelled
    else if now >= record.intent.expiresAt then PastDeadline
    else if a in db.holds || (record.decisions != [] && !record.LastApproved()) then ManualReview
    else if db.mode == RestoreQuarantine then ManualReview
    else AwaitingApproval
  }

  /** Only intents no call has claimed are reported as intents. */
  function IntentCase(db: Db, a: ActionId, now: int): Option<Case>
    requires a in db.governed
  {
    if db.governed[a].invocation.Some? then None
    else Some(Case(
      IntentSubject(a), IntentReason(db, a, now), if a in db.holds then OutcomeUnknown else NotExecuted))
  }

  /** A call and the receipt it has, if any. */
  function CallCase(db: Db, i: InvocationId, receipt: Option<Receipt>): (found: Option<Case>)
    requires i in db.invocations && db.invocations[i].run in db.runs
    ensures found.Some? ==> found.value.subject == CallSubject(i)
    ensures receipt.Some? && receipt.value.outcome != Unknown && found.Some? ==> found.value.outcome != OutcomeUnknown
  {
    var call := db.invocations[i];
    if receipt.None? then
      Some(Case(CallSubject(i), if call.tool.risk == ReadOnly then SafeToRetry else ConnectorRequired, OutcomeUnknown))
    else if receipt.value.outcome == Unknown then Some(Case(CallSubject(i), TerminalUnknown, OutcomeUnknown))
    else if db.runs[call.run].pending then
      Some(Case(
        CallSubject(i), ResumeLocal, if receipt.value.output.Some? then ObservedSuccess else ObservedFailed))
    else None
  }

  ghost function ReceiptFound(receipts: map<ReceiptId, Receipt>, i: InvocationId): Option<Receipt> {
    if r :| r in receipts && receipts[r].invocation.id == i then Some(receipts[r]) else None
  }

  ghost predicate Reported(db: Db, now: int, c: Case) {
    match c.subject
    case RunSubject(r) => r in db.runs && RunCase(db, r, now) == Some(c)
    case IntentSubject(a) => a in db.governed && IntentCase(db, a, now) == Some(c)
    case CallSubject(i) =>
      && i in db.invocations
      && db.invocations[i].run in db.runs
      && CallCase(db, i, ReceiptFound(db.receipts, i)) == Some(c)
    case _ => false
  }

  // ---------- The classification ----------

  /** The receipts of the workspace by the call they answer. */
  method IndexReceipts(receipts: map<ReceiptId, Receipt>) returns (byCall: map<InvocationId, Receipt>)
    requires forall q, r | q in receipts && r in receipts && receipts[q].invocation.id == receipts[r].invocation.id ::
      q == r
    ensures forall i: InvocationId ::
      ReceiptFound(receipts, i) == if i in byCall then Some(byCall[i]) else None
  {
    byCall := map[];
    var rest := receipts.Keys;
    while rest != {}
      invariant rest <= receipts.Keys
      invariant forall i | i in byCall ::
        exists r :: r in receipts && r !in rest && receipts[r].invocation.id == i && byCall[i] == receipts[r]
      invariant forall r | r in receipts && r !in rest :: receipts[r].invocation.id in byCall
      decreases |rest|
    {
      var r :| r in rest;
      byCall := byCall[receipts[r].invocation.id := receipts[r]];
      rest := rest - {r};
    }
  }

  method IntentCases(db: Db, now: int) returns (cases: set<Case>)
    ensures forall c :: c in cases <==> c.subject.IntentSubject? && Reported(db, now, c)
  {
    cases := {};
    var rest := db.governed.Keys;
    while rest != {}
      invariant rest <= db.governed.Keys
      invariant forall c ::
        c in cases <==> c.subject.IntentSubject? && c.subject.action !in rest && Reported(db, now, c)
      decreases |rest|
    {
      var a :| a in rest;
      var found := IntentCase(db, a, now);
      cases := if found.Some? then cases + {found.value} else cases;
      rest := rest - {a};
    }
  }

  method CallCases(db: Db, now: int) returns (cases: set<Case>)
    requires ReceiptsInv(db.invocations, db.receipts)
    requires forall i | i in db.invocations :: db.invocations[i].run in db.runs
    ensures forall c :: c in cases <==> c.subject.CallSubject? && Reported(db, now, c)
  {
    cases := {};
    var byCall := IndexReceipts(db.receipts);
    var rest := db.invocations.Keys;
    while rest != {}
      invariant rest <= db.invocations.Keys
      invariant forall c :: c in cases <==> c.subject.CallSubject? && c.subject.call !in rest && Reported(db, now, c)
      decreases |rest|
    {
      var i :| i in rest;
      var found := CallCase(db, i, if i in byCall then Some(byCall[i]) else None);
      cases := if found.Some? then cases + {found.value} else cases;
      rest := rest - {i};
    }
  }

  // ---------- What a case is worth ----------

  /** Only an intent reported as awaiting approval can be claimed at that time, whoever calls. */
  lemma OnlyAwaitingIntentsAreClaimed(
    db: Db, a: ActionId, now: int, run: RunId, action: Action, expected: nat, orgOk: bool, id: InvocationId)
    requires Inv(db) && a in db.governed && action.id == a
    requires Invoke(db, run, action, expected, orgOk, id, now).Claimed?
    ensures db.governed[a].invocation.None? && IntentReason(db, a, now) == AwaitingApproval
  {
    var result := Invoke(db, run, action, expected, orgOk, id, now);
    InvokeKeeps(db, run, action, expected, orgOk, id, now);
    ClaimedCallIsConsequential(db, a, run, action, expected, orgOk, id, now);
    InvokeKeepsMode(db, run, action, expected, orgOk, id, now);
    ClaimStepWasAwaiting(db, result.db, result.invocation, now);
  }

  /** A record that has just been claimed was open, and unclaimed, before. */
  lemma OpenBeforeClaim(x: GovernedAction, y: GovernedAction, call: InvocationId, now: int)
    requires RecordEvolves(x, y) && y.invocation == Some(call) && x.invocation != Some(call)
    requires Unclaimed(y).Executable(now)
    ensures x.invocation.None? && !x.cancelled && now < x.intent.expiresAt
    ensures x.decisions == [] || x.LastApproved()
  {
  }

  lemma ClaimStepWasAwaiting(db: Db, after: Db, call: Invocation, now: int)
    requires ClaimsInv(db.governed, db.invocations) && ClaimStep(db, after, call, now) && after.mode == db.mode
    requires call.Consequential() && call.action in db.governed
    ensures db.governed[call.action].invocation.None? && IntentReason(db, call.action, now) == AwaitingApproval
  {
    var a := call.action;
    assert RecordEvolves(db.governed[a], after.governed[a]);
    assert RecordClaims(db.invocations, a, db.governed[a]);
    assert CallClaimed(after.governed, call.id, after.invocations[call.id]);
    OpenBeforeClaim(db.governed[a], after.governed[a], call.id, now);
  }

  lemma AuthorizedMessage(db: Db, run: AgentRun, action: Action, orgOk: bool, now: int)
    requires action.args.FixtureMessage? && Authorize(db, run, action, orgOk, now).Proceed?
    ensures Authorize(db, run, action, orgOk, now).tool.kind == SendFixtureMessage
  {
  }

  lemma DispatchedCall(
    db: Db, run: AgentRun, action: Action, tool: ToolVersion, revision: nat, id: InvocationId, now: int)
    requires Dispatch(db, run, action, tool, revision, id, now).Claimed?
    ensures var call := Dispatch(db, run, action, tool, revision, id, now).invocation;
            call.tool == tool && call.action == action.id
  {
  }

  /** A governed action carries message arguments, and only the message tool accepts those. */
  lemma ClaimedCallIsConsequential(
    db: Db, a: ActionId, run: RunId, action: Action, expected: nat, orgOk: bool, id: InvocationId, now: int)
    requires Inv(db) && a in db.governed && action.id == a
    requires Invoke(db, run, action, expected, orgOk, id, now).Claimed?
    ensures var call := Invoke(db, run, action, expected, orgOk, id, now).invocation;
            call.action == a && call.Consequential()
  {
    GuardPassed(db, run, action, expected, now);
    assert RecordBound(db.actions, a, db.governed[a]);
    AuthorizedMessage(db, db.runs[run], action, orgOk, now);
    match Authorize(db, db.runs[run], action, orgOk, now)
    case Proceed(db', tool, revision) => DispatchedCall(db', db.runs[run], action, tool, revision, id, now);
    case _ =>
  }

  /** No consequential call is ever offered for retry by classification alone. */
  lemma ConsequentialCallsAreNeverRetriable(db: Db, now: int, c: Case)
    requires Inv(db) && Reported(db, now, c) && c.subject.CallSubject?
    requires db.invocations[c.subject.call].Consequential()
    ensures c.reason != SafeToRetry
  {
    var i := c.subject.call;
    assert CallClaimed(db.governed, i, db.invocations[i]);
    var a := db.invocations[i].action;
    assert RecordClaims(db.invocations, a, db.governed[a]);
    assert RecordBound(db.actions, a, db.governed[a]);
  }

  ghost predicate OutcomeKnown(receipts: map<ReceiptId, Receipt>, i: InvocationId) {
    exists r :: r in receipts && receipts[r].invocation.id == i && receipts[r].outcome != Unknown
  }

  /** Every run has ended, every intent was claimed, and every call's outcome is known. */
  ghost predicate AllSettled(db: Db) {
    && (forall r | r in db.runs :: db.runs[r].Terminal())
    && (forall a | a in db.governed :: db.governed[a].invocation.Some?)
    && (forall i | i in db.invocations :: OutcomeKnown(db.receipts, i))
  }

  lemma KnownIsFound(db: Db, i: InvocationId)
    requires ReceiptsInv(db.invocations, db.receipts)
    ensures OutcomeKnown(db.receipts, i) <==>
            ReceiptFound(db.receipts, i).Some? && ReceiptFound(db.receipts, i).value.outcome != Unknown
  {
  }

  lemma UnknownIsReported(db: Db, i: InvocationId, now: int)
    requires CallsInv(db.runs, db.actions, db.invocations) && ReceiptsInv(db.invocations, db.receipts)
    requires i in db.invocations && !OutcomeKnown(db.receipts, i)
    ensures exists c :: Reported(db, now, c)
  {
    assert CallBound(db.runs, db.actions, i, db.invocations[i]);
    KnownIsFound(db, i);
    assert Reported(db, now, CallCase(db, i, ReceiptFound(db.receipts, i)).value);
  }

  lemma SettledIsNotReported(db: Db, now: int, c: Case)
    requires ReceiptsInv(db.invocations, db.receipts) && AllSettled(db)
    requires RunsInv(db.runs, db.parents, db.actions)
    ensures !Reported(db, now, c)
  {
    match c.subject
    case RunSubject(r) => assert r in db.runs ==> db.runs[r].Terminal();
    case IntentSubject(a) => assert a in db.governed ==> db.governed[a].invocation.Some?;
    case CallSubject(i) =>
      if i in db.invocations {
        assert OutcomeKnown(db.receipts, i);
        KnownIsFound(db, i);
      }
    case _ =>
  }

  /** A definite answer from the remote system ends the doubt about an unanswered call. */
  lemma DefiniteLookupResolves(
    db: Db, i: InvocationId, lookup: RemoteLookup, outputOk: bool, id: ReceiptId, now: int)
    requires Inv(db) && i in db.invocations && !HasReceipt(db.receipts, i)
    requires lookup.status == ProcessedSuccess || lookup.status == ProcessedFailure
    requires Recover(db, db.invocations[i], lookup, outputOk, id, now).Done?
    ensures var after := Recover(db, db.invocations[i], lookup, outputOk, id, now).db;
            && OutcomeKnown(after.receipts, i)
            && forall c | Reported(after, now, c) && c.subject == CallSubject(i) :: c.outcome != OutcomeUnknown
  {
    var after := Recover(db, db.invocations[i], lookup, outputOk, id, now).db;
    RecoverKeeps(db, db.invocations[i], lookup, outputOk, id, now);
    RecoveredReceipt(db, i, lookup, outputOk, id, now);
    KnownCallIsDefinite(after, now, i);
  }

  lemma KnownCallIsDefinite(db: Db, now: int, i: InvocationId)
    requires ReceiptsInv(db.invocations, db.receipts) && OutcomeKnown(db.receipts, i)
    ensures forall c | Reported(db, now, c) && c.subject == CallSubject(i) :: c.outcome != OutcomeUnknown
  {
    KnownIsFound(db, i);
  }

  lemma RecoveredReceipt(
    db: Db, i: InvocationId, lookup: RemoteLookup, outputOk: bool, id: ReceiptId, now: int)
    requires Inv(db) && i in db.invocations && !HasReceipt(db.receipts, i)
    requires lookup.status == ProcessedSuccess || lookup.status == ProcessedFailure
    requires Recover(db, db.invocations[i], lookup, outputOk, id, now).Done?
    ensures var after := Recover(db, db.invocations[i], lookup, outputOk, id, now).db;
            && id in after.receipts
            && after.receipts[id].invocation.id == i
            && after.receipts[id].outcome == if lookup.status == ProcessedSuccess then Observed else ObservedFailure
  {
    assert CallBound(db.runs, db.actions, i, db.invocations[i]);
    if lookup.status == ProcessedSuccess {
      RecordedEvidence(db, db.invocations[i], Delivered(lookup.output.value), id, now);
    } else {
      RecordedEvidence(db, db.invocations[i], Failure(Rejected), id, now);
    }
  }

  lemma RecordedEvidence(db: Db, seen: Invocation, evidence: Reply, id: ReceiptId, now: int)
    requires RecordRecovery(db, seen, evidence, id, now).Done?
    ensures var after := RecordRecovery(db, seen, evidence, id, now).db;
            && id in after.receipts
            && after.receipts[id].invocation.id == seen.id
            && (evidence.Delivered? ==> after.receipts[id].outcome == Observed)
            && (evidence == Failure(Rejected) ==> after.receipts[id].outcome == ObservedFailure)
  {
    var error := if evidence.Delivered? then None else Some(evidence.error);
    RecordedReceipt(db, ReceiptFor(id, seen, evidence, error, now));
  }
}
