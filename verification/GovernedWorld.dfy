/** The whole world of the protocol: databases, snapshots and forks, executor calls in
    flight, recovery lookups, and the one remote ledger they all share.

    An event is one atomic step of one participant. An event that is not possible, or
    that a command refuses, leaves the world as it is, so a run is any sequence of events.
  */
module GovernedWorld {
  import opened Prelude
  import opened GovernedRecords
  import opened GovernedCommands

  type DbId = nat
  type SnapshotId = nat

  /** The commands that neither claim a call nor write a receipt. */
  datatype Command =
    | AddRunCmd(started: AgentRun, parents: Parents)
    | BeginIterationCmd(run: RunId)
    | AppendActionCmd(action: Action, expected: nat)
    | AcceptAnswerCmd(run: RunId, expected: nat, answer: Answer)
    | EndRunCmd(run: RunId, cancelled: bool)
    | ResumeContextCmd(run: RunId, expected: nat)
    | ReopenForIntentCmd(run: RunId, intent: ActionId, expected: nat, orgOk: bool)
    | RestoreWaitCmd(run: RunId, intent: ActionId, version: nat)
    | TouchRunCmd(run: RunId, expected: nat)
    | MoveParentsCmd(run: RunId, parents: Parents)
    | DecideCmd(intent: ActionId, digest: (RunId, ActionId, ToolVersion, Input), reviewer: ReviewerId,
        kind: DecisionKind)
    | CancelIntentCmd(intent: ActionId)
    | ExpireCmd(intent: ActionId)
    | RepairCmd(receipt: ReceiptId)
    | PublishPolicyCmd(policy: Policy)
    | SetRegistrationCmd(entry: Registration)
    | RestrictCmd(mode: Mode)
    | ReleaseCmd(authorized: bool, integrityOk: bool, classified: bool)

  function Apply(db: Db, cmd: Command, now: int): Outcome {
    match cmd
    case AddRunCmd(run, parents) => AddRun(db, run, parents)
    case BeginIterationCmd(run) => BeginIteration(db, run, now)
    case AppendActionCmd(action, expected) => AppendAction(db, action, expected, now)
    case AcceptAnswerCmd(run, expected, answer) => AcceptAnswer(db, run, expected, answer, now)
    case EndRunCmd(run, cancelled) => EndRun(db, run, cancelled)
    case ResumeContextCmd(run, expected) => ResumeContext(db, run, expected, now)
    case ReopenForIntentCmd(run, intent, expected, orgOk) => ReopenForIntent(db, run, intent, expected, orgOk, now)
    case RestoreWaitCmd(run, intent, version) => RestoreWait(db, run, intent, version)
    case TouchRunCmd(run, expected) => TouchRun(db, run, expected)
    case MoveParentsCmd(run, parents) => MoveParents(db, run, parents)
    case DecideCmd(intent, digest, reviewer, kind) => Decide(db, intent, digest, reviewer, kind, now)
    case CancelIntentCmd(intent) => CancelIntent(db, intent)
    case ExpireCmd(intent) => Expire(db, intent, now)
    case RepairCmd(receipt) => Repair(db, receipt, now)
    case PublishPolicyCmd(policy) => PublishPolicy(db, policy)
    case SetRegistrationCmd(entry) => SetRegistration(db, entry)
    case RestrictCmd(mode) => Restrict(db, mode)
    case ReleaseCmd(authorized, integrityOk, classified) => Done(Release(db, authorized, integrityOk, classified))
  }

  /** An executor call. `live` is lost in a crash or once the caller has reconciled; an
      executor already entered may still write afterwards. */
  datatype Call = Call(db: DbId, claimed: Invocation, live: bool, entered: bool, reply: Option<Reply>)

  /** History: a committed consequential claim, with its record as claimed. */
  datatype Claim = Claim(db: DbId, call: Invocation, record: GovernedAction, at: int)

  /** History: one entry into an executor. */
  datatype Entry = Entry(db: DbId, call: Invocation)

  /** A status lookup in the hands of a recovery caller. */
  datatype Lookup = Lookup(seen: Invocation, found: RemoteLookup)

  datatype World = World(
    clock: int,
    next: nat,
    dbs: map<DbId, Db>,
    snapshots: map<SnapshotId, Db>,
    origin: map<DbId, SnapshotId>,
    source: map<SnapshotId, DbId>,
    ledger: map<ExecutionKey, LedgerRow>,
    calls: map<InvocationId, Call>,
    lookups: set<Lookup>,
    claims: map<InvocationId, Claim>,
    entries: seq<Entry>)

  const GENESIS := World(0, 1, map[0 := EMPTY_DB], map[], map[], map[], map[], map[], {}, map[], [])

  datatype Event =
    | Tick(ticks: nat)
    | Do(db: DbId, cmd: Command)
    | InvokeTool(db: DbId, run: RunId, action: Action, expected: nat, orgOk: bool, id: InvocationId)
    | EnterExecutor(call: InvocationId)
    | RemoteEffect(call: InvocationId, reject: bool)
    | ExecutorAnswers(call: InvocationId, answer: Reply)
    | LiveReconcile(call: InvocationId, interruption: Option<ToolError>, receipt: ReceiptId)
    | LookUp(db: DbId, call: InvocationId, unknown: bool)
    | RecoverWith(db: DbId, lookup: Lookup, outputOk: bool, receipt: ReceiptId)
    | Crash(db: DbId)
    | TakeSnapshot(db: DbId)
    | RestoreFrom(snapshot: SnapshotId)

  // ---------- The remote ledger ----------

  function Destination(input: Input): Output {
    if input.FixtureMessage? then input.destination else ""
  }

  function RowFor(input: Input, reject: bool): LedgerRow {
    if reject then LedgerRow(input, ProcessedFailure, None)
    else LedgerRow(input, ProcessedSuccess, Some(Destination(input)))
  }

  /** `dispatch`: the first request under a key decides its row; a repetition reads it back. */
  function LedgerAfter(ledger: map<ExecutionKey, LedgerRow>, key: ExecutionKey, input: Input, reject: bool)
    : map<ExecutionKey, LedgerRow>
  {
    if key in ledger then ledger else ledger[key := RowFor(input, reject)]
  }

  function DispatchReply(row: LedgerRow, input: Input): Reply {
    if row.payload != input then Failure(InternalExecutorError)
    else if row.status == ProcessedSuccess && row.output.Some? then Delivered(row.output.value)
    else Failure(Rejected)
  }

  function LookupStatus(ledger: map<ExecutionKey, LedgerRow>, key: ExecutionKey, unknown: bool): RemoteLookup {
    if unknown then RemoteLookup(UnknownStatus, None)
    else if key in ledger then RemoteLookup(ledger[key].status, ledger[key].output)
    else RemoteLookup(NeverReceived, None)
  }

  // ---------- Steps ----------

  function StepDo(w: World, d: DbId, cmd: Command): World {
    if d !in w.dbs then w
    else AfterCommand(w, d, Apply(w.dbs[d], cmd, w.clock))
  }

  function AfterCommand(w: World, d: DbId, outcome: Outcome): World {
    match outcome
    case Refused(_) => w
    case Done(db) => w.(dbs := w.dbs[d := db])
  }

  /** A claim is logged with the record it consumed; only a claimed call may enter an executor. */
  function StepInvoke(
    w: World, d: DbId, run: RunId, action: Action, expected: nat, orgOk: bool, id: InvocationId): World
  {
    if d !in w.dbs || id in w.calls then w
    else AfterInvoke(w, d, Invoke(w.dbs[d], run, action, expected, orgOk, id, w.clock))
  }

  function AfterInvoke(w: World, d: DbId, result: InvokeResult): World {
    match result
    case Settled(db) => w.(dbs := w.dbs[d := db])
    case Claimed(db, call) => AfterClaim(w, d, db, call)
    case _ => w
  }

  function AfterClaim(w: World, d: DbId, db: Db, call: Invocation): World {
    w.(dbs := w.dbs[d := db],
       calls := w.calls[call.id := Call(d, call, true, false, None)],
       claims := if call.Consequential() && call.action in db.governed
                 then w.claims[call.id := Claim(d, call, db.governed[call.action], w.clock)] else w.claims)
  }

  function StepEnter(w: World, i: InvocationId): World {
    if i !in w.calls || !w.calls[i].live || w.calls[i].entered then w
    else w.(calls := w.calls[i := w.calls[i].(entered := true)],
            entries := w.entries + [Entry(w.calls[i].db, w.calls[i].claimed)])
  }

  /** The executor writes once, whether or not its caller still waits. */
  function StepEffect(w: World, i: InvocationId, reject: bool): World {
    if || i !in w.calls || !w.calls[i].entered || w.calls[i].reply.Some?
       || !w.calls[i].claimed.Consequential()
    then w
    else
      var call := w.calls[i];
      var key := call.claimed.Key();
      var ledger := LedgerAfter(w.ledger, key, call.claimed.input, reject);
      w.(ledger := ledger,
         calls := w.calls[i := call.(reply := Some(DispatchReply(ledger[key], call.claimed.input)))])
  }

  /** A read-only executor answers anything; a consequential one that did not write can only fail. */
  function StepAnswer(w: World, i: InvocationId, answer: Reply): World {
    if || i !in w.calls || !w.calls[i].entered || w.calls[i].reply.Some?
       || (w.calls[i].claimed.Consequential() && (answer.Delivered? || answer.error == Rejected))
    then w
    else w.(calls := w.calls[i := w.calls[i].(reply := Some(answer))])
  }

  /** The live caller reconciles with the executor's answer, or with its own timeout or cancellation. */
  function StepReconcile(w: World, i: InvocationId, interruption: Option<ToolError>, receipt: ReceiptId): World {
    if || i !in w.calls || !w.calls[i].live || w.calls[i].db !in w.dbs
       || (w.calls[i].reply.None? && interruption.None?)
       || interruption == Some(Rejected)
    then w
    else
      var call := w.calls[i];
      var reply := if interruption.Some? then Failure(interruption.value) else call.reply.value;
      match Reconcile(w.dbs[call.db], call.claimed, reply, receipt, w.clock)
      case Refused(_) => w
      case Done(db) => w.(dbs := w.dbs[call.db := db], calls := w.calls[i := call.(live := false)])
  }

  function StepLookUp(w: World, d: DbId, i: InvocationId, unknown: bool): World {
    if d !in w.dbs || i !in w.dbs[d].invocations || !w.dbs[d].invocations[i].Consequential() then w
    else
      var seen := w.dbs[d].invocations[i];
      w.(lookups := w.lookups + {Lookup(seen, LookupStatus(w.ledger, seen.Key(), unknown))})
  }

  ghost function StepRecover(w: World, d: DbId, lookup: Lookup, outputOk: bool, receipt: ReceiptId): World {
    if d !in w.dbs || lookup !in w.lookups then w
    else AfterCommand(w, d, Recover(w.dbs[d], lookup.seen, lookup.found, outputOk, receipt, w.clock))
  }

  /** A crash loses the callers of one database; what their executors do goes on. */
  function StepCrash(w: World, d: DbId): World {
    w.(calls := map i | i in w.calls ::
         if w.calls[i].db == d then w.calls[i].(live := false) else w.calls[i])
  }

  function StepSnapshot(w: World, d: DbId): World {
    if d !in w.dbs then w
    else w.(snapshots := w.snapshots[w.next := w.dbs[d]], source := w.source[w.next := d], next := w.next + 1)
  }

  function StepFork(w: World, s: SnapshotId): World {
    if s !in w.snapshots then w
    else w.(dbs := w.dbs[w.next := Restored(w.snapshots[s])], origin := w.origin[w.next := s], next := w.next + 1)
  }

  ghost function Step(w: World, e: Event): World {
    match e
    case Tick(ticks) => w.(clock := w.clock + ticks)
    case Do(d, cmd) => StepDo(w, d, cmd)
    case InvokeTool(d, run, action, expected, orgOk, id) => StepInvoke(w, d, run, action, expected, orgOk, id)
    case EnterExecutor(i) => StepEnter(w, i)
    case RemoteEffect(i, reject) => StepEffect(w, i, reject)
    case ExecutorAnswers(i, answer) => StepAnswer(w, i, answer)
    case LiveReconcile(i, interruption, receipt) => StepReconcile(w, i, interruption, receipt)
    case LookUp(d, i, unknown) => StepLookUp(w, d, i, unknown)
    case RecoverWith(d, lookup, outputOk, receipt) => StepRecover(w, d, lookup, outputOk, receipt)
    case Crash(d) => StepCrash(w, d)
    case TakeSnapshot(d) => StepSnapshot(w, d)
    case RestoreFrom(s) => StepFork(w, s)
  }

  ghost function Exec(w: World, events: seq<Event>): World {
    if events == [] then w else Step(Exec(w, events[..|events| - 1]), events[|events| - 1])
  }

  /** The next world comes from this one by one event. */
  ghost predicate StepAt(worlds: seq<World>, k: nat)
    requires k + 1 < |worlds|
  {
    exists e :: worlds[k + 1] == Step(worlds[k], e)
  }

  /** A run of the protocol: the worlds it passes through, from the first one on. */
  ghost predicate IsRun(worlds: seq<World>) {
    && worlds != []
    && worlds[0] == GENESIS
    && forall k: nat {:trigger StepAt(worlds, k)} | k + 1 < |worlds| :: StepAt(worlds, k)
  }

  // ---------- Lineage ----------

  /** `d` was restored from `s`, or from a snapshot of a database that was. */
  ghost predicate Descends(w: World, d: DbId, s: SnapshotId)
    decreases d
  {
    && d in w.origin
    && (|| w.origin[d] == s
        || (&& w.origin[d] in w.source
            && w.source[w.origin[d]] < d
            && Descends(w, w.source[w.origin[d]], s)))
  }

  /** The database a snapshot was taken of, and every fork of that snapshot. */
  ghost predicate Family(w: World, s: SnapshotId, d: DbId) {
    (s in w.source && w.source[s] == d) || Descends(w, d, s)
  }
}
