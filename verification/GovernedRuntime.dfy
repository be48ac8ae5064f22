/** The agent run loop: claim an iteration, ask the model, act on its answer, until the run stops. */
module GovernedRuntime {
  import opened Prelude
  import opened GovernedRecords
  import opened GovernedCommands
  import opened GovernedInvariants
  import opened GovernedPreservation
  import opened GovernedStore

  datatype ModelReply =
    | NoAnswer
    | Answers(answer: Answer)
    | CallsTool(action: Action)

  /** What one iteration meets: the model's reply, the executor's reply and the times of its steps. */
  datatype Turn = Turn(
    claimedAt: int,
    reply: ModelReply,
    answeredAt: int,
    orgOk: bool,
    invocation: InvocationId,
    executor: Reply,
    receipt: ReceiptId,
    settledAt: int)

  /** Whether the database only moved forward, with the run still in it. */
  ghost predicate Advanced(before: Db, after: Db, run: RunId) {
    Inv(after) && Evolves(before, after) && run in after.runs && run in after.parents
  }

  lemma AdvancedBy(a: Db, b: Db, c: Db, run: RunId)
    requires Advanced(a, b, run) && Inv(c) && Evolves(b, c)
    ensures Advanced(a, c, run)
  {
    EvolvesTransitive(a, b, c);
  }

  class Runtime {
    const store: Store

    constructor (shared: Store)
      ensures store == shared
    {
      store := shared;
    }

    method SaveBoth(run: AgentRun, above: Parents)
      modifies store
      ensures store.Contents() == PutRun(old(store.Contents()).(parents := old(store.parents)[run.id := above]), run)
    {
      store.parents := store.parents[run.id := above];
      store.runs := store.runs[run.id := run];
    }

    /** `_failure`: ends an open run and settles what is still open above it. */
    method Fail(runId: RunId, cancelled: bool)
      requires Inv(store.Contents()) && runId in store.runs && runId in store.parents
      modifies store
      ensures EndRun(old(store.Contents()), runId, cancelled) == Done(store.Contents())
      ensures runId in store.runs && store.runs[runId].Terminal()
      ensures Advanced(old(store.Contents()), store.Contents(), runId)
    {
      EndRunKeeps(store.Contents(), runId, cancelled);
      EvolvesReflexive(store.Contents());
      var run, above := store.runs[runId], store.parents[runId];
      if run.Terminal() {
        return;
      }
      if above.attemptRunning {
        above := above.(attemptRunning := false, attemptVersion := above.attemptVersion + 1);
      }
      if above.taskInProgress {
        above := above.(taskInProgress := false, taskVersion := above.taskVersion + 1);
      }
      if above.execution != ExecutionOther {
        above := SetExecution(above, ExecutionOther);
      }
      SaveBoth(run.Evolve(if cancelled then Cancelled else Failed, false), above);
    }

    method ClaimIteration(runId: RunId, now: int) returns (refused: Option<Rule>)
      modifies store
      ensures Ran(BeginIteration(old(store.Contents()), runId, now), old(store.Contents()), refused, store.Contents())
    {
      if runId !in store.runs {
        return Some(NotFound);
      }
      var run := store.runs[runId];
      if run.status != Running || run.pending || run.iteration >= run.maxIterations {
        return Some(RunNotAvailable);
      }
      if ActiveParents(store.Contents(), runId).None? {
        return Some(ParentsNotActive);
      }
      if now >= run.deadline {
        return Some(DeadlineExceeded);
      }
      var claimed := run.Evolve(Running, true).(iteration := run.iteration + 1);
      store.runs := store.runs[claimed.id := claimed];
      return None;
    }

    method CommitAction(action: Action, expected: nat, now: int) returns (refused: Option<Rule>)
      modifies store
      ensures Ran(AppendAction(old(store.Contents()), action, expected, now), old(store.Contents()), refused,
        store.Contents())
    {
      if action.run !in store.runs {
        return Some(NotFound);
      }
      var run := store.runs[action.run];
      if run.version != expected {
        return Some(VersionConflict);
      }
      if now >= run.deadline {
        return Some(DeadlineExceeded);
      }
      if ActiveParents(store.Contents(), run.id).None? {
        return Some(ParentsNotActive);
      }
      if !run.definition.mayCallTools {
        return Some(UnauthorizedAction);
      }
      if action.iteration != run.iteration {
        return Some(ToolActionIteration);
      }
      if action.id in store.actions {
        return Some(IdentityInUse);
      }
      store.actions := store.actions[action.id := action];
      return None;
    }

    /** Looks for a governed action of the run without a successful receipt. */
    method CheckConsequences(runId: RunId) returns (resolved: bool)
      ensures resolved == ConsequencesResolved(store.governed, store.receipts, runId)
    {
      var successful: set<InvocationId> :=
        set r | r in store.receipts && store.receipts[r].output.Some? :: store.receipts[r].invocation.id;
      var rest := store.governed.Keys;
      resolved := true;
      while rest != {}
        invariant rest <= store.governed.Keys
        invariant resolved <==> forall a | a in store.governed && a !in rest && store.governed[a].intent.run == runId ::
          store.governed[a].invocation.Some? && SuccessfulCall(store.receipts, store.governed[a].invocation.value)
        decreases |rest|
      {
        var a :| a in rest;
        var record := store.governed[a];
        if record.intent.run == runId {
          assert record.invocation.Some? ==>
            (record.invocation.value in successful <==> SuccessfulCall(store.receipts, record.invocation.value));
          resolved := resolved && record.invocation.Some? && record.invocation.value in successful;
        }
        rest := rest - {a};
      }
    }

    method AcceptDecision(runId: RunId, expected: nat, answer: Answer, now: int) returns (refused: Option<Rule>)
      requires runId in store.runs ==> store.runs[runId].id == runId
      modifies store
      ensures Ran(AcceptAnswer(old(store.Contents()), runId, expected, answer, now), old(store.Contents()), refused,
        store.Contents())
    {
      if runId !in store.runs || runId !in store.parents {
        return Some(NotFound);
      }
      var run, above := store.runs[runId], store.parents[runId];
      if run.version != expected {
        return Some(VersionConflict);
      }
      if run.status != Running || !run.pending {
        return Some(RunNotAvailable);
      }
      if now >= run.deadline {
        return Some(DeadlineExceeded);
      }
      if !above.Active() {
        return Some(ParentsNotActive);
      }
      match answer {
        case Respond =>
          store.runs := store.runs[runId := run.Evolve(Running, false)];
        case Complete(executionDone) =>
          var resolved := CheckConsequences(runId);
          if !resolved {
            return Some(ConsequentialActionUnresolved);
          }
          above := above.(attemptRunning := false, attemptVersion := above.attemptVersion + 1);
          above := above.(taskInProgress := false, taskVersion := above.taskVersion + 1);
          if executionDone {
            above := SetExecution(above, ExecutionOther);
          }
          SaveBoth(run.Evolve(Succeeded, false), above);
        case AskForContext =>
          SaveBoth(run.Evolve(Waiting, false), SetExecution(above, ExecutionWaiting));
      }
      return None;
    }

    /** `resume`: continues a run that waits for context; past its deadline it fails instead. */
    method Resume(runId: RunId, expected: nat, now: int) returns (refused: Option<Rule>)
      requires Inv(store.Contents())
      modifies store
      ensures Ran(ResumeContext(old(store.Contents()), runId, expected, now), old(store.Contents()), refused,
        store.Contents())
    {
      if runId !in store.runs || runId !in store.parents {
        return Some(NotFound);
      }
      var run, above := store.runs[runId], store.parents[runId];
      if run.version != expected {
        return Some(VersionConflict);
      }
      if run.status != Waiting || run.pending {
        return Some(RunNotAvailable);
      }
      if now >= run.deadline {
        Fail(runId, false);
        return None;
      }
      if !above.goalActive || !above.taskInProgress || !above.attemptRunning || above.execution != ExecutionWaiting {
        return Some(ParentsNotActive);
      }
      SaveBoth(run.Evolve(Running, false), SetExecution(above, ExecutionRunning));
      return None;
    }

    /** Claim, execute and reconcile one tool call. */
    method ExecuteTool(runId: RunId, action: Action, expected: nat, turn: Turn) returns (failed: bool)
      requires Inv(store.Contents()) && runId in store.runs && runId in store.parents
      modifies store
      ensures Advanced(old(store.Contents()), store.Contents(), runId)
    {
      ghost var start := store.Contents();
      EvolvesReflexive(start);
      InvokeKeeps(start, runId, action, expected, turn.orgOk, turn.invocation, turn.answeredAt);
      var result := store.InvokeTool(runId, action, expected, turn.orgOk, turn.invocation, turn.answeredAt);
      ghost var claimed := store.Contents();
      if !result.Started? {
        return result.NotStarted?;
      }
      assert Advanced(start, claimed, runId);
      var refused := store.ReconcileLive(result.invocation, turn.executor, turn.receipt, turn.settledAt);
      if refused.None? {
        ReconcileKeeps(claimed, result.invocation, turn.executor, turn.receipt, turn.settledAt);
        AdvancedBy(start, claimed, store.Contents(), runId);
      }
      failed := refused.Some?;
    }

    /** A tool call from the loop: the action is committed before its call is made. */
    method CallTool(runId: RunId, expected: nat, turn: Turn) returns (failed: bool)
      requires Inv(store.Contents()) && runId in store.runs && runId in store.parents
      requires turn.reply.CallsTool? && turn.reply.action.run == runId
      modifies store
      ensures Advanced(old(store.Contents()), store.Contents(), runId)
    {
      ghost var start := store.Contents();
      var action := turn.reply.action;
      EvolvesReflexive(start);
      var refused := CommitAction(action, expected, turn.answeredAt);
      if refused.Some? {
        return true;
      }
      AppendActionKeeps(start, action, expected, turn.answeredAt);
      ghost var committed := store.Contents();
      failed := ExecuteTool(runId, action, expected, turn);
      AdvancedBy(start, committed, store.Contents(), runId);
    }

    /** One pass of the loop; `failed` says that the run is to be failed. */
    method Iterate(runId: RunId, turn: Turn) returns (failed: bool)
      requires Inv(store.Contents()) && runId in store.runs && runId in store.parents
      requires turn.reply.CallsTool? ==> turn.reply.action.run == runId
      modifies store
      ensures Advanced(old(store.Contents()), store.Contents(), runId)
    {
      ghost var start := store.Contents();
      EvolvesReflexive(start);
      var refused := ClaimIteration(runId, turn.claimedAt);
      if refused.Some? {
        return true;
      }
      BeginIterationKeeps(start, runId, turn.claimedAt);
      if turn.reply.NoAnswer? {
        return true;
      }
      ghost var claimed := store.Contents();
      var version := store.runs[runId].version;
      if turn.reply.CallsTool? {
        failed := CallTool(runId, version, turn);
        AdvancedBy(start, claimed, store.Contents(), runId);
        return;
      }
      refused := AcceptDecision(runId, version, turn.reply.answer, turn.answeredAt);
      if refused.None? {
        AcceptAnswerKeeps(claimed, runId, version, turn.reply.answer, turn.answeredAt);
        AdvancedBy(start, claimed, store.Contents(), runId);
      }
      failed := refused.Some?;
    }

    /** Drives a run until it stops. A caller that does not own the run is refused and changes nothing;
        otherwise the model is asked at most as often as the run has iterations left, and the run is
        never left running. */
    method Drive(runId: RunId, expected: nat, turns: nat -> Turn) returns (refused: Option<Rule>, asked: nat)
      requires Inv(store.Contents())
      requires forall k :: turns(k).reply.CallsTool? ==> turns(k).reply.action.run == runId
      modifies store
      ensures refused.Some? ==> store.Contents() == old(store.Contents()) && asked == 0
      ensures refused.None? <==>
                && runId in old(store.runs)
                && old(store.runs)[runId].version == expected
                && old(store.runs)[runId].status == Running
                && !old(store.runs)[runId].pending
      ensures refused.None? ==>
                && Advanced(old(store.Contents()), store.Contents(), runId)
                && store.runs[runId].status != Running
                && (store.runs[runId].status == Succeeded ==>
                     ConsequencesResolved(store.governed, store.receipts, runId))
      ensures refused.None? && asked > 0 ==>
                asked + old(store.runs)[runId].iteration <= old(store.runs)[runId].maxIterations
    {
      asked := 0;
      if runId !in store.runs {
        return Some(NotFound), 0;
      }
      var run := store.runs[runId];
      if run.version != expected {
        return Some(VersionConflict), 0;
      }
      if run.status != Running || run.pending {
        return Some(RunNotAvailable), 0;
      }
      ghost var start := store.Contents();
      EvolvesReflexive(start);
      while asked + run.iteration < run.maxIterations
        invariant Advanced(start, store.Contents(), runId)
        invariant asked > 0 ==> asked + run.iteration <= run.maxIterations
        decreases run.maxIterations - asked
      {
        ghost var before := store.Contents();
        var failed := Iterate(runId, turns(asked));
        AdvancedBy(start, before, store.Contents(), runId);
        asked := asked + 1;
        if failed {
          break;
        }
        if store.runs[runId].status != Running {
          return None, asked;
        }
      }
      ghost var last := store.Contents();
      Fail(runId, false);
      AdvancedBy(start, last, store.Contents(), runId);
      return None, asked;
    }
  }
}
