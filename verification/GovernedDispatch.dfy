/** What it takes to dispatch a governed write: a request that passes its guards is claimed and enters. */
module GovernedDispatch {
  import opened Prelude
  import opened GovernedRecords
  import opened GovernedCommands
  import opened GovernedInvariants
  import opened GovernedPreservation
  import opened GovernedWorld
  import opened GovernedWorldInvariants
  import opened GovernedWorldPreservation
  import opened GovernedSafety
  import opened GovernedBindings

  /** What an invocation asks for. */
  datatype Request = Request(run: RunId, action: Action, expected: nat, orgOk: bool)

  /** The request would enter the executor of a governed write now, were it not for the mode and the holds. */
  predicate ReadyToDispatch(db: Db, r: Request, now: int) {
    && InvokeGuard(db, r.run, r.action, r.expected, now).None?
    && var authorized := Authorize(db, db.runs[r.run], r.action, r.orgOk, now);
    && authorized.Proceed?
    && authorized.tool.kind == SendFixtureMessage
    && !BudgetSpent(db, db.runs[r.run], r.action.tool)
  }

  // ---------- A ready request is dispatched ----------

  lemma ReadyRecord(db: Db, r: Request, now: int)
    requires Inv(db) && Keyed(db.registry) && ReadyToDispatch(db, r, now)
    ensures var authorized := Authorize(db, db.runs[r.run], r.action, r.orgOk, now);
      && authorized.db == db.(governed := authorized.db.governed)
      && r.action.id in authorized.db.governed
      && authorized.db.governed[r.action.id].Executable(now)
      && RecordBound(authorized.db.actions, r.action.id, authorized.db.governed[r.action.id])
      && db.runs[r.run].id == r.run
      && r.action.id in db.actions && db.actions[r.action.id] == r.action && r.action.run == r.run
      && authorized.tool.risk != ReadOnly
      && authorized.tool.grant in db.runs[r.run].definition.allowedTools
  {
    var run := db.runs[r.run];
    GuardPassed(db, r.run, r.action, r.expected, now);
    AuthorizeKeeps(db, run, r.action, r.orgOk, now);
    AuthorizedUnder(db, run, r.action, r.orgOk, now);
    ProceedsExecutable(db, run, r.action, r.orgOk, now);
    BoundRecord(Authorize(db, run, r.action, r.orgOk, now).db, r.action.id);
  }

  lemma ProceedsExecutable(db: Db, run: AgentRun, action: Action, orgOk: bool, now: int)
    requires Authorize(db, run, action, orgOk, now).Proceed?
    requires Authorize(db, run, action, orgOk, now).tool.kind == SendFixtureMessage
    ensures var authorized := Authorize(db, run, action, orgOk, now);
      action.id in authorized.db.governed && authorized.db.governed[action.id].Executable(now)
  {
  }

  lemma NoCallYet(db: Db, r: Request, now: int)
    requires CallsInv(db.runs, db.actions, db.invocations) && RunsInv(db.runs, db.parents, db.actions)
    requires InvokeGuard(db, r.run, r.action, r.expected, now).None?
    ensures !ActionInvoked(db, r.action.id)
  {
    InvokedIsPrior(db, r.action.id);
  }

  lemma InvokedIsPrior(db: Db, action: ActionId)
    requires CallsInv(db.runs, db.actions, db.invocations) && action in db.actions
    ensures ActionInvoked(db, action) ==> PriorCalls(db, db.actions[action].run, action) != {}
  {
    if ActionInvoked(db, action) {
      var i :| i in db.invocations && db.invocations[i].action == action;
      assert CallBound(db.runs, db.actions, i, db.invocations[i]);
      assert i in PriorCalls(db, db.actions[action].run, action);
    }
  }

  lemma ClaimedRecordSaves(db: Db, action: ActionId, id: InvocationId, now: int)
    requires action in db.governed && db.governed[action].Executable(now)
    requires RecordBound(db.actions, action, db.governed[action])
    requires db.governed[action].intent.run in db.runs
    ensures ClaimRecord(db, action, id, now).Done?
  {
    assert WithClaim(db.governed[action], id).WellFormed();
  }

  /** The claim of an executable record in normal mode is not refused. */
  lemma DispatchClaims(
    db: Db, run: AgentRun, action: Action, tool: ToolVersion, revision: nat, id: InvocationId, now: int)
    requires run.id in db.runs && db.runs[run.id] == run
    requires action.id in db.actions && db.actions[action.id] == action && action.run == run.id
    requires action.id in db.governed && db.governed[action.id].Executable(now)
    requires RecordBound(db.actions, action.id, db.governed[action.id])
    requires tool.kind == SendFixtureMessage && tool.grant in run.definition.allowedTools
    requires !BudgetSpent(db, run, action.tool) && !ActionInvoked(db, action.id) && id !in db.invocations
    requires ActiveParents(db, run.id).Some? && db.mode == Normal && action.id !in db.holds
    ensures var result := Dispatch(db, run, action, tool, revision, id, now);
      && result.Claimed? && result.invocation.id == id
      && result.invocation.action == action.id && result.invocation.Consequential()
  {
    var claimed := run.Evolve(run.status, run.pending);
    var call := NewInvocation(id, claimed, action, tool, ActiveParents(db, run.id).value, revision, now);
    var moved := PutRun(db, claimed);
    assert !ActionInvoked(moved, action.id) by {
      assert ActionInvoked(moved, action.id) ==> ActionInvoked(db, action.id);
    }
    assert AddInvocation(moved, call).Done?;
    ClaimedRecordSaves(AddInvocation(moved, call).db, action.id, id, now);
  }

  lemma BoundRecord(db: Db, a: ActionId)
    requires Inv(db) && a in db.governed
    ensures RecordBound(db.actions, a, db.governed[a])
  {
  }

  lemma ReadyCalls(db: Db, db1: Db, r: Request, now: int)
    requires CallsInv(db.runs, db.actions, db.invocations) && RunsInv(db.runs, db.parents, db.actions)
    requires ReadyToDispatch(db, r, now) && db1 == db.(governed := db1.governed)
    ensures !BudgetSpent(db1, db.runs[r.run], r.action.tool) && !ActionInvoked(db1, r.action.id)
    ensures db.runs[r.run].id == r.run && ActiveParents(db1, r.run).Some?
  {
    SameCalls(db, db1, r);
    NoCallYet(db, r, now);
  }

  lemma ReadyClaims(db: Db, r: Request, id: InvocationId, now: int)
    requires Inv(db) && Keyed(db.registry) && ReadyToDispatch(db, r, now)
    requires MayDispatch(db, r.action.id) && id !in db.invocations
    ensures var result := Invoke(db, r.run, r.action, r.expected, r.orgOk, id, now);
      && result.Claimed? && result.invocation.id == id
      && result.invocation.action == r.action.id && result.invocation.Consequential()
  {
    var run := db.runs[r.run];
    var authorized := Authorize(db, run, r.action, r.orgOk, now);
    ReadyRecord(db, r, now);
    ReadyCalls(db, authorized.db, r, now);
    DispatchClaims(authorized.db, run, r.action, authorized.tool, authorized.revision, id, now);
  }

  /** Counting calls looks at the calls alone. */
  lemma SameCalls(x: Db, y: Db, r: Request)
    requires x.invocations == y.invocations
    ensures PriorCalls(x, r.run, r.action.id) == PriorCalls(y, r.run, r.action.id)
    ensures ActionInvoked(x, r.action.id) == ActionInvoked(y, r.action.id)
    ensures forall run: AgentRun, tool :: BudgetSpent(x, run, tool) == BudgetSpent(y, run, tool)
  {
    forall run: AgentRun, tool ensures BudgetSpent(x, run, tool) == BudgetSpent(y, run, tool) {
      assert RunInvocations(x, run.id) == RunInvocations(y, run.id);
      assert ToolInvocations(x, run.id, tool) == ToolInvocations(y, run.id, tool);
    }
  }

  // ---------- A claim that enters its executor ----------

  /** A second call may be claimed beside the first: same families, one entry more. */
  ghost predicate Dispatched(w: World, w': World, d: DbId, a: ActionId) {
    && w'.clock == w.clock && w'.origin == w.origin && w'.source == w.source
    && w.dbs.Keys <= w'.dbs.Keys
    && (forall c | c in w.dbs && c != d :: w'.dbs[c] == w.dbs[c])
    && |w'.entries| == |w.entries| + 1
    && w'.entries[..|w.entries|] == w.entries
    && var entry := w'.entries[|w.entries|];
    && entry.db == d && entry.call.Consequential() && entry.call.action == a
  }

  lemma FreshCall(calls: map<InvocationId, Call>) returns (id: InvocationId)
    ensures id !in calls
  {
    id := FreshAbove(calls.Keys);
  }

  lemma FreshAbove(ids: set<nat>) returns (id: nat)
    ensures forall i | i in ids :: i < id
  {
    if ids == {} {
      id := 0;
    } else {
      var i :| i in ids;
      var above := FreshAbove(ids - {i});
      id := if above > i then above else i + 1;
      forall k | k in ids ensures k < id {
        assert k != i ==> k in ids - {i};
      }
    }
  }

  lemma InvokeThenEnter(w: World, d: DbId, r: Request, id: InvocationId)
    requires d in w.dbs && id !in w.calls
    requires var result := Invoke(w.dbs[d], r.run, r.action, r.expected, r.orgOk, id, w.clock);
      && result.Claimed? && result.invocation.id == id
      && result.invocation.action == r.action.id && result.invocation.Consequential()
    ensures var w' := StepEnter(StepInvoke(w, d, r.run, r.action, r.expected, r.orgOk, id), id);
      Dispatched(w, w', d, r.action.id) && id in w'.calls && w'.calls == w.calls[id := w'.calls[id]]
  {
    var result := Invoke(w.dbs[d], r.run, r.action, r.expected, r.orgOk, id, w.clock);
    EnterClaimed(w, d, result.db, result.invocation);
  }

  lemma EnterClaimed(w: World, d: DbId, db: Db, call: Invocation)
    requires d in w.dbs && call.id !in w.calls && call.Consequential()
    ensures var w' := StepEnter(AfterClaim(w, d, db, call), call.id);
      Dispatched(w, w', d, call.action) && call.id in w'.calls && w'.calls == w.calls[call.id := w'.calls[call.id]]
  {
  }

  lemma TwoSteps(w: World, e: Event, f: Event)
    ensures Exec(w, [e, f]) == Step(Step(w, e), f)
  {
    assert [e, f][..1] == [e];
    OneStep(w, e);
  }

  ghost predicate KeepsCalls(x: map<InvocationId, Call>, y: map<InvocationId, Call>) {
    forall i | i in x :: i in y && y[i] == x[i]
  }

  ghost predicate CanDispatch(w: World, d: DbId, r: Request) {
    && d in w.dbs && Inv(w.dbs[d]) && Keyed(w.dbs[d].registry) && Tracked(w.calls, w.dbs[d].invocations)
    && ReadyToDispatch(w.dbs[d], r, w.clock) && MayDispatch(w.dbs[d], r.action.id)
  }

  lemma DispatchesIn(w: World, d: DbId, r: Request) returns (later: seq<Event>)
    requires CanDispatch(w, d, r)
    ensures Dispatched(w, Exec(w, later), d, r.action.id) && KeepsCalls(w.calls, Exec(w, later).calls)
  {
    var id := FreshCall(w.calls);
    ReadyClaims(w.dbs[d], r, id, w.clock);
    later := DispatchedBy(w, d, r, id);
  }

  lemma DispatchedBy(w: World, d: DbId, r: Request, id: InvocationId) returns (later: seq<Event>)
    requires d in w.dbs && id !in w.calls
    requires var result := Invoke(w.dbs[d], r.run, r.action, r.expected, r.orgOk, id, w.clock);
      && result.Claimed? && result.invocation.id == id
      && result.invocation.action == r.action.id && result.invocation.Consequential()
    ensures Dispatched(w, Exec(w, later), d, r.action.id) && KeepsCalls(w.calls, Exec(w, later).calls)
  {
    var invoke, enter := InvokeTool(d, r.run, r.action, r.expected, r.orgOk, id), EnterExecutor(id);
    InvokeThenEnter(w, d, r, id);
    TwoSteps(w, invoke, enter);
    later := [invoke, enter];
  }
}
