/** Runs that show where stronger claims would fail. */
module GovernedWitnesses {
  import opened Prelude
  import opened GovernedRecords
  import opened GovernedCommands
  import opened GovernedWorld
  import opened GovernedInvariants
  import opened GovernedPreservation
  import opened GovernedWorldInvariants
  import opened GovernedSafety
  import opened GovernedBindings
  import opened GovernedDispatch
  import opened GovernedApproval
  import opened GovernedForks

  const GRANT := Grant(1, 1)
  const TOOL := ToolVersion(GRANT, SendFixtureMessage, ExternalWrite)
  const POLICY := Policy(1, {GRANT}, {"crm"}, {7}, true, true, 600)
  const DEFINITION := Definition([GRANT], true, true, 3)
  const RUN := AgentRun(0, DEFINITION, 1000, 5, 5, 5, 1, Running, false, 0)
  const CLAIMED_ITERATION := AgentRun(0, DEFINITION, 1000, 5, 5, 5, 2, Running, true, 1)
  const PARENTS := Parents(1, 1, 1, 1, true, true, true, ExecutionRunning)
  const ACTION := Action(0, 0, 1, 1, FixtureMessage("crm", "hello"))
  const ENTRY := Registration(TOOL, true, 1)

  const SETUP: seq<Event> := [
    Do(0, AddRunCmd(RUN, PARENTS)),
    Do(0, PublishPolicyCmd(POLICY)),
    Do(0, SetRegistrationCmd(ENTRY)),
    Do(0, BeginIterationCmd(0)),
    Do(0, AppendActionCmd(ACTION, 2))]

  /** The database once the action is committed and its intent is not. */
  const READY := Db(
    map[0 := CLAIMED_ITERATION], map[0 := PARENTS], map[0 := ACTION], map[GRANT := ENTRY], Some(POLICY),
    map[], map[], map[], [], Normal, {}, 0)

  lemma Extends(events: seq<Event>, w: World, e: Event, w': World)
    requires Exec(GENESIS, events) == w && Step(w, e) == w'
    ensures Exec(GENESIS, events + [e]) == w'
  {
    assert (events + [e])[..|events + [e]| - 1] == events;
  }

  function Alone(db: Db): World { GENESIS.(dbs := map[0 := db]) }

  lemma CommandReaches(events: seq<Event>, db: Db, cmd: Command, db': Db)
    requires Exec(GENESIS, events) == Alone(db) && Apply(db, cmd, 0) == Done(db')
    ensures Exec(GENESIS, events + [Do(0, cmd)]) == Alone(db')
  {
    assert StepDo(Alone(db), 0, cmd) == Alone(db');
    Extends(events, Alone(db), Do(0, cmd), Alone(db'));
  }

  lemma SetupCommands()
    ensures Apply(EMPTY_DB, SETUP[0].cmd, 0) == Done(STARTED)
    ensures Apply(STARTED, SETUP[1].cmd, 0) == Done(GOVERNED)
    ensures Apply(GOVERNED, SETUP[2].cmd, 0) == Done(CONFIGURED)
    ensures Apply(CONFIGURED, SETUP[3].cmd, 0) == Done(ITERATING)
    ensures Apply(ITERATING, SETUP[4].cmd, 0) == Done(READY)
  {
  }

  const STARTED := EMPTY_DB.(runs := map[0 := RUN], parents := map[0 := PARENTS])
  const GOVERNED := STARTED.(policy := Some(POLICY))
  const CONFIGURED := GOVERNED.(registry := map[GRANT := ENTRY])
  const ITERATING := CONFIGURED.(runs := map[0 := CLAIMED_ITERATION])

  lemma Configured()
    ensures Exec(GENESIS, SETUP[..3]) == Alone(CONFIGURED)
  {
    SetupCommands();
    assert Exec(GENESIS, []) == Alone(EMPTY_DB);
    CommandReaches([], EMPTY_DB, SETUP[0].cmd, STARTED);
    assert SETUP[..1] == [] + [SETUP[0]];
    CommandReaches(SETUP[..1], STARTED, SETUP[1].cmd, GOVERNED);
    assert SETUP[..2] == SETUP[..1] + [SETUP[1]];
    CommandReaches(SETUP[..2], GOVERNED, SETUP[2].cmd, CONFIGURED);
    assert SETUP[..3] == SETUP[..2] + [SETUP[2]];
  }

  lemma SetupReached()
    ensures Exec(GENESIS, SETUP) == Alone(READY)
  {
    SetupCommands();
    Configured();
    CommandReaches(SETUP[..3], CONFIGURED, SETUP[3].cmd, ITERATING);
    assert SETUP[..4] == SETUP[..3] + [SETUP[3]];
    CommandReaches(SETUP[..4], ITERATING, SETUP[4].cmd, READY);
    assert SETUP == SETUP[..4] + [SETUP[4]];
  }

  lemma NothingInvoked(db: Db)
    requires db.invocations == map[]
    ensures PriorCalls(db, 0, 0) == {} && !ActionInvoked(db, 0)
    ensures forall run: AgentRun | run.id == 0 && run.maxToolCalls > 0 && run.maxCallsPerTool > 0 ::
      !BudgetSpent(db, run, 1)
  {
    forall run: AgentRun | run.id == 0 && run.maxToolCalls > 0 && run.maxCallsPerTool > 0
      ensures !BudgetSpent(db, run, 1)
    {
      assert RunInvocations(db, run.id) == {} && ToolInvocations(db, run.id, 1) == {};
    }
  }

  /** The ready database is one a run reaches, so it is sound. */
  lemma ReadyIsSound() returns (worlds: seq<World>)
    ensures IsRun(worlds) && |worlds| > 0 && worlds[|worlds| - 1] == Alone(READY)
    ensures WorldInv(Alone(READY)) && Inv(READY) && BindingsInv(READY)
  {
    SetupReached();
    worlds := ReachedAreRuns(SETUP);
    RunInv(worlds, |worlds| - 1);
    RunBound(worlds, |worlds| - 1);
    assert Alone(READY).dbs[0] == READY;
  }

  const REQUEST := Request(0, ACTION, 2, true)

  lemma ReadyRequest()
    ensures ReadyToDispatch(READY, REQUEST, 0)
  {
    NothingInvoked(READY);
    assert FirstGrant([GRANT], 1) == Some(GRANT);
  }

  lemma ReadyCanDispatch()
    ensures CanDispatch(Alone(READY), 0, REQUEST)
  {
    var worlds := ReadyIsSound();
    ReadyRequest();
  }

  // ---------- A snapshot between action and intent ----------

  /** Two entries in all, both of this action by the family of a snapshot of this database. */
  ghost predicate ForkedTwice(w: World, s: SnapshotId, db: Db, a: ActionId) {
    && s in w.snapshots && w.snapshots[s] == db
    && |w.entries| == 2 && FamilyEntry(w, s, a, 0) && FamilyEntry(w, s, a, 1)
  }

  lemma TwiceAfterSnapshot(w: World, d: DbId, r: Request) returns (later: seq<Event>)
    requires WorldInv(w) && d in w.dbs && BindingsInv(w.dbs[d]) && w.entries == []
    requires Dispatchable(w.dbs[d], r, w.clock) && r.action.id !in w.dbs[d].governed
    ensures ForkedTwice(Exec(StepSnapshot(w, d), later), w.next, w.dbs[d], r.action.id)
  {
    assert Inv(w.dbs[d]) && Tracked(w.calls, w.dbs[d].invocations);
    later := TwoForksDispatch(StepSnapshot(w, d), w.next, w.dbs[d], r);
    SnapshotStays(w, d, later);
    EntriesOfTwo(Exec(StepSnapshot(w, d), later), w.next, r.action.id);
  }

  lemma ReachedBy(events: seq<Event>, w: World, d: DbId, later: seq<Event>) returns (longer: seq<Event>)
    requires Exec(GENESIS, events) == w
    ensures Exec(GENESIS, longer) == Exec(StepSnapshot(w, d), later)
  {
    Extends(events, w, TakeSnapshot(d), StepSnapshot(w, d));
    ExecSplit(GENESIS, events + [TakeSnapshot(d)], later);
    longer := events + [TakeSnapshot(d)] + later;
  }

  lemma ReadyForkedTwice() returns (events: seq<Event>)
    ensures ForkedTwice(Exec(GENESIS, events), 1, READY, 0)
  {
    SetupReached();
    ReadyRequest();
    var worlds := ReadyIsSound();
    events := ForkedFrom(SETUP, Alone(READY), 0, REQUEST);
  }

  lemma ForkedFrom(events: seq<Event>, w: World, d: DbId, r: Request) returns (longer: seq<Event>)
    requires Exec(GENESIS, events) == w && WorldInv(w) && d in w.dbs && BindingsInv(w.dbs[d]) && w.entries == []
    requires Dispatchable(w.dbs[d], r, w.clock) && r.action.id !in w.dbs[d].governed
    ensures ForkedTwice(Exec(GENESIS, longer), w.next, w.dbs[d], r.action.id)
  {
    var later := TwiceAfterSnapshot(w, d, r);
    longer := ReachedBy(events, w, d, later);
  }

  /** Committed actions are not protected by a snapshot, only intents are: this action, in the snapshot
      without an intent, is dispatched by two forks. */
  lemma BareActionDispatchedTwice()
    ensures exists events, s :: var w := Exec(GENESIS, events);
      && s in w.snapshots && 0 in w.snapshots[s].actions && 0 !in w.snapshots[s].governed
      && |w.entries| == 2
      && w.entries[0].call.Consequential() && w.entries[1].call.Consequential()
      && w.entries[0].call.action == w.entries[1].call.action == 0
      && Family(w, s, w.entries[0].db) && Family(w, s, w.entries[1].db)
  {
    var events := ReadyForkedTwice();
    assert ForkedTwice(Exec(GENESIS, events), 1, READY, 0);
  }

  lemma EntriesOfTwo(w: World, s: SnapshotId, a: ActionId)
    requires DispatchedTwice(w, s, a) && |w.entries| == 2
    ensures FamilyEntry(w, s, a, 0) && FamilyEntry(w, s, a, 1)
  {
  }

  // ---------- A write after the lookup ----------

  lemma LiveAfterClaim(w: World, d: DbId, db: Db, call: Invocation)
    requires d in w.dbs && call.Consequential() && call.id in db.invocations && db.invocations[call.id] == call
    ensures LiveIn(AfterClaim(w, d, db, call), d, call.id)
    ensures AfterClaim(w, d, db, call).ledger == w.ledger
  {
  }

  ghost predicate LiveIn(w: World, d: DbId, i: InvocationId) {
    && i in w.calls && w.calls[i].live && w.calls[i].reply.None? && w.calls[i].claimed.Consequential()
    && d in w.dbs && i in w.dbs[d].invocations && w.dbs[d].invocations[i] == w.calls[i].claimed
  }

  lemma RequestGoesLive(w: World, d: DbId, r: Request, id: InvocationId)
    requires CanDispatch(w, d, r) && id !in w.calls && id !in w.dbs[d].invocations
    ensures var w' := StepInvoke(w, d, r.run, r.action, r.expected, r.orgOk, id);
      LiveIn(w', d, id) && w'.ledger == w.ledger
  {
    ReadyClaims(w.dbs[d], r, id, w.clock);
    InvokeKeeps(w.dbs[d], r.run, r.action, r.expected, r.orgOk, id, w.clock);
    match Invoke(w.dbs[d], r.run, r.action, r.expected, r.orgOk, id, w.clock)
    case Claimed(db, call) => LiveAfterClaim(w, d, db, call);
    case _ =>
  }

  /** A run that ends with one live consequential call the remote has not seen. */
  lemma LiveCall() returns (events: seq<Event>, w: World)
    ensures Exec(GENESIS, events) == w
    ensures 10 in w.calls && w.calls[10].live && w.calls[10].reply.None? && w.calls[10].claimed.Consequential()
    ensures w.calls[10].claimed.Key() !in w.ledger
    ensures 0 in w.dbs && 10 in w.dbs[0].invocations && w.dbs[0].invocations[10] == w.calls[10].claimed
  {
    SetupReached();
    ReadyCanDispatch();
    var invoke := InvokeTool(0, 0, ACTION, 2, true, 10);
    RequestGoesLive(Alone(READY), 0, REQUEST, 10);
    w := StepInvoke(Alone(READY), 0, 0, ACTION, 2, true, 10);
    Extends(SETUP, Alone(READY), invoke, w);
    events := SETUP + [invoke];
  }

  /** Recovery is told the remote received nothing, and then the remote writes. */
  lemma WriteFollowsNeverReceived()
    ensures exists before, after, lookup :: var w := Exec(GENESIS, before);
      && lookup in w.lookups && lookup.found == RemoteLookup(NeverReceived, None)
      && lookup.seen.Key() !in w.ledger
      && lookup.seen.Key() in Exec(w, after).ledger
  {
    var events, w := LiveCall();
    var look := LookUp(0, 10, false);
    var w' := StepLookUp(w, 0, 10, false);
    Extends(events, w, look, w');
    WriteAfterLookup(w', 10);
    assert Lookup(w.calls[10].claimed, RemoteLookup(NeverReceived, None)) in Exec(GENESIS, events + [look]).lookups;
  }
}
