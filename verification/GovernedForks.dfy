/** What a snapshot protects: an action can be dispatched twice by the family of a snapshot exactly
    when its database held no intent for the action at the time.
  */
module GovernedForks {
  import opened Prelude
  import opened GovernedRecords
  import opened GovernedCommands
  import opened GovernedInvariants
  import opened GovernedPreservation
  import opened GovernedWorld
  import opened GovernedWorldInvariants
  import opened GovernedWorldPreservation
  import opened GovernedSafety
  import opened GovernedBindings
  import opened GovernedDispatch
  import opened GovernedApproval

  // ---------- A released fork ----------

  function Released(snapshot: Db): Db { Restored(snapshot).(mode := Normal) }

  lemma ReleaseSucceedsAtOnce(snapshot: Db)
    ensures Release(Restored(snapshot), true, true, true) == Released(snapshot)
  {
  }

  /** Mode, holds and incidents decide neither guard nor authorization. */
  lemma ReadyInFork(db: Db, r: Request, now: int)
    requires Dispatchable(db, r, now)
    ensures ReadyToDispatch(db, r, now) ==> ReadyToDispatch(Released(db), r, now)
    ensures AwaitsApproval(db, r, now) ==> AwaitsApproval(Released(db), r, now)
  {
    SameCalls(db, Released(db), r);
    GuardInFork(db, r, now);
    AuthorizedInFork(db, db.runs[r.run], r.action, r.orgOk, now);
  }

  lemma GuardInFork(db: Db, r: Request, now: int)
    requires InvokeGuard(db, r.run, r.action, r.expected, now).None?
    ensures InvokeGuard(Released(db), r.run, r.action, r.expected, now).None?
  {
    SameCalls(db, Released(db), r);
  }

  lemma PreparedInFork(db: Db, run: AgentRun, action: Action, tool: ToolVersion, orgOk: bool, now: int)
    requires action.args.FixtureMessage? && Prepare(db, run, action, tool, orgOk, now).Done?
    ensures var x, y := Prepare(db, run, action, tool, orgOk, now),
      Prepare(Released(db), run, action, tool, orgOk, now);
      y.Done? && y.db.governed == x.db.governed
  {
  }

  lemma AuthorizedInFork(db: Db, run: AgentRun, action: Action, orgOk: bool, now: int)
    requires !Authorize(db, run, action, orgOk, now).Reject?
    ensures var x, y := Authorize(db, run, action, orgOk, now), Authorize(Released(db), run, action, orgOk, now);
      (x.Wait? ==> y.Wait?) && (x.Proceed? ==> y.Proceed? && y.tool == x.tool)
  {
    var entry := db.registry[FirstGrant(run.definition.allowedTools, action.tool).value];
    if entry.version.kind == SendFixtureMessage {
      PreparedInFork(db, run, action, entry.version, orgOk, now);
    }
  }

  // ---------- Both forks dispatch ----------

  function WithFork(w: World, s: SnapshotId): World
    requires s in w.snapshots
  {
    w.(dbs := w.dbs[w.next := Released(w.snapshots[s])], origin := w.origin[w.next := s], next := w.next + 1)
  }

  const RELEASE := ReleaseCmd(true, true, true)

  lemma ReleaseStep(w: World, d: DbId, snapshot: Db)
    requires d in w.dbs && w.dbs[d] == Restored(snapshot)
    ensures Step(w, Do(d, RELEASE)) == w.(dbs := w.dbs[d := Released(snapshot)])
  {
    ReleaseSucceedsAtOnce(snapshot);
    assert Apply(w.dbs[d], RELEASE, w.clock) == Done(Released(snapshot));
  }

  lemma ForkAndRelease(w: World, s: SnapshotId)
    requires s in w.snapshots
    ensures Exec(w, [RestoreFrom(s), Do(w.next, RELEASE)]) == WithFork(w, s)
  {
    TwoSteps(w, RestoreFrom(s), Do(w.next, RELEASE));
    ForkThenRelease(w, s);
  }

  lemma ForkThenRelease(w: World, s: SnapshotId)
    requires s in w.snapshots
    ensures Step(Step(w, RestoreFrom(s)), Do(w.next, RELEASE)) == WithFork(w, s)
  {
    var restored := StepFork(w, s);
    ReleaseStep(restored, w.next, w.snapshots[s]);
    assert restored.dbs[w.next := Released(w.snapshots[s])] == WithFork(w, s).dbs;
  }

  lemma TwoForks(w: World, s: SnapshotId) returns (later: seq<Event>)
    requires s in w.snapshots
    ensures Exec(w, later) == WithFork(WithFork(w, s), s)
  {
    var first := [RestoreFrom(s), Do(w.next, RELEASE)];
    var second := [RestoreFrom(s), Do(w.next + 1, RELEASE)];
    ForkAndRelease(w, s);
    ForkAndRelease(WithFork(w, s), s);
    ExecSplit(w, first, second);
    later := first + second;
  }

  /** A released copy of a database without the intent can dispatch the action like its original. */
  lemma ReleasedMayDispatch(db: Db, r: Request, now: int)
    requires Inv(db) && BindingsInv(db) && Dispatchable(db, r, now) && r.action.id !in db.governed
    ensures Inv(Released(db)) && Keyed(Released(db).registry) && Dispatchable(Released(db), r, now)
    ensures MayDispatch(Released(db), r.action.id)
  {
    ReadyInFork(db, r, now);
    RestoredInv(db);
    var copy := Restored(db);
    SettingsKeep(copy, copy.registry, copy.policy, Normal);
    assert copy.(registry := copy.registry, policy := copy.policy, mode := Normal) == Released(db);
  }

  /** An entry into the executor of this action, by some database of the snapshot's family. */
  ghost predicate FamilyEntry(w: World, s: SnapshotId, a: ActionId, k: nat) {
    && k < |w.entries|
    && w.entries[k].call.Consequential()
    && w.entries[k].call.action == a
    && Family(w, s, w.entries[k].db)
  }

  ghost predicate DispatchedTwice(w: World, s: SnapshotId, a: ActionId) {
    exists j, k :: j < k && FamilyEntry(w, s, a, j) && FamilyEntry(w, s, a, k)
  }

  /** One database's dispatch leaves the other free to do the same. */
  lemma OtherCanReach(w: World, w': World, d: DbId, other: DbId, r: Request)
    requires CanReach(w, other, r) && other != d
    requires Dispatched(w, w', d, r.action.id) && KeepsCalls(w.calls, w'.calls)
    ensures CanReach(w', other, r)
  {
    assert w'.dbs[other] == w.dbs[other];
    assert Tracked(w'.calls, w.dbs[other].invocations);
  }

  lemma BothDispatch(w: World, fork: DbId, other: DbId, r: Request) returns (later: seq<Event>)
    requires CanReach(w, fork, r) && CanReach(w, other, r) && fork != other
    ensures exists w1 :: Dispatched(w, w1, fork, r.action.id) && Dispatched(w1, Exec(w, later), other, r.action.id)
  {
    var first := ReachesIn(w, fork, r);
    var w1 := Exec(w, first);
    OtherCanReach(w, w1, fork, other, r);
    var second := ReachesIn(w1, other, r);
    ExecSplit(w, first, second);
    later := first + second;
  }

  lemma DispatchesAreTwo(w: World, w1: World, w2: World, fork: DbId, other: DbId, s: SnapshotId, a: ActionId)
    requires Dispatched(w, w1, fork, a) && Dispatched(w1, w2, other, a)
    requires fork in w.origin && other in w.origin && w.origin[fork] == w.origin[other] == s
    ensures DispatchedTwice(w2, s, a) && |w2.entries| == |w.entries| + 2
  {
    FamilyOfForks(w2, s, fork);
    FamilyOfForks(w2, s, other);
    assert w2.entries[|w.entries|] == w1.entries[|w.entries|];
    assert FamilyEntry(w2, s, a, |w.entries|) && FamilyEntry(w2, s, a, |w.entries| + 1);
  }

  lemma CopyCanReach(w: World, d: DbId, snapshot: Db, r: Request)
    requires d in w.dbs && w.dbs[d] == Released(snapshot)
    requires Dispatchable(snapshot, r, w.clock) && Tracked(w.calls, snapshot.invocations)
    requires Inv(snapshot) && BindingsInv(snapshot) && r.action.id !in snapshot.governed
    ensures CanReach(w, d, r)
  {
    ReleasedMayDispatch(snapshot, r, w.clock);
  }

  lemma BothAreTwo(w: World, w2: World, fork: DbId, other: DbId, s: SnapshotId, a: ActionId)
    requires exists w1 :: Dispatched(w, w1, fork, a) && Dispatched(w1, w2, other, a)
    requires fork in w.origin && other in w.origin && w.origin[fork] == w.origin[other] == s
    ensures DispatchedTwice(w2, s, a) && |w2.entries| == |w.entries| + 2
  {
    var w1 :| Dispatched(w, w1, fork, a) && Dispatched(w1, w2, other, a);
    DispatchesAreTwo(w, w1, w2, fork, other, s, a);
  }

  lemma CopiesDispatch(w: World, fork: DbId, other: DbId, s: SnapshotId, snapshot: Db, r: Request)
    returns (later: seq<Event>)
    requires fork in w.dbs && other in w.dbs && fork != other && w.dbs[fork] == w.dbs[other] == Released(snapshot)
    requires fork in w.origin && other in w.origin && w.origin[fork] == w.origin[other] == s
    requires Dispatchable(snapshot, r, w.clock) && Tracked(w.calls, snapshot.invocations)
    requires Inv(snapshot) && BindingsInv(snapshot) && r.action.id !in snapshot.governed
    ensures DispatchedTwice(Exec(w, later), s, r.action.id) && |Exec(w, later).entries| == |w.entries| + 2
  {
    CopyCanReach(w, fork, snapshot, r);
    CopyCanReach(w, other, snapshot, r);
    later := BothDispatch(w, fork, other, r);
    BothAreTwo(w, Exec(w, later), fork, other, s, r.action.id);
  }

  lemma Forked(w: World, s: SnapshotId) returns (forked: World)
    requires s in w.snapshots
    ensures forked == WithFork(WithFork(w, s), s) && forked.clock == w.clock && forked.calls == w.calls
    ensures w.next in forked.dbs && forked.dbs[w.next] == Released(w.snapshots[s])
    ensures w.next + 1 in forked.dbs && forked.dbs[w.next + 1] == Released(w.snapshots[s])
    ensures w.next in forked.origin && w.next + 1 in forked.origin
    ensures forked.origin[w.next] == forked.origin[w.next + 1] == s
  {
    forked := WithFork(WithFork(w, s), s);
  }

  lemma TwoForksDispatch(w: World, s: SnapshotId, snapshot: Db, r: Request) returns (later: seq<Event>)
    requires s in w.snapshots && w.snapshots[s] == snapshot
    requires Dispatchable(snapshot, r, w.clock) && Tracked(w.calls, snapshot.invocations)
    requires Inv(snapshot) && BindingsInv(snapshot) && r.action.id !in snapshot.governed
    ensures DispatchedTwice(Exec(w, later), s, r.action.id) && |Exec(w, later).entries| == |w.entries| + 2
  {
    var forked := Forked(w, s);
    var forking := TwoForks(w, s);
    var dispatching := CopiesDispatch(forked, w.next, w.next + 1, s, snapshot, r);
    ExecSplit(w, forking, dispatching);
    later := forking + dispatching;
  }

  lemma FamilyOfForks(w: World, s: SnapshotId, d: DbId)
    requires d in w.origin && w.origin[d] == s
    ensures Family(w, s, d)
  {
  }

  // ---------- The exact condition ----------

  lemma SnapshotStays(w: World, d: DbId, later: seq<Event>)
    requires WorldInv(w) && d in w.dbs
    ensures w.next in Exec(StepSnapshot(w, d), later).snapshots
    ensures Exec(StepSnapshot(w, d), later).snapshots[w.next] == w.dbs[d]
  {
    SnapshotKeeps(w, d);
    RunKeeps(StepSnapshot(w, d), later);
  }

  /** What events reach from a world of a run is a world of a run. */
  lemma RunGoesOn(worlds: seq<World>, n: nat, later: seq<Event>) returns (longer: seq<World>)
    requires IsRun(worlds) && n < |worlds|
    ensures IsRun(longer) && longer[|longer| - 1] == Exec(worlds[n], later)
  {
    RunsAreReached(worlds, n);
    var events :| worlds[n] == Exec(GENESIS, events);
    ExecSplit(GENESIS, events, later);
    longer := ReachedAreRuns(events + later);
  }

  lemma HeldIntentOnce(worlds: seq<World>, n: nat, d: DbId, a: ActionId, later: seq<Event>)
    requires IsRun(worlds) && n < |worlds| && d in worlds[n].dbs && a in worlds[n].dbs[d].governed
    ensures !DispatchedTwice(Exec(StepSnapshot(worlds[n], d), later), worlds[n].next, a)
  {
    var s := worlds[n].next;
    var w' := Exec(StepSnapshot(worlds[n], d), later);
    RunInv(worlds, n);
    SnapshotStays(worlds[n], d, later);
    OneStep(worlds[n], TakeSnapshot(d));
    ExecSplit(worlds[n], [TakeSnapshot(d)], later);
    var longer := RunGoesOn(worlds, n, [TakeSnapshot(d)] + later);
    OnceInLast(longer, s, a);
  }

  lemma OnceInLast(worlds: seq<World>, s: SnapshotId, a: ActionId)
    requires IsRun(worlds)
    requires var w := worlds[|worlds| - 1]; s in w.snapshots && a in w.snapshots[s].governed
    ensures !DispatchedTwice(worlds[|worlds| - 1], s, a)
  {
    var last := |worlds| - 1;
    forall j, k | FamilyEntry(worlds[last], s, a, j) && FamilyEntry(worlds[last], s, a, k) ensures j == k {
      DispatchedOnceAcrossForks(worlds, last, s, a, j, k);
    }
  }

  lemma BareActionTwice(worlds: seq<World>, n: nat, d: DbId, r: Request)
    requires IsRun(worlds) && n < |worlds| && d in worlds[n].dbs
    requires Dispatchable(worlds[n].dbs[d], r, worlds[n].clock) && r.action.id !in worlds[n].dbs[d].governed
    ensures exists later :: DispatchedTwice(Exec(StepSnapshot(worlds[n], d), later), worlds[n].next, r.action.id)
  {
    var w := worlds[n];
    DbOfRun(worlds, n, d);
    var later := TwoForksDispatch(StepSnapshot(w, d), w.next, w.dbs[d], r);
  }

  lemma DbOfRun(worlds: seq<World>, n: nat, d: DbId)
    requires IsRun(worlds) && n < |worlds| && d in worlds[n].dbs
    ensures var w := worlds[n];
      Inv(w.dbs[d]) && BindingsInv(w.dbs[d]) && Tracked(w.calls, w.dbs[d].invocations)
  {
    RunInv(worlds, n);
    RunBound(worlds, n);
  }

  /** What a snapshot holds no intent for, its forks may dispatch twice, each with an approval of its own where
      the policy asks for one; what it holds one for, its whole
      family dispatches once at most. */
  lemma TwiceDispatchedIffNoIntent(worlds: seq<World>, n: nat, d: DbId, r: Request)
    requires IsRun(worlds) && n < |worlds| && d in worlds[n].dbs
    requires Dispatchable(worlds[n].dbs[d], r, worlds[n].clock)
    ensures var w := worlds[n];
      (exists later :: DispatchedTwice(Exec(StepSnapshot(w, d), later), w.next, r.action.id))
      <==> r.action.id !in w.dbs[d].governed
  {
    if r.action.id !in worlds[n].dbs[d].governed {
      BareActionTwice(worlds, n, d, r);
    } else {
      forall later ensures !DispatchedTwice(Exec(StepSnapshot(worlds[n], d), later), worlds[n].next, r.action.id) {
        HeldIntentOnce(worlds, n, d, r.action.id, later);
      }
    }
  }
}
