/** Safety of governed writes over every run. */
module GovernedSafety {
  import opened Prelude
  import opened GovernedRecords
  import opened GovernedCommands
  import opened GovernedInvariants
  import opened GovernedPreservation
  import opened GovernedWorld
  import opened GovernedWorldInvariants
  import opened GovernedWorldPreservation

  // ---------- Runs: any interleaving of commands, live callers, slow executors, recovery, crashes,
  // snapshots and restores ----------

  lemma StepExtends(worlds: seq<World>, k: nat)
    requires IsRun(worlds) && k + 1 < |worlds| && WorldInv(worlds[k])
    ensures WorldInv(worlds[k + 1]) && WorldEvolves(worlds[k], worlds[k + 1])
  {
    assert StepAt(worlds, k);
    var e :| worlds[k + 1] == Step(worlds[k], e);
    StepKeeps(worlds[k], e);
  }

  lemma {:induction false} RunInv(worlds: seq<World>, n: nat)
    requires IsRun(worlds) && n < |worlds|
    ensures WorldInv(worlds[n])
  {
    if n == 0 {
      GenesisInv();
    } else {
      RunInv(worlds, n - 1);
      StepExtends(worlds, n - 1);
    }
  }

  /** Every world of a run extends all those before it. */
  lemma {:induction false} RunExtends(worlds: seq<World>, m: nat, n: nat)
    requires IsRun(worlds) && m <= n < |worlds|
    ensures WorldInv(worlds[m]) && WorldInv(worlds[n]) && WorldEvolves(worlds[m], worlds[n])
    decreases n - m
  {
    RunInv(worlds, m);
    if m == n {
      WorldEvolvesReflexive(worlds[m]);
    } else {
      RunExtends(worlds, m, n - 1);
      StepExtends(worlds, n - 1);
      WorldEvolvesTransitive(worlds[m], worlds[n - 1], worlds[n]);
    }
  }

  /** The worlds of runs are exactly what sequences of events reach: this way, */
  lemma {:induction false} RunsAreReached(worlds: seq<World>, n: nat)
    requires IsRun(worlds) && n < |worlds|
    ensures exists events :: worlds[n] == Exec(GENESIS, events)
  {
    if n == 0 {
      assert Exec(GENESIS, []) == GENESIS;
    } else {
      RunsAreReached(worlds, n - 1);
      assert StepAt(worlds, n - 1);
      var e :| worlds[n] == Step(worlds[n - 1], e);
      var events :| worlds[n - 1] == Exec(GENESIS, events);
      assert (events + [e])[..|events|] == events;
      assert Exec(GENESIS, events + [e]) == Step(Exec(GENESIS, events), e);
    }
  }

  /** and that way. */
  lemma {:induction false} ReachedAreRuns(events: seq<Event>) returns (worlds: seq<World>)
    ensures IsRun(worlds) && |worlds| == |events| + 1 && worlds[|events|] == Exec(GENESIS, events)
  {
    if events == [] {
      worlds := [GENESIS];
    } else {
      var last := |events| - 1;
      var before := ReachedAreRuns(events[..last]);
      worlds := before + [Step(before[last], events[last])];
      forall k: nat | k + 1 < |worlds| ensures StepAt(worlds, k) {
        if k < last {
          assert StepAt(before, k);
          var e :| before[k + 1] == Step(before[k], e);
          assert worlds[k + 1] == Step(worlds[k], e);
        } else {
          assert worlds[k + 1] == Step(worlds[k], events[last]);
        }
      }
    }
  }

  lemma {:induction false} ExecSplit(w: World, first: seq<Event>, second: seq<Event>)
    ensures Exec(w, first + second) == Exec(Exec(w, first), second)
    decreases |second|
  {
    if second == [] {
      assert first + second == first;
    } else {
      var rest := second[..|second| - 1];
      ExecSplit(w, first, rest);
      assert (first + second)[..|first + second| - 1] == first + rest;
    }
  }

  // ---------- Forks ----------

  /** Every intent a snapshot contains is held in each database that descends from it. */
  lemma {:induction false} HoldsInherited(w: World, d: DbId, s: SnapshotId)
    requires WorldInv(w) && s in w.snapshots && Descends(w, d, s)
    ensures d in w.dbs && w.snapshots[s].governed.Keys <= w.dbs[d].holds
    decreases d
  {
    assert ForkBound(w.snapshots, d, w.dbs[d], w.origin[d]);
    if w.origin[d] != s {
      var parent := w.source[w.origin[d]];
      HoldsInherited(w, parent, s);
      assert SnapshotBound(w.dbs, w.origin[d], w.snapshots[w.origin[d]], parent);
    }
  }

  /** A restored database never claims an intent its snapshot contained, nor does any later restore of that copy. */
  lemma ForkNeverClaims(worlds: seq<World>, n: nat, s: SnapshotId, i: InvocationId)
    requires IsRun(worlds) && n < |worlds|
    requires var w := worlds[n];
      s in w.snapshots && i in w.claims && Descends(w, w.claims[i].db, s)
    ensures var w := worlds[n];
      w.claims[i].call.action !in w.snapshots[s].governed
  {
    var w := worlds[n];
    RunInv(worlds, n);
    HoldsInherited(w, w.claims[i].db, s);
    assert ClaimSound(w.dbs, w.claims[i]);
  }

  lemma EntryClaimed(w: World, k: nat)
    requires WorldInv(w) && k < |w.entries| && w.entries[k].call.Consequential()
    ensures w.entries[k].call.id in w.claims
    ensures w.claims[w.entries[k].call.id].db == w.entries[k].db
    ensures w.claims[w.entries[k].call.id].call == w.entries[k].call
    ensures ClaimSound(w.dbs, w.claims[w.entries[k].call.id])
  {
    assert EntryBound(w.calls, w.entries[k]);
    assert ClaimLogged(w.calls, w.entries[k].call.id, w.claims[w.entries[k].call.id]);
  }

  lemma OneClaimPerDb(w: World, i: InvocationId, j: InvocationId)
    requires WorldInv(w) && i in w.claims && j in w.claims
    requires w.claims[i].db == w.claims[j].db && w.claims[i].call.action == w.claims[j].call.action
    ensures i == j
  {
    assert ClaimSound(w.dbs, w.claims[i]) && ClaimSound(w.dbs, w.claims[j]);
    var db, a := w.dbs[w.claims[i].db], w.claims[i].call.action;
    assert ClaimLogged(w.calls, i, w.claims[i]) && ClaimLogged(w.calls, j, w.claims[j]);
    assert CallHome(w.dbs, i, w.calls[i]) && CallHome(w.dbs, j, w.calls[j]);
    assert db.governed[a].invocation == Some(i) == Some(j);
  }

  /** Each intent a snapshot contains enters an executor at most once over the original and all its forks. */
  lemma DispatchedOnceAcrossForks(worlds: seq<World>, n: nat, s: SnapshotId, a: ActionId, j: nat, k: nat)
    requires IsRun(worlds) && n < |worlds|
    requires var w := worlds[n];
      && s in w.snapshots && a in w.snapshots[s].governed
      && j < |w.entries| && k < |w.entries|
      && w.entries[j].call.Consequential() && w.entries[k].call.Consequential()
      && w.entries[j].call.action == w.entries[k].call.action == a
      && Family(w, s, w.entries[j].db) && Family(w, s, w.entries[k].db)
    ensures j == k
  {
    var w := worlds[n];
    RunInv(worlds, n);
    EntryClaimed(w, j);
    EntryClaimed(w, k);
    var p, q := w.entries[j].call.id, w.entries[k].call.id;
    if Descends(w, w.entries[j].db, s) {
      ForkNeverClaims(worlds, n, s, p);
    }
    if Descends(w, w.entries[k].db, s) {
      ForkNeverClaims(worlds, n, s, q);
    }
    OneClaimPerDb(w, p, q);
  }

  // ---------- The ledger and the receipts ----------

  /** A recorded outcome is what the remote ledger says, for the same payload. */
  lemma ReceiptsMatchLedger(worlds: seq<World>, n: nat, d: DbId, r: ReceiptId)
    requires IsRun(worlds) && n < |worlds|
    requires var w := worlds[n];
      d in w.dbs && r in w.dbs[d].receipts && w.dbs[d].receipts[r].invocation.Consequential()
    ensures var w := worlds[n];
      var receipt := w.dbs[d].receipts[r];
      var call := receipt.invocation;
      && (receipt.outcome == Observed ==>
            call.Key() in w.ledger && w.ledger[call.Key()] == LedgerRow(call.input, ProcessedSuccess, receipt.output))
      && (receipt.outcome == ObservedFailure ==>
            call.Key() in w.ledger && w.ledger[call.Key()] == LedgerRow(call.input, ProcessedFailure, None))
  {
    var w := worlds[n];
    RunInv(worlds, n);
    assert ReceiptsTruthful(w.ledger, w.dbs[d].receipts);
    assert ReceiptTruthful(w.ledger, w.dbs[d].receipts[r]);
  }

  /** Live reconcile and recovery race for one receipt, which then never changes. */
  lemma OneReceiptPerCall(worlds: seq<World>, m: nat, n: nat, d: DbId, q: ReceiptId, r: ReceiptId)
    requires IsRun(worlds) && m <= n < |worlds|
    requires var w := worlds[m];
      var w' := worlds[n];
      && d in w.dbs && d in w'.dbs && q in w.dbs[d].receipts && r in w'.dbs[d].receipts
      && w.dbs[d].receipts[q].invocation.id == w'.dbs[d].receipts[r].invocation.id
    ensures var w := worlds[m];
      q == r && worlds[n].dbs[d].receipts[r] == w.dbs[d].receipts[q]
  {
    RunExtends(worlds, m, n);
    var w := worlds[m];
    var w' := worlds[n];
    assert Evolves(w.dbs[d], w'.dbs[d]);
    assert Inv(w'.dbs[d]);
  }

  lemma ReceiptOfClaim(w: World, d: DbId, r: ReceiptId)
    requires AllInv(w.dbs) && AllTracked(w.calls, w.dbs) && d in w.dbs && r in w.dbs[d].receipts
    ensures var call := w.dbs[d].receipts[r].invocation;
      call.id in w.calls && CallEvolves(w.calls[call.id].claimed, call)
  {
    assert Inv(w.dbs[d]) && Tracked(w.calls, w.dbs[d].invocations);
    assert ReceiptBound(w.dbs[d].invocations, r, w.dbs[d].receipts[r]);
  }

  /** Forks reconciling one call separately never reach opposite outcomes. */
  lemma ForksAgreeOnOutcome(worlds: seq<World>, n: nat, c: DbId, d: DbId, q: ReceiptId, r: ReceiptId)
    requires IsRun(worlds) && n < |worlds|
    requires var w := worlds[n];
      && c in w.dbs && d in w.dbs && q in w.dbs[c].receipts && r in w.dbs[d].receipts
      && w.dbs[c].receipts[q].invocation.id == w.dbs[d].receipts[r].invocation.id
      && w.dbs[c].receipts[q].invocation.Consequential()
      && w.dbs[c].receipts[q].outcome == Observed
    ensures var w := worlds[n];
      w.dbs[d].receipts[r].outcome != ObservedFailure
  {
    var w := worlds[n];
    RunInv(worlds, n);
    ReceiptOfClaim(w, c, q);
    ReceiptOfClaim(w, d, r);
    ReceiptsMatchLedger(worlds, n, c, q);
    ReceiptsMatchLedger(worlds, n, d, r);
  }

  /** A ledger row is written once, under the key of one call, with the payload that call claimed. */
  lemma LedgerRowsArePermanent(worlds: seq<World>, m: nat, n: nat, key: ExecutionKey)
    requires IsRun(worlds) && m <= n < |worlds|
    requires key in worlds[m].ledger
    ensures var w := worlds[m];
      var w' := worlds[n];
      && key in w'.ledger && w'.ledger[key] == w.ledger[key]
      && (forall k | k in w'.ledger && k.invocation == key.invocation :: k == key)
  {
    RunExtends(worlds, m, n);
    var w' := worlds[n];
    assert RowBound(w'.calls, key, w'.ledger[key]);
    forall k | k in w'.ledger && k.invocation == key.invocation ensures k == key {
      assert RowBound(w'.calls, k, w'.ledger[k]);
    }
  }

  /** The branch of `dispatch` for a reused key with another payload is never taken. */
  lemma PayloadMismatchUnreachable(worlds: seq<World>, n: nat, i: InvocationId, reject: bool)
    requires IsRun(worlds) && n < |worlds|
    requires var w := worlds[n];
      i in w.calls && w.calls[i].entered && w.calls[i].reply.None? && w.calls[i].claimed.Consequential()
    ensures var w := worlds[n];
      var call := w.calls[i].claimed;
      LedgerAfter(w.ledger, call.Key(), call.input, reject)[call.Key()] == RowFor(call.input, reject)
  {
    RunInv(worlds, n);
    NoRowYet(worlds[n], i);
  }

  /** A call the remote has not received can still be written exactly while its executor may run. */
  lemma NeverReceivedMayChangeIff(worlds: seq<World>, n: nat, i: InvocationId)
    requires IsRun(worlds) && n < |worlds|
    requires var w := worlds[n];
      i in w.calls && w.calls[i].claimed.Consequential() && w.calls[i].claimed.Key() !in w.ledger
    ensures var w := worlds[n];
      (exists later :: w.calls[i].claimed.Key() in Exec(w, later).ledger)
      <==> (w.calls[i].reply.None? && (w.calls[i].entered || w.calls[i].live))
  {
    var w := worlds[n];
    var key := w.calls[i].claimed.Key();
    RunInv(worlds, n);
    assert CallHome(w.dbs, i, w.calls[i]);
    if w.calls[i].reply.None? && (w.calls[i].entered || w.calls[i].live) {
      WriteAfterLookup(w, i);
    }
    forall later | key in Exec(w, later).ledger
      ensures w.calls[i].reply.None? && (w.calls[i].entered || w.calls[i].live)
    {
      RunKeeps(w, later);
      var w' := Exec(w, later);
      assert RowBound(w'.calls, key, w'.ledger[key]);
      assert CallKept(w.calls[i], w'.calls[i]);
    }
  }

  lemma WriteAfterLookup(w: World, i: InvocationId)
    requires i in w.calls && w.calls[i].claimed.Consequential() && w.calls[i].reply.None?
    requires w.calls[i].entered || w.calls[i].live
    ensures exists later :: w.calls[i].claimed.Key() in Exec(w, later).ledger
  {
    var key := w.calls[i].claimed.Key();
    var effect := RemoteEffect(i, false);
    if w.calls[i].entered {
      OneStep(w, effect);
      assert key in Exec(w, [effect]).ledger;
    } else {
      var enter := EnterExecutor(i);
      OneStep(w, enter);
      OneStep(StepEnter(w, i), effect);
      ExecSplit(w, [enter], [effect]);
      assert key in Exec(w, [enter] + [effect]).ledger;
    }
  }

  lemma OneStep(w: World, e: Event)
    ensures Exec(w, [e]) == Step(w, e)
  {
    assert [e][..0] == [];
    assert Exec(w, []) == w;
  }

  // ---------- Claims and decisions ----------

  /** Behind every ledger row stands a committed claim, executable when it was made. */
  lemma LedgerRowsWereAuthorized(worlds: seq<World>, n: nat, key: ExecutionKey)
    requires IsRun(worlds) && n < |worlds|
    requires key in worlds[n].ledger
    ensures var w := worlds[n];
      && key.invocation in w.claims
      && var claim := w.claims[key.invocation];
      && claim.call.Key() == key
      && claim.record.intent.request == w.ledger[key].payload
      && claim.record.intent.tool == claim.call.tool
      && claim.at < claim.record.intent.expiresAt
      && !claim.record.cancelled && !claim.record.consumed
      && (claim.record.intent.effect == Allow
          || (claim.record.intent.effect == Required && claim.record.LastApproved()))
  {
    var w := worlds[n];
    RunInv(worlds, n);
    assert RowBound(w.calls, key, w.ledger[key]);
    assert ClaimLogged(w.calls, key.invocation, w.claims[key.invocation]);
    assert ClaimSound(w.dbs, w.claims[key.invocation]);
  }

  /** Once claimed, a record's decisions, cancellation and claim never change again. */
  lemma ClaimFreezesRecord(worlds: seq<World>, m: nat, n: nat, i: InvocationId)
    requires IsRun(worlds) && m <= n < |worlds|
    requires i in worlds[m].claims
    ensures var claim := worlds[m].claims[i];
      var w := worlds[n];
      && i in w.claims && w.claims[i] == claim
      && claim.db in w.dbs && claim.call.action in w.dbs[claim.db].governed
      && var now := w.dbs[claim.db].governed[claim.call.action];
      now == claim.record.(consumed := now.consumed, version := now.version)
  {
    RunExtends(worlds, m, n);
    var w := worlds[n];
    assert ClaimSound(w.dbs, w.claims[i]);
  }

  /** A cancelled, denied, revoked or expired record is never claimed, and a claimed one is never closed. */
  lemma ClosedIsNeverClaimed(worlds: seq<World>, m: nat, n: nat, d: DbId, a: ActionId)
    requires IsRun(worlds) && m <= n < |worlds|
    requires var w := worlds[m];
      d in w.dbs && a in w.dbs[d].governed && w.dbs[d].governed[a].Closed()
    ensures var w := worlds[n];
      && d in w.dbs && a in w.dbs[d].governed
      && w.dbs[d].governed[a].Closed() && w.dbs[d].governed[a].invocation.None?
      && (forall i | i in w.claims && w.claims[i].db == d :: w.claims[i].call.action != a)
  {
    RunExtends(worlds, m, n);
    var w := worlds[m];
    var w' := worlds[n];
    LaterRecord(w, w', d, a);
    ClosedUnclaimed(w', d, a);
    forall i | i in w'.claims && w'.claims[i].db == d ensures w'.claims[i].call.action != a {
      assert ClaimSound(w'.dbs, w'.claims[i]);
    }
  }

  lemma LaterRecord(w: World, w': World, d: DbId, a: ActionId)
    requires DbsEvolve(w.dbs, w'.dbs) && d in w.dbs && a in w.dbs[d].governed
    ensures d in w'.dbs && a in w'.dbs[d].governed
    ensures RecordEvolves(w.dbs[d].governed[a], w'.dbs[d].governed[a])
  {
    assert Evolves(w.dbs[d], w'.dbs[d]);
  }

  lemma ClosedUnclaimed(w: World, d: DbId, a: ActionId)
    requires AllInv(w.dbs) && d in w.dbs && a in w.dbs[d].governed && w.dbs[d].governed[a].Closed()
    ensures w.dbs[d].governed[a].invocation.None?
  {
    assert Inv(w.dbs[d]);
    assert RecordClaims(w.dbs[d].invocations, a, w.dbs[d].governed[a]);
  }

  // ---------- Quarantine ----------

  /** Only a successful release takes a database out of restore quarantine, and it changes nothing else. */
  lemma QuarantineLeftOnlyByRelease(worlds: seq<World>, n: nat, d: DbId)
    requires IsRun(worlds) && n + 1 < |worlds|
    requires d in worlds[n].dbs && worlds[n].dbs[d].mode == RestoreQuarantine
    requires d in worlds[n + 1].dbs && worlds[n + 1].dbs[d].mode != RestoreQuarantine
    ensures exists authorized, integrityOk, classified ::
              ReleaseSucceeds(worlds[n].dbs[d], authorized, integrityOk, classified)
    ensures worlds[n + 1] == worlds[n].(dbs := worlds[n].dbs[d := worlds[n].dbs[d].(mode := Normal)])
  {
    RunInv(worlds, n);
    assert StepAt(worlds, n);
    var e :| worlds[n + 1] == Step(worlds[n], e);
    StepLeavesQuarantine(worlds[n], e, d);
  }

  /** After a release, every call that database ever dispatches, and ever did, is of an intent created since. */
  lemma ReleasedDispatchesOnlyNewIntents(worlds: seq<World>, m: nat, n: nat, d: DbId, i: InvocationId)
    requires IsRun(worlds) && m + 1 <= n < |worlds|
    requires d in worlds[m].dbs && worlds[m].dbs[d].mode == RestoreQuarantine
    requires d in worlds[m + 1].dbs && worlds[m + 1].dbs[d].mode != RestoreQuarantine
    requires i in worlds[n].claims && worlds[n].claims[i].db == d
    ensures i !in worlds[m].claims
    ensures worlds[n].claims[i].call.action !in worlds[m].dbs[d].governed
  {
    QuarantineLeftOnlyByRelease(worlds, m, d);
    RunExtends(worlds, m, n);
    assert Evolves(worlds[m].dbs[d], worlds[n].dbs[d]);
    assert ClaimSound(worlds[n].dbs, worlds[n].claims[i]);
    assert i in worlds[m].claims ==> ClaimSound(worlds[m].dbs, worlds[m].claims[i]);
  }

  /** Each claim of a governed write is made in normal mode, on an intent that is not held. */
  lemma ClaimsNeedNormalMode(worlds: seq<World>, n: nat, i: InvocationId)
    requires IsRun(worlds) && n + 1 < |worlds|
    requires i in worlds[n + 1].claims && i !in worlds[n].claims
    ensures var claim := worlds[n + 1].claims[i];
      claim.db in worlds[n].dbs && MayDispatch(worlds[n].dbs[claim.db], claim.call.action)
  {
    RunInv(worlds, n);
    assert StepAt(worlds, n);
    var e :| worlds[n + 1] == Step(worlds[n], e);
    if e.InvokeTool? {
      InvokeClaimsInNormalMode(worlds[n], e.db, e.run, e.action, e.expected, e.orgOk, e.id);
    } else {
      OtherStepClaimsNothing(worlds[n], e);
    }
  }

  lemma InvokeClaimsInNormalMode(
    w: World, d: DbId, run: RunId, action: Action, expected: nat, orgOk: bool, id: InvocationId)
    requires WorldInv(w)
    ensures var w' := StepInvoke(w, d, run, action, expected, orgOk, id);
      forall i | i in w'.claims && i !in w.claims ::
        w'.claims[i].db in w.dbs && MayDispatch(w.dbs[w'.claims[i].db], w'.claims[i].call.action)
  {
    if d in w.dbs && id !in w.calls {
      assert Inv(w.dbs[d]);
      InvokeKeeps(w.dbs[d], run, action, expected, orgOk, id, w.clock);
      InvokeKeepsMode(w.dbs[d], run, action, expected, orgOk, id, w.clock);
      match Invoke(w.dbs[d], run, action, expected, orgOk, id, w.clock)
      case Claimed(db, call) => ClaimInNormalMode(w, d, db, call);
      case _ =>
    }
  }

  lemma ClaimInNormalMode(w: World, d: DbId, db: Db, call: Invocation)
    requires d in w.dbs && ClaimStep(w.dbs[d], db, call, w.clock) && db.mode == w.dbs[d].mode
    ensures var w' := AfterClaim(w, d, db, call);
      forall i | i in w'.claims && i !in w.claims ::
        w'.claims[i].db in w.dbs && MayDispatch(w.dbs[w'.claims[i].db], w'.claims[i].call.action)
  {
  }

  lemma OtherStepClaimsNothing(w: World, e: Event)
    requires !e.InvokeTool?
    ensures Step(w, e).claims == w.claims
  {
  }

  lemma StepLeavesQuarantine(w: World, e: Event, d: DbId)
    requires d in w.dbs && w.dbs[d].mode == RestoreQuarantine && d < w.next
    requires d in Step(w, e).dbs && Step(w, e).dbs[d].mode != RestoreQuarantine
    ensures e.Do? && e.db == d && e.cmd.ReleaseCmd?
    ensures ReleaseSucceeds(w.dbs[d], e.cmd.authorized, e.cmd.integrityOk, e.cmd.classified)
    ensures Step(w, e) == w.(dbs := w.dbs[d := w.dbs[d].(mode := Normal)])
  {
    match e
    case Do(c, cmd) => DoKeepsMode(w, c, cmd, d);
    case InvokeTool(c, run, action, expected, orgOk, id) =>
      InvokeStepKeepsMode(w, c, run, action, expected, orgOk, id, d);
    case LiveReconcile(i, interruption, receipt) => LiveReconcileKeepsMode(w, i, interruption, receipt, d);
    case RecoverWith(c, lookup, outputOk, receipt) => RecoverStepKeepsMode(w, c, lookup, outputOk, receipt, d);
    case _ => OtherStepKeepsDb(w, e, d);
  }

  lemma OtherStepKeepsDb(w: World, e: Event, d: DbId)
    requires !e.Do? && !e.InvokeTool? && !e.LiveReconcile? && !e.RecoverWith?
    requires d in w.dbs && d < w.next
    ensures d in Step(w, e).dbs && Step(w, e).dbs[d] == w.dbs[d]
  {
  }

  lemma InvokeStepKeepsMode(
    w: World, c: DbId, run: RunId, action: Action, expected: nat, orgOk: bool, id: InvocationId, d: DbId)
    requires d in w.dbs
    ensures StepInvoke(w, c, run, action, expected, orgOk, id).dbs[d].mode == w.dbs[d].mode
  {
    if c == d {
      InvokeKeepsMode(w.dbs[d], run, action, expected, orgOk, id, w.clock);
    }
  }

  lemma RecoverStepKeepsMode(w: World, c: DbId, lookup: Lookup, outputOk: bool, receipt: ReceiptId, d: DbId)
    requires d in w.dbs
    ensures StepRecover(w, c, lookup, outputOk, receipt).dbs[d].mode == w.dbs[d].mode
  {
    RecoverKeepsMode(w.dbs[d], lookup.seen, lookup.found, outputOk, receipt, w.clock);
  }

  lemma DoKeepsMode(w: World, c: DbId, cmd: Command, d: DbId)
    requires d in w.dbs && w.dbs[d].mode == RestoreQuarantine
    requires d in StepDo(w, c, cmd).dbs && StepDo(w, c, cmd).dbs[d].mode != RestoreQuarantine
    ensures c == d && cmd.ReleaseCmd?
    ensures ReleaseSucceeds(w.dbs[d], cmd.authorized, cmd.integrityOk, cmd.classified)
    ensures StepDo(w, c, cmd).dbs[d] == w.dbs[d].(mode := Normal)
  {
    if !cmd.ReleaseCmd? && Apply(w.dbs[d], cmd, w.clock).Done? {
      CommandKeepsMode(w.dbs[d], cmd, w.clock);
    }
  }

  lemma LiveReconcileKeepsMode(w: World, i: InvocationId, interruption: Option<ToolError>, receipt: ReceiptId, d: DbId)
    requires d in w.dbs
    ensures StepReconcile(w, i, interruption, receipt).dbs[d].mode == w.dbs[d].mode
  {
    if StepReconcile(w, i, interruption, receipt) != w {
      var call := w.calls[i];
      var reply := if interruption.Some? then Failure(interruption.value) else call.reply.value;
      ReconcileKeepsMode(w.dbs[call.db], call.claimed, reply, receipt, w.clock);
    }
  }

  lemma CommandKeepsMode(db: Db, cmd: Command, now: int)
    requires Apply(db, cmd, now).Done? && db.mode == RestoreQuarantine && !cmd.ReleaseCmd?
    ensures Apply(db, cmd, now).db.mode == RestoreQuarantine
  {
    if cmd.DecideCmd? || cmd.CancelIntentCmd? || cmd.ExpireCmd? || cmd.RepairCmd? {
      GovernanceWritesNoReceipt(db, cmd, now);
    }
  }

  lemma AuthorizeKeepsMode(db: Db, run: AgentRun, action: Action, orgOk: bool, now: int)
    ensures Authorize(db, run, action, orgOk, now).db.mode == db.mode
    ensures Authorize(db, run, action, orgOk, now).db.holds == db.holds
  {
  }

  lemma DispatchNeedsNormalMode(
    db: Db, run: AgentRun, action: Action, tool: ToolVersion, revision: nat, id: InvocationId, now: int)
    requires Dispatch(db, run, action, tool, revision, id, now).Claimed?
    ensures Dispatch(db, run, action, tool, revision, id, now).db.mode == db.mode
    ensures tool.risk != ReadOnly ==> db.mode == Normal
    ensures tool.risk != ReadOnly && tool.kind == SendFixtureMessage ==> action.id !in db.holds
  {
  }

  lemma InvokeKeepsMode(db: Db, run: RunId, action: Action, expected: nat, orgOk: bool, id: InvocationId, now: int)
    ensures match Invoke(db, run, action, expected, orgOk, id, now)
      case Settled(after) => after.mode == db.mode
      case Claimed(after, _) => after.mode == db.mode
      case _ => true
  {
    if InvokeGuard(db, run, action, expected, now).None? {
      AuthorizeKeepsMode(db, db.runs[run], action, orgOk, now);
      match Authorize(db, db.runs[run], action, orgOk, now)
      case Proceed(db', tool, revision) =>
        if Dispatch(db', db.runs[run], action, tool, revision, id, now).Claimed? {
          DispatchNeedsNormalMode(db', db.runs[run], action, tool, revision, id, now);
        }
      case _ =>
    }
  }

  lemma ReconcileKeepsMode(db: Db, call: Invocation, reply: Reply, id: ReceiptId, now: int)
    ensures Reconcile(db, call, reply, id, now).Done? ==> Reconcile(db, call, reply, id, now).db.mode == db.mode
  {
  }

  lemma RecoverKeepsMode(db: Db, seen: Invocation, lookup: RemoteLookup, outputOk: bool, id: ReceiptId, now: int)
    ensures var result := Recover(db, seen, lookup, outputOk, id, now); result.Done? ==> result.db.mode == db.mode
  {
    if && seen.id in db.invocations && HasReceipt(db.receipts, seen.id)
       && Repair(db, ReceiptOf(db, seen.id), now).Done?
    {
      RepairWritesNoReceipt(db, ReceiptOf(db, seen.id), now);
    }
  }

  // ---------- Resuming an approved intent ----------

  /** A resumption whose dispatch is refused loses nothing: records and calls are untouched, and the run
      waits as before, two versions on, so the same intent can be resumed again while it is executable. */
  lemma RefusedResumeWaitsAgain(
    db: Db, runId: RunId, action: ActionId, expected: nat, orgOk: bool, id: InvocationId, now: int)
    requires RunsInv(db.runs, db.parents, db.actions) && Expire(db, action, now) == Done(db)
    requires ReopenForIntent(db, runId, action, expected, orgOk, now).Done?
    requires ResumeIntent(db, runId, action, expected, orgOk, id, now).0.InvokeRefused?
    ensures var after := ResumeIntent(db, runId, action, expected, orgOk, id, now).1;
      var run := db.runs[runId];
      && after == db.(runs := after.runs, parents := after.parents)
      && after.runs == db.runs[runId := run.(version := run.version + 2)]
      && after.parents[runId].execution == ExecutionWaiting
      && ReopenForIntent(after, runId, action, expected + 2, orgOk, now).Done?
  {
    var db1 := ReopenForIntent(db, runId, action, expected, orgOk, now).db;
    var version := db1.runs[runId].version;
    assert RunsInv(db.runs, db.parents, db.actions);
    assert RestoreWait(db1, runId, action, version).Done?;
    var after := RestoreWait(db1, runId, action, version).db;
    assert after.runs[runId] == db.runs[runId].(version := db.runs[runId].version + 2);
    assert after.governed == db.governed && after.policy == db.policy;
    assert StillBound(after, after.governed[action], after.runs[runId], after.actions[action],
                      after.registry[db.governed[action].intent.tool.grant].version, orgOk);
  }

  // ---------- Receipts and runs ----------

  /** Over a whole run, one receipt is applied to its agent run at most once. */
  lemma ReceiptAppliedAtMostOnce(worlds: seq<World>, n: nat, d: DbId, j: nat, k: nat)
    requires IsRun(worlds) && n < |worlds|
    requires var w := worlds[n];
      && d in w.dbs && j < k < |w.dbs[d].observations|
    ensures var seen := worlds[n].dbs[d].observations;
      seen[j].receipt.Some? ==> seen[j].receipt != seen[k].receipt
  {
    RunInv(worlds, n);
    assert Inv(worlds[n].dbs[d]);
  }

  /** Live reconcile touches the run only at the version that claimed the call. */
  lemma ReconcileAppliesAtClaimVersion(db: Db, call: Invocation, reply: Reply, id: ReceiptId, now: int)
    requires Reconcile(db, call, reply, id, now).Done?
    ensures var after := Reconcile(db, call, reply, id, now).db;
      var run := db.runs[call.run];
      if run.Terminal() || Stale(db, run, call)
      then after.runs == db.runs && after.observations == db.observations
      else
        && run.version == call.runVersion
        && after.runs == db.runs[run.id := run.Evolve(run.status, false)]
        && after.observations == db.observations
             + [Observation(run.id, call.action, Some(id), SettledError(db, run, call, reply, now))]
  {
  }

  /** A repaired receipt is applied at the claiming version of a run still waiting for it, or not at all. */
  lemma RepairAppliesAtClaimVersion(db: Db, id: ReceiptId, now: int)
    requires RunsInv(db.runs, db.parents, db.actions) && Repair(db, id, now).Done?
    ensures var call := db.receipts[id].invocation;
      var after := Repair(db, id, now).db;
      if Applicable(db, call, now)
      then
        && db.runs[call.run].version == call.runVersion
        && after.runs == db.runs[call.run := db.runs[call.run].Evolve(Running, false)]
        && after.observations == db.observations + [Observation(call.run, call.action, Some(id), call.error)]
      else after.runs == db.runs && after.observations == db.observations
  {
  }

  lemma RepairKeepsSettings(db: Db, id: ReceiptId, now: int)
    requires Repair(db, id, now).Done?
    ensures var after := Repair(db, id, now).db;
      && after.receipts == db.receipts && after.parents == db.parents && after.registry == db.registry
      && after.governed == Consume(db, db.receipts[id].invocation).db.governed
  {
  }

  lemma ConsumedOnce(db: Db, call: Invocation, later: Db)
    requires RecordsInv(db.actions, db.governed) && Consume(db, call).Done?
    requires later.governed == Consume(db, call).db.governed
    ensures Consume(later, call) == Done(later)
  {
    if call.action in db.governed {
      assert RecordBound(db.actions, call.action, db.governed[call.action]);
    }
  }

  /** A repair leaves nothing to repair, however much later. */
  lemma RepairedIsSpent(db: Db, id: ReceiptId, now: int, later: int)
    requires Inv(db) && Repair(db, id, now).Done? && now <= later
    ensures Repair(Repair(db, id, now).db, id, later) == Repair(db, id, now)
  {
    var call := db.receipts[id].invocation;
    var after := Repair(db, id, now).db;
    RepairAppliesAtClaimVersion(db, id, now);
    RepairKeepsSettings(db, id, now);
    ConsumedOnce(db, call, after);
    NotApplicableTwice(db, call, now, after, later);
  }

  lemma NotApplicableTwice(db: Db, call: Invocation, now: int, after: Db, later: int)
    requires now <= later && call.run in db.runs && db.runs[call.run].id == call.run
    requires after.parents == db.parents && after.registry == db.registry
    requires after.runs == if Applicable(db, call, now)
      then db.runs[call.run := db.runs[call.run].Evolve(Running, false)] else db.runs
    ensures !Applicable(after, call, later)
  {
  }

  /** A succeeded run stays succeeded, and every governed action it has or will have is resolved. */
  lemma SucceededRunsStayResolved(worlds: seq<World>, m: nat, n: nat, d: DbId, r: RunId)
    requires IsRun(worlds) && m <= n < |worlds|
    requires var w := worlds[m];
      d in w.dbs && r in w.dbs[d].runs && w.dbs[d].runs[r].status == Succeeded
    ensures d in worlds[n].dbs
    ensures var db := worlds[n].dbs[d];
      && r in db.runs && db.runs[r].status == Succeeded
      && (forall a | a in db.governed && db.governed[a].intent.run == r ::
            && db.governed[a].invocation.Some?
            && SuccessfulCall(db.receipts, db.governed[a].invocation.value))
  {
    RunExtends(worlds, m, n);
    var w := worlds[m];
    var w' := worlds[n];
    assert Evolves(w.dbs[d], w'.dbs[d]);
    assert RunEvolves(w.dbs[d].runs[r], w'.dbs[d].runs[r]);
    SucceededResolved(w', d, r);
  }

  lemma SucceededResolved(w: World, d: DbId, r: RunId)
    requires AllInv(w.dbs) && d in w.dbs && r in w.dbs[d].runs && w.dbs[d].runs[r].status == Succeeded
    ensures ConsequencesResolved(w.dbs[d].governed, w.dbs[d].receipts, r)
  {
    assert Inv(w.dbs[d]);
  }
}
