/** What every reachable world satisfies, and how one world may follow another. */
module GovernedWorldInvariants {
  import opened Prelude
  import opened GovernedRecords
  import opened GovernedCommands
  import opened GovernedInvariants
  import opened GovernedWorld

  // ---------- Databases and their forks ----------

  ghost predicate AllInv(dbs: map<nat, Db>) {
    forall d {:trigger Inv(dbs[d])} | d in dbs :: Inv(dbs[d])
  }

  ghost predicate SnapshotBound(dbs: map<DbId, Db>, s: SnapshotId, snapshot: Db, source: DbId) {
    && source in dbs
    && source < s
    && snapshot.holds == dbs[source].holds
  }

  ghost predicate ForkBound(snapshots: map<SnapshotId, Db>, d: DbId, db: Db, origin: SnapshotId) {
    && origin in snapshots
    && origin < d
    && db.holds == snapshots[origin].holds + snapshots[origin].governed.Keys
  }

  ghost predicate LineageInv(
    next: nat, dbs: map<DbId, Db>, snapshots: map<SnapshotId, Db>,
    origin: map<DbId, SnapshotId>, source: map<SnapshotId, DbId>)
  {
    && (forall d | d in dbs :: d < next)
    && (forall s | s in snapshots :: s < next)
    && source.Keys == snapshots.Keys
    && origin.Keys <= dbs.Keys
    && (forall s {:trigger SnapshotBound(dbs, s, snapshots[s], source[s])} | s in snapshots ::
        SnapshotBound(dbs, s, snapshots[s], source[s]))
    && (forall d {:trigger ForkBound(snapshots, d, dbs[d], origin[d])} | d in origin ::
        ForkBound(snapshots, d, dbs[d], origin[d]))
  }

  // ---------- Calls ----------

  ghost predicate Tracked(calls: map<InvocationId, Call>, invocations: map<InvocationId, Invocation>) {
    forall i | i in invocations :: i in calls && CallEvolves(calls[i].claimed, invocations[i])
  }

  /** Every invocation in any database or snapshot descends from one claimed call. */
  ghost predicate AllTracked(calls: map<InvocationId, Call>, dbs: map<nat, Db>) {
    forall d {:trigger Tracked(calls, dbs[d].invocations)} | d in dbs :: Tracked(calls, dbs[d].invocations)
  }

  ghost predicate CallHome(dbs: map<DbId, Db>, i: InvocationId, call: Call) {
    && call.claimed.id == i
    && call.claimed.status == InFlight
    && call.db in dbs
    && i in dbs[call.db].invocations
    && (call.reply.Some? ==> call.entered)
  }

  ghost predicate CallsHome(dbs: map<DbId, Db>, calls: map<InvocationId, Call>) {
    forall i {:trigger CallHome(dbs, i, calls[i])} | i in calls :: CallHome(dbs, i, calls[i])
  }

  ghost predicate ClaimLogged(calls: map<InvocationId, Call>, i: InvocationId, claim: Claim) {
    && i in calls
    && calls[i].db == claim.db
    && calls[i].claimed == claim.call
    && claim.call.Consequential()
  }

  ghost predicate ClaimsLogged(calls: map<InvocationId, Call>, claims: map<InvocationId, Claim>) {
    && (forall i {:trigger ClaimLogged(calls, i, claims[i])} | i in claims :: ClaimLogged(calls, i, claims[i]))
    && (forall i | i in calls && calls[i].claimed.Consequential() :: i in claims)
  }

  /** The record was executable when claimed, no restore holds its intent, and it has not changed since. */
  ghost predicate ClaimSound(dbs: map<DbId, Db>, claim: Claim) {
    && claim.db in dbs
    && claim.call.action !in dbs[claim.db].holds
    && claim.call.action in dbs[claim.db].governed
    && RecordEvolves(claim.record, dbs[claim.db].governed[claim.call.action])
    && claim.record.intent.action == claim.call.action
    && claim.record.intent.tool == claim.call.tool
    && claim.record.intent.request == claim.call.input
    && claim.record.invocation == Some(claim.call.id)
    && Unclaimed(claim.record).Executable(claim.at)
  }

  ghost predicate ClaimsSound(dbs: map<DbId, Db>, claims: map<InvocationId, Claim>) {
    forall i {:trigger ClaimSound(dbs, claims[i])} | i in claims :: ClaimSound(dbs, claims[i])
  }

  ghost predicate EntryBound(calls: map<InvocationId, Call>, entry: Entry) {
    && entry.call.id in calls
    && calls[entry.call.id].entered
    && calls[entry.call.id].claimed == entry.call
    && calls[entry.call.id].db == entry.db
  }

  ghost predicate EntriesInv(calls: map<InvocationId, Call>, entries: seq<Entry>) {
    && (forall k {:trigger EntryBound(calls, entries[k])} | 0 <= k < |entries| :: EntryBound(calls, entries[k]))
    && (forall j, k | 0 <= j < k < |entries| :: entries[j].call.id != entries[k].call.id)
  }

  // ---------- The ledger and what is known of it ----------

  ghost predicate RowBound(calls: map<InvocationId, Call>, key: ExecutionKey, row: LedgerRow) {
    && key.invocation in calls
    && calls[key.invocation].entered
    && calls[key.invocation].claimed.Consequential()
    && calls[key.invocation].claimed.Key() == key
    && calls[key.invocation].reply.Some?
    && (row == RowFor(calls[key.invocation].claimed.input, true)
        || row == RowFor(calls[key.invocation].claimed.input, false))
  }

  ghost predicate LedgerInv(calls: map<InvocationId, Call>, ledger: map<ExecutionKey, LedgerRow>) {
    forall k {:trigger RowBound(calls, k, ledger[k])} | k in ledger :: RowBound(calls, k, ledger[k])
  }

  /** `reply` is what the ledger says about the call; errors other than a rejection say nothing. */
  ghost predicate ReplyTruthful(ledger: map<ExecutionKey, LedgerRow>, call: Invocation, reply: Reply) {
    && (reply.Delivered? ==>
          && call.Key() in ledger
          && ledger[call.Key()] == LedgerRow(call.input, ProcessedSuccess, Some(reply.output)))
    && (reply == Failure(Rejected) ==>
          && call.Key() in ledger
          && ledger[call.Key()] == LedgerRow(call.input, ProcessedFailure, None))
  }

  ghost predicate CallTruthful(ledger: map<ExecutionKey, LedgerRow>, call: Call) {
    call.claimed.Consequential() && call.reply.Some? ==> ReplyTruthful(ledger, call.claimed, call.reply.value)
  }

  ghost predicate RepliesTruthful(ledger: map<ExecutionKey, LedgerRow>, calls: map<InvocationId, Call>) {
    forall i {:trigger CallTruthful(ledger, calls[i])} | i in calls :: CallTruthful(ledger, calls[i])
  }

  ghost predicate LookupTruthful(ledger: map<ExecutionKey, LedgerRow>, lookup: Lookup) {
    && (lookup.found.status == ProcessedSuccess && lookup.found.output.Some? ==>
          ReplyTruthful(ledger, lookup.seen, Delivered(lookup.found.output.value)))
    && (lookup.found.status == ProcessedFailure ==> ReplyTruthful(ledger, lookup.seen, Failure(Rejected)))
  }

  ghost predicate LookupsTruthful(ledger: map<ExecutionKey, LedgerRow>, lookups: set<Lookup>) {
    forall l {:trigger LookupTruthful(ledger, l)} | l in lookups :: LookupTruthful(ledger, l)
  }

  ghost predicate ReceiptTruthful(ledger: map<ExecutionKey, LedgerRow>, receipt: Receipt) {
    var call := receipt.invocation;
    call.Consequential() ==>
      && (receipt.outcome == Observed ==>
            && call.Key() in ledger
            && ledger[call.Key()] == LedgerRow(call.input, ProcessedSuccess, receipt.output))
      && (receipt.outcome == ObservedFailure ==>
            && call.Key() in ledger
            && ledger[call.Key()] == LedgerRow(call.input, ProcessedFailure, None))
  }

  ghost predicate ReceiptsTruthful(ledger: map<ExecutionKey, LedgerRow>, receipts: map<ReceiptId, Receipt>) {
    forall r {:trigger ReceiptTruthful(ledger, receipts[r])} | r in receipts :: ReceiptTruthful(ledger, receipts[r])
  }

  ghost predicate AllTruthful(ledger: map<ExecutionKey, LedgerRow>, dbs: map<nat, Db>) {
    forall d {:trigger ReceiptsTruthful(ledger, dbs[d].receipts)} | d in dbs ::
      ReceiptsTruthful(ledger, dbs[d].receipts)
  }

  // ---------- Worlds ----------

  ghost predicate WorldInv(w: World) {
    && AllInv(w.dbs) && AllInv(w.snapshots)
    && LineageInv(w.next, w.dbs, w.snapshots, w.origin, w.source)
    && AllTracked(w.calls, w.dbs) && AllTracked(w.calls, w.snapshots)
    && CallsHome(w.dbs, w.calls)
    && ClaimsLogged(w.calls, w.claims)
    && ClaimsSound(w.dbs, w.claims)
    && EntriesInv(w.calls, w.entries)
    && LedgerInv(w.calls, w.ledger)
    && RepliesTruthful(w.ledger, w.calls)
    && LookupsTruthful(w.ledger, w.lookups)
    && AllTruthful(w.ledger, w.dbs) && AllTruthful(w.ledger, w.snapshots)
  }

  ghost predicate CallKept(x: Call, y: Call) {
    && y.db == x.db
    && y.claimed == x.claimed
    && (y.live ==> x.live)
    && (x.entered ==> y.entered)
    && (y.entered && !x.entered ==> x.live)
    && (x.reply.Some? ==> y.reply == x.reply)
  }

  ghost predicate CallsKept(x: map<InvocationId, Call>, y: map<InvocationId, Call>) {
    y.Keys >= x.Keys && forall i {:trigger CallKept(x[i], y[i])} | i in x :: CallKept(x[i], y[i])
  }

  ghost predicate DbsEvolve(x: map<DbId, Db>, y: map<DbId, Db>) {
    y.Keys >= x.Keys && forall d {:trigger Evolves(x[d], y[d])} | d in x :: Evolves(x[d], y[d])
  }

  ghost predicate Kept<K, V>(x: map<K, V>, y: map<K, V>) {
    forall k | k in x :: k in y && y[k] == x[k]
  }

  /** A row appears only for a call that has had no answer. */
  ghost predicate RowsAwaited(
    calls: map<InvocationId, Call>, x: map<ExecutionKey, LedgerRow>, y: map<ExecutionKey, LedgerRow>)
  {
    forall k | k in y && k !in x && k.invocation in calls :: calls[k.invocation].reply.None?
  }

  /** Histories only grow; snapshots, lineage, claims and ledger rows never change. */
  ghost predicate WorldEvolves(v: World, w: World) {
    && v.clock <= w.clock
    && v.next <= w.next
    && DbsEvolve(v.dbs, w.dbs)
    && Kept(v.snapshots, w.snapshots)
    && Kept(v.origin, w.origin)
    && Kept(v.source, w.source)
    && Kept(v.ledger, w.ledger)
    && RowsAwaited(v.calls, v.ledger, w.ledger)
    && Kept(v.claims, w.claims)
    && CallsKept(v.calls, w.calls)
    && v.entries <= w.entries
    && v.lookups <= w.lookups
    && (forall d | d in w.origin && d !in v.origin :: d >= v.next)
    && (forall s | s in w.source && s !in v.source :: s >= v.next)
  }

  lemma DbsEvolveReflexive(dbs: map<DbId, Db>)
    ensures DbsEvolve(dbs, dbs)
  {
    forall d | d in dbs ensures Evolves(dbs[d], dbs[d]) {
      EvolvesReflexive(dbs[d]);
    }
  }

  lemma WorldEvolvesReflexive(w: World)
    ensures WorldEvolves(w, w)
  {
    DbsEvolveReflexive(w.dbs);
  }

  lemma RowsAwaitedTransitive(
    calls: map<InvocationId, Call>, calls': map<InvocationId, Call>,
    x: map<ExecutionKey, LedgerRow>, y: map<ExecutionKey, LedgerRow>, z: map<ExecutionKey, LedgerRow>)
    requires RowsAwaited(calls, x, y) && RowsAwaited(calls', y, z) && CallsKept(calls, calls')
    ensures RowsAwaited(calls, x, z)
  {
    forall k | k in z && k !in x && k.invocation in calls ensures calls[k.invocation].reply.None? {
      assert CallKept(calls[k.invocation], calls'[k.invocation]);
    }
  }

  lemma WorldEvolvesTransitive(u: World, v: World, w: World)
    requires WorldEvolves(u, v) && WorldEvolves(v, w)
    ensures WorldEvolves(u, w)
  {
    forall d | d in u.dbs ensures d in w.dbs && Evolves(u.dbs[d], w.dbs[d]) {
      EvolvesTransitive(u.dbs[d], v.dbs[d], w.dbs[d]);
    }
    forall i | i in u.calls ensures i in w.calls && CallKept(u.calls[i], w.calls[i]) {
      assert CallKept(u.calls[i], v.calls[i]) && CallKept(v.calls[i], w.calls[i]);
    }
    RowsAwaitedTransitive(u.calls, v.calls, u.ledger, v.ledger, w.ledger);
  }
}
