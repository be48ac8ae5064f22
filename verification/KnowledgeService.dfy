/** The knowledge store and its query command as objects updated in place. */
module KnowledgeService {
  import opened Prelude
  import opened Knowledge
  import opened Chunking
  import opened Sorting
  import opened Retrieval
  import opened KnowledgeBase
  import opened KnowledgeSafety
  import opened KnowledgeRetrieval

  lemma {:induction false} EvidenceFaultStays(db: Db, scope: Scope, pack: Pack, items: seq<Candidate>, k: nat)
    requires k <= |items| && FirstEvidenceFault(db, scope, pack, items[..k]).Some?
    ensures FirstEvidenceFault(db, scope, pack, items) == FirstEvidenceFault(db, scope, pack, items[..k])
    decreases |items|
  {
    if k < |items| {
      assert items[..|items| - 1][..k] == items[..k];
      EvidenceFaultStays(db, scope, pack, items[..|items| - 1], k);
    } else {
      assert items[..k] == items;
    }
  }

  lemma EvidenceFaultAt(db: Db, scope: Scope, pack: Pack, items: seq<Candidate>, k: nat)
    requires k < |items| && FirstEvidenceFault(db, scope, pack, items[..k]).None?
    ensures var fault := EvidenceFault(db, scope, pack, items[..k], items[k]);
            && FirstEvidenceFault(db, scope, pack, items[..k + 1]) == fault
            && (fault.Some? ==> FirstEvidenceFault(db, scope, pack, items) == fault)
            && items[..k + 1] == items[..k] + [items[k]]
  {
    assert items[..k + 1][..k] == items[..k];
    if EvidenceFault(db, scope, pack, items[..k], items[k]).Some? {
      EvidenceFaultStays(db, scope, pack, items, k + 1);
    }
  }

  lemma {:induction false} RevocationStays(db: Db, run: Run, items: seq<Candidate>, k: nat)
    requires k <= |items| && FirstRevocation(db, run, items[..k]).Some?
    ensures FirstRevocation(db, run, items) == FirstRevocation(db, run, items[..k])
    decreases |items|
  {
    if k < |items| {
      assert items[..|items| - 1][..k] == items[..k];
      RevocationStays(db, run, items[..|items| - 1], k);
    } else {
      assert items[..k] == items;
    }
  }

  lemma {:induction false} EligibleFailureStays(
    db: Db, workspace: nat, ids: seq<SourceId>, trust: seq<TrustClass>, k: nat)
    requires k <= |ids| && Eligible(db, workspace, ids[..k], trust).Err?
    ensures Eligible(db, workspace, ids, trust) == Eligible(db, workspace, ids[..k], trust)
    decreases |ids|
  {
    if k < |ids| {
      assert ids[..|ids| - 1][..k] == ids[..k];
      EligibleFailureStays(db, workspace, ids[..|ids| - 1], trust, k);
    } else {
      assert ids[..k] == ids;
    }
  }

  class KnowledgeStore {
    var workspaces: set<nat>
    var sources: map<SourceId, Source>
    var versions: map<(SourceId, nat), SourceVersion>
    var chunks: map<(SourceId, nat), seq<Chunk>>
    var packs: map<nat, Pack>
    var runs: map<nat, Run>

    function State(): Db
      reads this
    {
      Db(workspaces, sources, versions, chunks, packs, runs)
    }

    constructor (known: set<nat>)
      ensures State() == Db(known, map[], map[], map[], map[], map[])
    {
      workspaces := known;
      sources, versions, chunks, packs, runs := map[], map[], map[], map[], map[];
    }

    method Publish(v: SourceVersion, own: seq<Chunk>, expected: Option<nat>) returns (fault: Option<Error>)
      requires ValidVersion(v)
      modifies this
      ensures fault == old(PublishFault(State(), v, own, expected))
      ensures State() == if fault.Some? then old(State()) else Published(old(State()), v, own)
    {
      var s := v.source;
      if s.workspace !in workspaces {
        return Some(NotFound);
      }
      if s.id in sources {
        var previous := sources[s.id];
        if previous.workspace != s.workspace {
          return Some(WrongWorkspace);
        }
        if expected != Some(previous.version) {
          return Some(VersionConflict);
        }
        var correct := previous.(version := previous.version + 1, contentVersion := previous.contentVersion + 1);
        if s != correct || !previous.active {
          return Some(LineageImmutableOrDisabled);
        }
      } else if expected.Some? || s.version != 1 || s.contentVersion != 1 || !s.active {
        return Some(InitialVersion);
      } else if SourceCount(sources, s.workspace) >= MAX_SOURCES {
        return Some(WorkspaceSourceLimit);
      }
      var key := (s.id, s.contentVersion);
      if key in versions || s.contentVersion > MAX_VERSIONS {
        return Some(VersionHistoryBound);
      }
      var derived := ChunkContent(v);
      if derived.Err? {
        return Some(derived.error);
      }
      if own != derived.value {
        return Some(ChunkSourceBinding);
      }
      sources := sources[s.id := s];
      versions := versions[key := v];
      chunks := chunks[key := own];
      return None;
    }

    method Disable(workspace: nat, id: SourceId, expected: nat) returns (fault: Option<Error>)
      modifies this`sources
      ensures fault == old(DisableFault(State(), workspace, id, expected))
      ensures State() == if fault.Some? then old(State()) else Disabled(old(State()), id)
    {
      var found := GetSource(State(), workspace, id);
      if found.Err? {
        return Some(found.error);
      }
      var previous := found.value;
      if expected != previous.version {
        return Some(VersionConflict);
      }
      if !previous.active {
        return Some(AlreadyDisabled);
      }
      sources := sources[id := previous.(version := previous.version + 1, active := false)];
      return None;
    }

    /** The independent re-check of a pack's evidence. */
    method CheckEvidence(scope: Scope, pack: Pack) returns (fault: Option<Error>)
      ensures fault == FirstEvidenceFault(State(), scope, pack, pack.result.candidates)
    {
      var items := pack.result.candidates;
      var seen: set<(SourceId, string)> := {};
      var counts: map<SourceId, nat> := map[];
      for k := 0 to |items|
        invariant FirstEvidenceFault(State(), scope, pack, items[..k]).None?
        invariant seen == KeysOf(items[..k]) && CountsMatch(counts, items[..k])
      {
        var item := items[k];
        var source := item.chunk.source;
        EvidenceFaultAt(State(), scope, pack, items, k);
        var binding := BindingFault(State(), scope, pack, item);
        if binding.Some? {
          return binding;
        }
        Counted(counts, items[..k], item);
        counts := counts[source := 1 + if source in counts then counts[source] else 0];
        if item.Key() in seen || counts[source] > pack.query.maxPerSource || item.score <= 0.0 {
          return Some(PackDuplicateOrDiversity);
        }
        seen := seen + {item.Key()};
      }
      assert items[..|items|] == items;
      return None;
    }

    method SavePack(envelope: Pack -> nat, pack: Pack) returns (fault: Option<Error>)
      modifies this`packs
      ensures fault == old(SaveFault(State(), envelope, pack))
      ensures packs == if fault.Some? then old(packs) else old(packs)[pack.id := pack]
    {
      var found := GetRun(State(), pack.workspace, pack.run);
      if found.Err? {
        return Some(found.error);
      }
      var run := found.value;
      if || pack.id in packs
         || pack.query.workspace != pack.workspace
         || PackCount(packs, pack.workspace, pack.run) >= MAX_PACKS
         || envelope(pack) > pack.query.maxContext
         || !run.running
         || run.pending
         || !(run.createdAt <= pack.createdAt < run.deadline)
      {
        return Some(PackIdentityOrLimit);
      }
      if !WithinScope(pack.query, run.scope) {
        return Some(PackQueryScope);
      }
      fault := CheckEvidence(run.scope, pack);
      if fault.None? {
        packs := packs[pack.id := pack];
      }
    }

    method CollectEligible(workspace: nat, ids: seq<SourceId>, trust: seq<TrustClass>)
      returns (r: Result<seq<Candidate>, Error>)
      ensures r == Eligible(State(), workspace, ids, trust)
    {
      var eligible: seq<Candidate> := [];
      for k := 0 to |ids|
        invariant Eligible(State(), workspace, ids[..k], trust) == Ok(eligible)
      {
        assert ids[..k + 1][..k] == ids[..k];
        var more := OfSource(State(), workspace, ids[k], trust);
        if more.Err? {
          EligibleFailureStays(State(), workspace, ids, trust, k + 1);
          return more;
        }
        eligible := eligible + more.value;
      }
      assert ids[..|ids|] == ids;
      return Ok(eligible);
    }

    /** Drops the last candidate until the rendered pack fits, or none are left. */
    method TrimToBudget(envelope: Pack -> nat, pack: Pack) returns (trimmed: Pack)
      ensures trimmed == Trim(envelope, pack)
    {
      trimmed := pack;
      while envelope(trimmed) > trimmed.query.maxContext && trimmed.result.candidates != []
        invariant Trim(envelope, trimmed) == Trim(envelope, pack)
        decreases |trimmed.result.candidates|
      {
        trimmed := Cutback(trimmed, |trimmed.result.candidates| - 1);
      }
    }

    /** Answers a query, saves the evidence and makes it the run's active pack; all or nothing. */
    method Query(
      m: Measures, envelope: Pack -> nat, req: Request, clock: Clock, parentsActive: bool, packId: nat)
      returns (r: Result<Pack, Error>)
      modifies this
      ensures State() == if r.Ok? && r.value.run in old(runs) then Recorded(old(State()), r.value) else old(State())
      ensures r.Ok? ==> r.value.run in old(runs)
      ensures old(RequestFault(State(), req, clock.entered, parentsActive)).Some? ==>
                r == Err(old(RequestFault(State(), req, clock.entered, parentsActive)).value)
      ensures old(RequestFault(State(), req, clock.entered, parentsActive)).None? ==>
                && req.run in old(runs)
                && match EligibleFor(old(State()), req)
                   case Err(e) => r == Err(e)
                   case Ok(eligible) =>
                     exists ranked :: IsRanking(m, req.query, eligible, ranked)
                       && r == Finish(
                            old(State()), m, envelope, req, eligible, Selection(m, req.query, ranked), clock, packId)
    {
      var fault := RequestFault(State(), req, clock.entered, parentsActive);
      if fault.Some? {
        return Err(fault.value);
      }
      var run := runs[req.run];
      var found := CollectEligible(
        req.workspace,
        Allowed(req.query.sources, run.scope.sources),
        Allowed(req.query.trust, run.scope.trust));
      if found.Err? {
        return Err(found.error);
      }
      var eligible := found.value;
      var result := Retrieve(m, req.query, eligible);
      ghost var ranked :| IsRanking(m, req.query, eligible, ranked) && result == Selection(m, req.query, ranked);
      r := FinishQuery(m, envelope, req, eligible, result, clock, packId);
    }

    method FinishQuery(
      m: Measures, envelope: Pack -> nat, req: Request, eligible: seq<Candidate>, result: Retrieved,
      clock: Clock, packId: nat) returns (r: Result<Pack, Error>)
      requires req.run in runs
      modifies this
      ensures r == Finish(old(State()), m, envelope, req, eligible, result, clock, packId)
      ensures r.Ok? ==> r.value.run in old(runs)
      ensures State() == if r.Ok? then Recorded(old(State()), r.value) else old(State())
    {
      if !ValidResultSchema(result) {
        return Err(ResultSchema);
      }
      var fault := ValidateResult(m, req.query, result, eligible);
      if fault.Some? {
        return Err(fault.value);
      }
      var run := runs[req.run];
      if clock.checked >= run.deadline {
        return Err(DeadlineExceeded);
      }
      var pack := NewPack(req, result, packId, clock.stamped);
      if !ValidPack(pack) {
        return Err(PackSchema);
      }
      ghost var k := TrimKeepsLongestFit(envelope, pack);
      pack := TrimToBudget(envelope, pack);
      if envelope(pack) > req.query.maxContext {
        return Err(EnvelopeExceedsBudget);
      }
      fault := SavePack(envelope, pack);
      if fault.Some? {
        return Err(fault.value);
      }
      runs := runs[req.run := run.(version := run.version + 1, activePack := Some(pack.id))];
      return Ok(pack);
    }

    /** Re-checks the active pack each time the run wants to rely on it. */
    method ReadActivePack(id: nat) returns (r: Result<Option<Pack>, Error>)
      requires id in runs
      ensures r == ActivePack(State(), id)
    {
      var run := runs[id];
      if run.activePack.None? {
        return Ok(None);
      }
      var packId := run.activePack.value;
      if packId !in packs {
        return Err(NotFound);
      }
      var pack := packs[packId];
      if pack.workspace != run.workspace {
        return Err(WrongWorkspace);
      }
      if pack.run != id {
        return Err(PackRunBinding);
      }
      var items := pack.result.candidates;
      for k := 0 to |items|
        invariant FirstRevocation(State(), run, items[..k]).None?
      {
        assert items[..k + 1][..k] == items[..k];
        var fault := RevocationFault(State(), run, items[k]);
        if fault.Some? {
          RevocationStays(State(), run, items, k + 1);
          return Err(fault.value);
        }
      }
      assert items[..|items|] == items;
      return Ok(Some(pack));
    }
  }
}
