/** Answering a query for a run: eligible chunks, selection, both checks, trimming and saving. */
module KnowledgeRetrieval {
  import opened Prelude
  import opened Knowledge
  import opened Chunking
  import opened Sorting
  import opened Retrieval
  import opened KnowledgeBase
  import opened KnowledgeSafety

  datatype Request = Request(workspace: nat, run: nat, expected: nat, query: Query)

  /** The times read on entry, after selecting, and for the pack's own date. */
  datatype Clock = Clock(entered: nat, checked: nat, stamped: nat)

  function RequestFault(db: Db, req: Request, entered: nat, parentsActive: bool): Option<Error> {
    match GetRun(db, req.workspace, req.run)
    case Err(e) => Some(e)
    case Ok(run) =>
      if run.version != req.expected then Some(VersionConflict)
      else if !run.running || run.pending || entered >= run.deadline then Some(RequiresIdleActiveRun)
      else if !parentsActive then Some(ActiveParentBinding)
      else if req.query.workspace != req.workspace || !WithinScope(req.query, run.scope) then Some(QueryScopeDenied)
      else if PackCount(db.packs, req.workspace, req.run) >= MAX_PACKS then Some(QueriesPerRun)
      else None
  }

  function CandidatesOf(source: Source, version: SourceVersion, chunks: seq<Chunk>): seq<Candidate> {
    seq(|chunks|, i requires 0 <= i < |chunks| =>
      Candidate(chunks[i], source.name, source.trust, version.createdAt, 0.0))
  }

  /** Inactive and untrusted sources are passed over; a missing one refuses the query. */
  function OfSource(db: Db, workspace: nat, id: SourceId, trust: seq<TrustClass>): Result<seq<Candidate>, Error> {
    match GetSource(db, workspace, id)
    case Err(e) => Err(e)
    case Ok(source) =>
      if !source.active || source.trust !in trust then Ok([])
      else
        match GetVersion(db, workspace, id, source.contentVersion)
        case Err(e) => Err(e)
        case Ok(version) =>
          match GetChunks(db, workspace, id, source.contentVersion)
          case Err(e) => Err(e)
          case Ok(chunks) => Ok(CandidatesOf(source, version, chunks))
  }

  function Eligible(db: Db, workspace: nat, ids: seq<SourceId>, trust: seq<TrustClass>): Result<seq<Candidate>, Error> {
    if ids == [] then Ok([])
    else
      var k := |ids| - 1;
      match Eligible(db, workspace, ids[..k], trust)
      case Err(e) => Err(e)
      case Ok(earlier) =>
        match OfSource(db, workspace, ids[k], trust)
        case Err(e) => Err(e)
        case Ok(more) => Ok(earlier + more)
  }

  function EligibleFor(db: Db, req: Request): Result<seq<Candidate>, Error>
    requires req.run in db.runs
  {
    var scope := db.runs[req.run].scope;
    Eligible(db, req.workspace, Allowed(req.query.sources, scope.sources), Allowed(req.query.trust, scope.trust))
  }

  // ---- Trimming ----

  /** The pack with only its first k candidates, marked as truncated if that drops any. */
  function Cutback(pack: Pack, k: nat): Pack
    requires k <= |pack.result.candidates|
  {
    if k == |pack.result.candidates| then pack
    else pack.(result := pack.result.(candidates := pack.result.candidates[..k], truncated := true))
  }

  function Trim(envelope: Pack -> nat, pack: Pack): Pack
    decreases |pack.result.candidates|
  {
    var n := |pack.result.candidates|;
    if envelope(pack) > pack.query.maxContext && n > 0 then Trim(envelope, Cutback(pack, n - 1)) else pack
  }

  predicate FitsWith(envelope: Pack -> nat, pack: Pack, k: nat)
    requires k <= |pack.result.candidates|
  {
    envelope(Cutback(pack, k)) <= pack.query.maxContext
  }

  /** The candidates kept are the longest prefix that fits; with none fitting, nothing is kept. */
  lemma {:induction false} TrimKeepsLongestFit(envelope: Pack -> nat, pack: Pack) returns (k: nat)
    ensures k <= |pack.result.candidates| && Trim(envelope, pack) == Cutback(pack, k)
    ensures forall j | k < j <= |pack.result.candidates| :: !FitsWith(envelope, pack, j)
    ensures FitsWith(envelope, pack, k) || k == 0
    decreases |pack.result.candidates|
  {
    var n := |pack.result.candidates|;
    k := n;
    if envelope(pack) > pack.query.maxContext && n > 0 {
      var shorter := Cutback(pack, n - 1);
      k := TrimKeepsLongestFit(envelope, shorter);
      forall j | 0 <= j < n ensures Cutback(shorter, j) == Cutback(pack, j) {
        assert pack.result.candidates[..n - 1][..j] == pack.result.candidates[..j];
      }
      forall j | k < j <= n ensures !FitsWith(envelope, pack, j) {
        assert j < n ==> !FitsWith(envelope, shorter, j);
      }
    }
  }

  // ---- Finishing a query ----

  function NewPack(req: Request, result: Retrieved, packId: nat, stamped: nat): Pack {
    Pack(packId, req.workspace, req.run, req.query, result, stamped)
  }

  /** What becomes of a retriever's answer: every complaint the code can raise, in its order. */
  function Finish(
    db: Db, m: Measures, envelope: Pack -> nat, req: Request,
    eligible: seq<Candidate>, result: Retrieved, clock: Clock, packId: nat): Result<Pack, Error>
    requires req.run in db.runs
  {
    var fault := ResultFault(m, req.query, result, eligible);
    var pack := NewPack(req, result, packId, clock.stamped);
    if !ValidResultSchema(result) then Err(ResultSchema)
    else if fault.Some? then Err(fault.value)
    else if clock.checked >= db.runs[req.run].deadline then Err(DeadlineExceeded)
    else if !ValidPack(pack) then Err(PackSchema)
    else
      var trimmed := Trim(envelope, pack);
      if envelope(trimmed) > req.query.maxContext then Err(EnvelopeExceedsBudget)
      else
        match SaveFault(db, envelope, trimmed)
        case Some(e) => Err(e)
        case None => Ok(trimmed)
  }

  // ---- Eligible candidates ----

  /** An eligible candidate: unscored, current, and citable by the run in any pack for the query. */
  predicate Sound(db: Db, scope: Scope, req: Request, c: Candidate) {
    && c.score == 0.0
    && c.chunk.workspace == req.workspace
    && BindingFault(db, scope, NewPack(req, Retrieved([], 0, false), 0, 0), c).None?
  }

  lemma OfSourceIsSound(db: Db, req: Request, id: SourceId)
    requires KnowledgeOk(db) && req.run in db.runs && WithinScope(req.query, db.runs[req.run].scope)
    requires var scope := db.runs[req.run].scope;
             && id in Allowed(req.query.sources, scope.sources)
             && OfSource(db, req.workspace, id, Allowed(req.query.trust, scope.trust)).Ok?
    ensures var scope := db.runs[req.run].scope;
            var found := OfSource(db, req.workspace, id, Allowed(req.query.trust, scope.trust)).value;
            && |found| <= 128
            && (forall i | 0 <= i < |found| ::
                 found[i].chunk.source == id && found[i].chunk.ordinal == i && Sound(db, scope, req, found[i]))
  {
    var scope := db.runs[req.run].scope;
    var found := OfSource(db, req.workspace, id, Allowed(req.query.trust, scope.trust)).value;
    if found != [] {
      var source := db.sources[id];
      var key := (id, source.contentVersion);
      assert key in db.versions;
      var v := db.versions[key];
      assert VersionFits(key, v, db.sources) && ChunksFit(v, db.chunks[key]);
      ChunksAreNumbered(v);
      forall i | 0 <= i < |found|
        ensures found[i].chunk.source == id && found[i].chunk.ordinal == i && Sound(db, scope, req, found[i])
      {
        assert found[i].chunk == db.chunks[key][i];
        assert found[i].chunk in db.chunks[key];
      }
    }
  }

  ghost predicate AllSound(db: Db, scope: Scope, req: Request, items: seq<Candidate>) {
    forall c {:trigger Sound(db, scope, req, c)} | c in items :: Sound(db, scope, req, c)
  }

  lemma {:induction false} EligibleIsSound(db: Db, req: Request, ids: seq<SourceId>)
    requires KnowledgeOk(db) && req.run in db.runs && WithinScope(req.query, db.runs[req.run].scope)
    requires var scope := db.runs[req.run].scope;
             && (forall id | id in ids :: id in Allowed(req.query.sources, scope.sources))
             && (forall j, k | 0 <= j < k < |ids| :: ids[j] != ids[k])
             && Eligible(db, req.workspace, ids, Allowed(req.query.trust, scope.trust)).Ok?
    ensures var scope := db.runs[req.run].scope;
            var found := Eligible(db, req.workspace, ids, Allowed(req.query.trust, scope.trust)).value;
            && |found| <= 128 * |ids|
            && AllSound(db, scope, req, found)
            && Positioned(found)
            && (forall c | c in found :: c.chunk.source in ids)
  {
    if ids != [] {
      var scope := db.runs[req.run].scope;
      var k := |ids| - 1;
      var trust := Allowed(req.query.trust, scope.trust);
      var earlier := Eligible(db, req.workspace, ids[..k], trust).value;
      var more := OfSource(db, req.workspace, ids[k], trust).value;
      EligibleIsSound(db, req, ids[..k]);
      OfSourceIsSound(db, req, ids[k]);
      assert forall c | c in earlier :: c.chunk.source in ids[..k] && c.chunk.source != ids[k];
      assert forall c | c in more :: c.chunk.source == ids[k];
    }
  }

  // ---- The answer passes ----

  /** A candidate's score plays no part in what it is bound to. */
  lemma SoundWhateverScore(db: Db, scope: Scope, req: Request, pack: Pack, c: Candidate)
    requires Sound(db, scope, req, c.(score := 0.0))
    requires pack.workspace == req.workspace && pack.query == req.query
    ensures BindingFault(db, scope, pack, c).None?
  {
  }

  lemma {:induction false} EvidencePasses(db: Db, scope: Scope, req: Request, pack: Pack, items: seq<Candidate>)
    requires pack.workspace == req.workspace && pack.query == req.query
    requires forall c | c in items :: Sound(db, scope, req, c.(score := 0.0)) && c.score > 0.0
    requires DistinctKeys(items) && Spread(items, req.query.maxPerSource)
    ensures FirstEvidenceFault(db, scope, pack, items).None?
  {
    if items != [] {
      var before, item := items[..|items| - 1], items[|items| - 1];
      assert items == before + [item];
      DistinctStep(before, item);
      SpreadStep(before, item, req.query.maxPerSource);
      EvidencePasses(db, scope, req, pack, before);
      SoundWhateverScore(db, scope, req, pack, item);
    }
  }

  lemma {:induction false} PrefixStaysBounded(items: seq<Candidate>, k: nat, n: nat)
    requires k <= |items| && DistinctKeys(items) && Spread(items, n)
    ensures DistinctKeys(items[..k]) && Spread(items[..k], n)
    decreases |items|
  {
    if k < |items| {
      var before, item := items[..|items| - 1], items[|items| - 1];
      assert items == before + [item];
      DistinctStep(before, item);
      SpreadStep(before, item, n);
      PrefixStaysBounded(before, k, n);
      assert before[..k] == items[..k];
    } else {
      assert items[..k] == items;
    }
  }

  /** A request that got as far as choosing evidence. */
  ghost predicate Accepted(db: Db, m: Measures, req: Request, clock: Clock, packId: nat, eligible: seq<Candidate>) {
    && KnowledgeOk(db)
    && ValidQuery(req.query)
    && RequestFault(db, req, clock.entered, true).None?
    && EligibleFor(db, req) == Ok(eligible)
    && packId !in db.packs
    && db.runs[req.run].createdAt <= clock.entered <= clock.checked <= clock.stamped
  }

  lemma EligibleIsBounded(
    db: Db, m: Measures, req: Request, clock: Clock, packId: nat, eligible: seq<Candidate>)
    requires Accepted(db, m, req, clock, packId, eligible)
    ensures |eligible| <= 2560
    ensures Positioned(eligible) && AllSound(db, db.runs[req.run].scope, req, eligible)
  {
    var scope := db.runs[req.run].scope;
    assert RunFits(req.run, db.runs[req.run], db.packs);
    EligibleIsSound(db, req, Allowed(req.query.sources, scope.sources));
  }

  /** Everything chosen from sound candidates is sound, scored and bounded. */
  lemma ChosenIsSound(
    db: Db, m: Measures, req: Request, clock: Clock, packId: nat, eligible: seq<Candidate>, ranked: seq<Candidate>)
    requires Accepted(db, m, req, clock, packId, eligible)
    requires IsRanking(m, req.query, eligible, ranked)
    ensures var result := Selection(m, req.query, ranked);
            && ResultFault(m, req.query, result, eligible).None?
            && ValidResultSchema(result)
            && DistinctKeys(result.candidates)
            && Spread(result.candidates, req.query.maxPerSource)
            && (forall c | c in result.candidates ::
                 Sound(db, db.runs[req.run].scope, req, c.(score := 0.0)) && c.score > 0.0)
  {
    EligibleIsBounded(db, m, req, clock, packId, eligible);
    var scope, result := db.runs[req.run].scope, Selection(m, req.query, ranked);
    forall c | c in eligible ensures c.score == 0.0 {
      assert Sound(db, scope, req, c);
    }
    SelectionPassesTheCheck(m, req.query, eligible, ranked);
    CheckPassesIffAcceptable(req.query, eligible, result.candidates);
  }

  /** Any part of the chosen evidence could be saved by the run while its deadline is ahead. */
  lemma PrefixIsSaved(
    db: Db, m: Measures, envelope: Pack -> nat, req: Request, clock: Clock, packId: nat,
    eligible: seq<Candidate>, ranked: seq<Candidate>, k: nat)
    requires Accepted(db, m, req, clock, packId, eligible)
    requires IsRanking(m, req.query, eligible, ranked)
    requires k <= |Choose(m, req.query, ranked)|
    ensures var pack := NewPack(req, Selection(m, req.query, ranked), packId, clock.stamped);
            && ValidPack(pack)
            && (FitsWith(envelope, pack, k) ==>
                 SaveFault(db, envelope, Cutback(pack, k))
                 == if clock.stamped < db.runs[req.run].deadline then None else Some(PackIdentityOrLimit))
  {
    ChosenIsSound(db, m, req, clock, packId, eligible, ranked);
    var pack := NewPack(req, Selection(m, req.query, ranked), packId, clock.stamped);
    var scope := db.runs[req.run].scope;
    forall c | c in pack.result.candidates ensures c.chunk.workspace == req.workspace {
      assert Sound(db, scope, req, c.(score := 0.0));
    }
    PrefixStaysBounded(pack.result.candidates, k, req.query.maxPerSource);
    assert Cutback(pack, k).result.candidates == pack.result.candidates[..k];
    EvidencePasses(db, scope, req, Cutback(pack, k), pack.result.candidates[..k]);
  }

  /** The outcome once both checks are known to pass. */
  lemma FinishesByTimeAndRoom(
    db: Db, m: Measures, envelope: Pack -> nat, req: Request, eligible: seq<Candidate>, result: Retrieved,
    clock: Clock, packId: nat, k: nat)
    requires req.run in db.runs
    requires ValidResultSchema(result) && ResultFault(m, req.query, result, eligible).None?
    requires var pack := NewPack(req, result, packId, clock.stamped);
             && ValidPack(pack)
             && k <= |result.candidates|
             && Trim(envelope, pack) == Cutback(pack, k)
             && (FitsWith(envelope, pack, k) ==>
                  SaveFault(db, envelope, Cutback(pack, k))
                  == if clock.stamped < db.runs[req.run].deadline then None else Some(PackIdentityOrLimit))
    ensures var pack := NewPack(req, result, packId, clock.stamped);
            var deadline := db.runs[req.run].deadline;
            Finish(db, m, envelope, req, eligible, result, clock, packId)
              == if clock.checked >= deadline then Err(DeadlineExceeded)
                 else if !FitsWith(envelope, pack, k) then Err(EnvelopeExceedsBudget)
                 else if clock.stamped >= deadline then Err(PackIdentityOrLimit)
                 else Ok(Trim(envelope, pack))
  {
  }

  /** Some prefix of the evidence, perhaps none of it, fits the budget. */
  ghost predicate HasRoom(envelope: Pack -> nat, pack: Pack) {
    exists k: nat :: k <= |pack.result.candidates| && FitsWith(envelope, pack, k)
  }

  lemma RoomIffTrimmedFits(envelope: Pack -> nat, pack: Pack) returns (k: nat)
    ensures k <= |pack.result.candidates| && Trim(envelope, pack) == Cutback(pack, k)
    ensures HasRoom(envelope, pack) <==> FitsWith(envelope, pack, k)
  {
    k := TrimKeepsLongestFit(envelope, pack);
  }

  /** A query that reaches selection fails only for want of time or of room: neither check of the
      answer ever objects. It succeeds exactly when the deadline is still ahead at both readings and
      some prefix of the evidence fits the budget, and then the longest such prefix is saved. */
  lemma SelectionFailsOnlyForTimeOrRoom(
    db: Db, m: Measures, envelope: Pack -> nat, req: Request, clock: Clock, packId: nat,
    eligible: seq<Candidate>, ranked: seq<Candidate>)
    requires Accepted(db, m, req, clock, packId, eligible)
    requires IsRanking(m, req.query, eligible, ranked)
    ensures var result := Selection(m, req.query, ranked);
            var pack := NewPack(req, result, packId, clock.stamped);
            var deadline := db.runs[req.run].deadline;
            Finish(db, m, envelope, req, eligible, result, clock, packId)
              == if clock.checked >= deadline then Err(DeadlineExceeded)
                 else if !HasRoom(envelope, pack) then Err(EnvelopeExceedsBudget)
                 else if clock.stamped >= deadline then Err(PackIdentityOrLimit)
                 else Ok(Trim(envelope, pack))
  {
    var result := Selection(m, req.query, ranked);
    ChosenIsSound(db, m, req, clock, packId, eligible, ranked);
    var k := RoomIffTrimmedFits(envelope, NewPack(req, result, packId, clock.stamped));
    PrefixIsSaved(db, m, envelope, req, clock, packId, eligible, ranked, k);
    FinishesByTimeAndRoom(db, m, envelope, req, eligible, result, clock, packId, k);
  }

  /** With a fixed clock time plays no part: only a budget too small even for no evidence refuses. */
  lemma FixedClockLeavesOnlyRoom(
    db: Db, m: Measures, envelope: Pack -> nat, req: Request, now: nat, packId: nat,
    eligible: seq<Candidate>, ranked: seq<Candidate>)
    requires Accepted(db, m, req, Clock(now, now, now), packId, eligible)
    requires IsRanking(m, req.query, eligible, ranked)
    ensures var r := Finish(
              db, m, envelope, req, eligible, Selection(m, req.query, ranked), Clock(now, now, now), packId);
            && (r.Err? ==> r.error == EnvelopeExceedsBudget)
            && (r.Ok? ==> KnowledgeOk(Recorded(db, r.value)))
  {
    SelectionFailsOnlyForTimeOrRoom(db, m, envelope, req, Clock(now, now, now), packId, eligible, ranked);
    var pack := NewPack(req, Selection(m, req.query, ranked), packId, now);
    var k := TrimKeepsLongestFit(envelope, pack);
    PrefixIsSaved(db, m, envelope, req, Clock(now, now, now), packId, eligible, ranked, k);
    if FitsWith(envelope, pack, k) {
      CutbackStaysValid(pack, k);
      RecordKeeps(db, envelope, Cutback(pack, k));
    }
  }

  lemma CutbackStaysValid(pack: Pack, k: nat)
    requires ValidPack(pack) && k <= |pack.result.candidates|
    ensures ValidPack(Cutback(pack, k))
  {
  }

  /** Two answers to one query over the same sources are the same. */
  lemma AnswersAreDeterministic(
    db: Db, m: Measures, req: Request, clock: Clock, packId: nat, eligible: seq<Candidate>,
    r1: seq<Candidate>, r2: seq<Candidate>)
    requires Accepted(db, m, req, clock, packId, eligible)
    requires IsRanking(m, req.query, eligible, r1) && IsRanking(m, req.query, eligible, r2)
    ensures Selection(m, req.query, r1) == Selection(m, req.query, r2)
  {
    EligibleIsBounded(db, m, req, clock, packId, eligible);
    RankingIsDeterministic(m, req.query, eligible, r1, r2);
  }
}
