/** What every sequence of knowledge commands keeps, and when evidence stops being usable. */
module KnowledgeSafety {
  import opened Prelude
  import opened Knowledge
  import opened Chunking
  import opened Retrieval
  import opened KnowledgeBase

  // ---- The invariant ----

  /** A source's versions are numbered from one to its current version, without gaps. */
  ghost predicate HistoryIsWhole(id: SourceId, s: Source, versions: map<(SourceId, nat), SourceVersion>) {
    && s.id == id
    && 1 <= s.contentVersion <= MAX_VERSIONS
    && forall n: nat :: (id, n) in versions <==> 1 <= n <= s.contentVersion
  }

  ghost predicate SourcesOk(sources: map<SourceId, Source>, versions: map<(SourceId, nat), SourceVersion>) {
    forall id {:trigger HistoryIsWhole(id, sources[id], versions)} | id in sources ::
      HistoryIsWhole(id, sources[id], versions)
  }

  /** A version carries the source's own fixed fields. */
  predicate VersionFits(key: (SourceId, nat), v: SourceVersion, sources: map<SourceId, Source>) {
    && key.0 in sources
    && ValidVersion(v)
    && v.source.id == key.0
    && v.source.contentVersion == key.1
    && v.source.workspace == sources[key.0].workspace
    && v.source.name == sources[key.0].name
    && v.source.trust == sources[key.0].trust
    && v.source.createdAt == sources[key.0].createdAt
  }

  ghost predicate VersionsOk(sources: map<SourceId, Source>, versions: map<(SourceId, nat), SourceVersion>) {
    forall key {:trigger VersionFits(key, versions[key], sources)} | key in versions ::
      VersionFits(key, versions[key], sources)
  }

  predicate ChunksFit(v: SourceVersion, own: seq<Chunk>) {
    ValidVersion(v) && Chunked(v) == Ok(own)
  }

  ghost predicate ChunksOk(versions: map<(SourceId, nat), SourceVersion>, chunks: map<(SourceId, nat), seq<Chunk>>) {
    && chunks.Keys == versions.Keys
    && forall key {:trigger ChunksFit(versions[key], chunks[key])} | key in chunks ::
        ChunksFit(versions[key], chunks[key])
  }

  /** A cited chunk exists and its source is, but for being disabled, open to the run. */
  predicate Cited(
    item: Candidate, workspace: nat, scope: Scope,
    sources: map<SourceId, Source>, chunks: map<(SourceId, nat), seq<Chunk>>)
  {
    var chunk := item.chunk;
    && chunk.source in sources
    && sources[chunk.source].workspace == workspace
    && chunk.source in scope.sources
    && sources[chunk.source].trust in scope.trust
    && (chunk.source, chunk.sourceVersion) in chunks
    && chunk in chunks[(chunk.source, chunk.sourceVersion)]
  }

  ghost predicate PackFits(
    id: nat, pack: Pack, runs: map<nat, Run>,
    sources: map<SourceId, Source>, chunks: map<(SourceId, nat), seq<Chunk>>)
  {
    && pack.id == id
    && ValidPack(pack)
    && pack.run in runs
    && runs[pack.run].workspace == pack.workspace
    && DistinctKeys(pack.result.candidates)
    && Spread(pack.result.candidates, pack.query.maxPerSource)
    && (forall c {:trigger Cited(c, pack.workspace, runs[pack.run].scope, sources, chunks)}
          | c in pack.result.candidates :: Cited(c, pack.workspace, runs[pack.run].scope, sources, chunks))
  }

  ghost predicate PacksOk(db: Db) {
    forall id {:trigger PackFits(id, db.packs[id], db.runs, db.sources, db.chunks)} | id in db.packs ::
      PackFits(id, db.packs[id], db.runs, db.sources, db.chunks)
  }

  predicate RunFits(id: nat, run: Run, packs: map<nat, Pack>) {
    && ValidScope(run.scope)
    && (run.activePack.Some? ==>
         && run.activePack.value in packs
         && packs[run.activePack.value].run == id
         && packs[run.activePack.value].workspace == run.workspace)
  }

  ghost predicate RunsOk(packs: map<nat, Pack>, runs: map<nat, Run>) {
    forall id {:trigger RunFits(id, runs[id], packs)} | id in runs :: RunFits(id, runs[id], packs)
  }

  ghost predicate SourcesLimited(sources: map<SourceId, Source>) {
    forall w :: SourceCount(sources, w) <= MAX_SOURCES
  }

  ghost predicate PacksLimited(packs: map<nat, Pack>) {
    forall w, r :: PackCount(packs, w, r) <= MAX_PACKS
  }

  ghost predicate KnowledgeOk(db: Db) {
    && SourcesOk(db.sources, db.versions)
    && VersionsOk(db.sources, db.versions)
    && ChunksOk(db.versions, db.chunks)
    && PacksOk(db)
    && RunsOk(db.packs, db.runs)
    && SourcesLimited(db.sources)
    && PacksLimited(db.packs)
  }

  // ---- Publishing and disabling ----

  /** Old versions and chunks stay, sources keep their fixed fields. */
  ghost predicate Grows(before: Db, after: Db) {
    && before.packs == after.packs
    && before.runs == after.runs
    && (forall key | key in before.versions :: key in after.versions && after.versions[key] == before.versions[key])
    && (forall key | key in before.chunks :: key in after.chunks && after.chunks[key] == before.chunks[key])
    && (forall id | id in before.sources ::
         && id in after.sources
         && after.sources[id].workspace == before.sources[id].workspace
         && after.sources[id].name == before.sources[id].name
         && after.sources[id].trust == before.sources[id].trust
         && after.sources[id].createdAt == before.sources[id].createdAt)
  }

  lemma PacksOutlive(before: Db, after: Db)
    requires PacksOk(before) && Grows(before, after)
    ensures PacksOk(after)
  {
    forall id | id in after.packs ensures PackFits(id, after.packs[id], after.runs, after.sources, after.chunks) {
      var pack := before.packs[id];
      assert PackFits(id, pack, before.runs, before.sources, before.chunks);
      forall c | c in pack.result.candidates
        ensures Cited(c, pack.workspace, after.runs[pack.run].scope, after.sources, after.chunks)
      {
        assert Cited(c, pack.workspace, before.runs[pack.run].scope, before.sources, before.chunks);
      }
    }
  }

  lemma SourceLimitKept(before: map<SourceId, Source>, s: Source)
    requires SourcesLimited(before)
    requires s.id in before ==> before[s.id].workspace == s.workspace
    requires s.id !in before ==> SourceCount(before, s.workspace) < MAX_SOURCES
    ensures SourcesLimited(before[s.id := s])
  {
    var after := before[s.id := s];
    forall w ensures SourceCount(after, w) <= MAX_SOURCES {
      assert SourceCount(before, w) <= MAX_SOURCES;
      var was, now := SourcesOf(before, w), SourcesOf(after, w);
      if w == s.workspace {
        assert now == was + {s.id};
      } else {
        assert now == was;
      }
    }
  }

  /** A source moving on, by publishing or by being disabled. */
  predicate Advances(id: SourceId, s: Source, sources: map<SourceId, Source>) {
    id in sources ==>
      && s.workspace == sources[id].workspace
      && s.name == sources[id].name
      && s.trust == sources[id].trust
      && s.createdAt == sources[id].createdAt
  }

  lemma NoVersionsWithoutSource(
    sources: map<SourceId, Source>, versions: map<(SourceId, nat), SourceVersion>, id: SourceId)
    requires VersionsOk(sources, versions) && id !in sources
    ensures forall n: nat :: (id, n) !in versions
  {
    forall key | key in versions ensures key.0 in sources {
      assert VersionFits(key, versions[key], sources);
    }
  }

  lemma HistoriesKept(
    sources: map<SourceId, Source>, versions: map<(SourceId, nat), SourceVersion>, s: Source, v: SourceVersion)
    requires SourcesOk(sources, versions) && VersionsOk(sources, versions)
    requires v.source == s && 1 <= s.contentVersion <= MAX_VERSIONS
    requires s.contentVersion == if s.id in sources then sources[s.id].contentVersion + 1 else 1
    ensures SourcesOk(sources[s.id := s], versions[(s.id, s.contentVersion) := v])
  {
    var after, longer := sources[s.id := s], versions[(s.id, s.contentVersion) := v];
    forall id | id in after ensures HistoryIsWhole(id, after[id], longer) {
      if id in sources {
        assert HistoryIsWhole(id, sources[id], versions);
      } else {
        NoVersionsWithoutSource(sources, versions, id);
      }
    }
  }

  lemma VersionsKept(
    sources: map<SourceId, Source>, versions: map<(SourceId, nat), SourceVersion>, s: Source)
    requires VersionsOk(sources, versions) && Advances(s.id, s, sources)
    ensures VersionsOk(sources[s.id := s], versions)
  {
    forall key | key in versions ensures VersionFits(key, versions[key], sources[s.id := s]) {
      assert VersionFits(key, versions[key], sources);
    }
  }

  lemma VersionAdded(
    sources: map<SourceId, Source>, versions: map<(SourceId, nat), SourceVersion>, v: SourceVersion)
    requires VersionsOk(sources, versions) && ValidVersion(v)
    requires v.source.id in sources && sources[v.source.id] == v.source
    ensures VersionsOk(sources, versions[(v.source.id, v.source.contentVersion) := v])
  {
  }

  lemma ChunksKept(
    versions: map<(SourceId, nat), SourceVersion>, chunks: map<(SourceId, nat), seq<Chunk>>,
    v: SourceVersion, key: (SourceId, nat), own: seq<Chunk>)
    requires ChunksOk(versions, chunks) && ValidVersion(v) && Chunked(v) == Ok(own)
    ensures ChunksOk(versions[key := v], chunks[key := own])
  {
    var after, longer := versions[key := v], chunks[key := own];
    forall k | k in longer ensures ChunksFit(after[k], longer[k]) {
      if k != key {
        assert ChunksFit(versions[k], chunks[k]);
      }
    }
  }

  lemma PublishedVersionIsNew(db: Db, v: SourceVersion, chunks: seq<Chunk>, expected: Option<nat>)
    requires KnowledgeOk(db) && ValidVersion(v) && PublishFault(db, v, chunks, expected).None?
    ensures Advances(v.source.id, v.source, db.sources)
    ensures v.source.contentVersion
      == if v.source.id in db.sources then db.sources[v.source.id].contentVersion + 1 else 1
    ensures 1 <= v.source.contentVersion <= MAX_VERSIONS
    ensures (v.source.id, v.source.contentVersion) !in db.versions
    ensures v.source.id !in db.sources ==> SourceCount(db.sources, v.source.workspace) < MAX_SOURCES
    ensures Chunked(v) == Ok(chunks)
  {
  }

  lemma PublishGrows(db: Db, v: SourceVersion, chunks: seq<Chunk>)
    requires Advances(v.source.id, v.source, db.sources)
    requires (v.source.id, v.source.contentVersion) !in db.versions && db.chunks.Keys == db.versions.Keys
    ensures Grows(db, Published(db, v, chunks))
  {
    assert (v.source.id, v.source.contentVersion) !in db.chunks.Keys;
  }

  lemma PublishKeeps(db: Db, v: SourceVersion, chunks: seq<Chunk>, expected: Option<nat>)
    requires KnowledgeOk(db) && ValidVersion(v) && PublishFault(db, v, chunks, expected).None?
    ensures KnowledgeOk(Published(db, v, chunks))
  {
    PublishedVersionIsNew(db, v, chunks, expected);
    NewVersionKeeps(db, v, chunks);
  }

  lemma NewVersionKeeps(db: Db, v: SourceVersion, chunks: seq<Chunk>)
    requires KnowledgeOk(db) && ValidVersion(v) && Chunked(v) == Ok(chunks)
    requires Advances(v.source.id, v.source, db.sources)
    requires v.source.contentVersion
      == if v.source.id in db.sources then db.sources[v.source.id].contentVersion + 1 else 1
    requires 1 <= v.source.contentVersion <= MAX_VERSIONS
    requires (v.source.id, v.source.contentVersion) !in db.versions
    requires v.source.id !in db.sources ==> SourceCount(db.sources, v.source.workspace) < MAX_SOURCES
    ensures KnowledgeOk(Published(db, v, chunks))
  {
    var after := Published(db, v, chunks);
    HistoriesKept(db.sources, db.versions, v.source, v);
    VersionsKept(db.sources, db.versions, v.source);
    VersionAdded(after.sources, db.versions, v);
    ChunksKept(db.versions, db.chunks, v, (v.source.id, v.source.contentVersion), chunks);
    PublishGrows(db, v, chunks);
    PacksOutlive(db, after);
    SourceLimitKept(db.sources, v.source);
  }

  lemma DisabledHistoryKept(sources: map<SourceId, Source>, versions: map<(SourceId, nat), SourceVersion>, s: Source)
    requires SourcesOk(sources, versions)
    requires s.id in sources && s.contentVersion == sources[s.id].contentVersion
    ensures SourcesOk(sources[s.id := s], versions)
  {
    var after := sources[s.id := s];
    forall id | id in after ensures HistoryIsWhole(id, after[id], versions) {
      assert HistoryIsWhole(id, sources[id], versions);
    }
  }

  lemma DisableKeeps(db: Db, workspace: nat, id: SourceId, at: nat)
    requires KnowledgeOk(db) && DisableFault(db, workspace, id, at).None?
    ensures KnowledgeOk(Disabled(db, id))
  {
    var s := Disabled(db, id).sources[id];
    assert HistoryIsWhole(id, db.sources[id], db.versions);
    DisabledHistoryKept(db.sources, db.versions, s);
    VersionsKept(db.sources, db.versions, s);
    PacksOutlive(db, Disabled(db, id));
    SourceLimitKept(db.sources, s);
  }

  // ---- Saving packs ----

  /** What a saved pack's candidate was checked for. */
  predicate Bound(db: Db, scope: Scope, pack: Pack, item: Candidate) {
    && BindingFault(db, scope, pack, item).None?
    && Cited(item, pack.workspace, scope, db.sources, db.chunks)
  }

  lemma BoundIsCited(db: Db, scope: Scope, pack: Pack, item: Candidate)
    requires BindingFault(db, scope, pack, item).None?
    ensures Bound(db, scope, pack, item)
  {
  }

  lemma {:induction false} SavedEvidenceFits(db: Db, scope: Scope, pack: Pack, items: seq<Candidate>)
    requires FirstEvidenceFault(db, scope, pack, items).None?
    ensures DistinctKeys(items) && Spread(items, pack.query.maxPerSource)
    ensures forall c {:trigger Bound(db, scope, pack, c)} | c in items :: Bound(db, scope, pack, c)
  {
    if items != [] {
      var before, item := items[..|items| - 1], items[|items| - 1];
      assert EvidenceFault(db, scope, pack, before, item).None?;
      SavedEvidenceFits(db, scope, pack, before);
      BoundIsCited(db, scope, pack, item);
      assert items == before + [item];
      assert forall c :: c in items <==> c in before || c == item;
      DistinctStep(before, item);
      SpreadStep(before, item, pack.query.maxPerSource);
    } else {
      assert forall s :: CountOf([], s) == 0;
    }
  }

  lemma PackLimitKept(before: map<nat, Pack>, pack: Pack)
    requires PacksLimited(before)
    requires pack.id !in before && PackCount(before, pack.workspace, pack.run) < MAX_PACKS
    ensures PacksLimited(before[pack.id := pack])
  {
    var after := before[pack.id := pack];
    forall w, r ensures PackCount(after, w, r) <= MAX_PACKS {
      assert PackCount(before, w, r) <= MAX_PACKS;
      var was, now := PacksOf(before, w, r), PacksOf(after, w, r);
      if w == pack.workspace && r == pack.run {
        assert now == was + {pack.id};
      } else {
        assert now == was;
      }
    }
  }

  lemma NewPackFits(db: Db, envelope: Pack -> nat, pack: Pack)
    requires ValidPack(pack) && SaveFault(db, envelope, pack).None?
    ensures PackFits(pack.id, pack, db.runs, db.sources, db.chunks)
  {
    var scope := db.runs[pack.run].scope;
    SavedEvidenceFits(db, scope, pack, pack.result.candidates);
    forall c | c in pack.result.candidates ensures Cited(c, pack.workspace, scope, db.sources, db.chunks) {
      assert Bound(db, scope, pack, c);
    }
  }

  /** Packs do not depend on the parts of a run that may change. */
  lemma PackIgnoresRunChange(
    id: nat, pack: Pack, runs: map<nat, Run>, r: nat, run: Run,
    sources: map<SourceId, Source>, chunks: map<(SourceId, nat), seq<Chunk>>)
    requires PackFits(id, pack, runs, sources, chunks)
    requires r in runs ==> run.workspace == runs[r].workspace && run.scope == runs[r].scope
    ensures PackFits(id, pack, runs[r := run], sources, chunks)
  {
    forall c | c in pack.result.candidates
      ensures Cited(c, pack.workspace, runs[r := run][pack.run].scope, sources, chunks)
    {
      assert Cited(c, pack.workspace, runs[pack.run].scope, sources, chunks);
    }
  }

  lemma RunsKeepWithPack(db: Db, pack: Pack)
    requires RunsOk(db.packs, db.runs) && pack.id !in db.packs
    requires pack.run in db.runs && db.runs[pack.run].workspace == pack.workspace
    ensures RunsOk(Recorded(db, pack).packs, Recorded(db, pack).runs)
  {
    var after := Recorded(db, pack);
    forall id | id in after.runs ensures RunFits(id, after.runs[id], after.packs) {
      assert RunFits(id, db.runs[id], db.packs);
    }
  }

  lemma RecordKeeps(db: Db, envelope: Pack -> nat, pack: Pack)
    requires KnowledgeOk(db) && ValidPack(pack) && SaveFault(db, envelope, pack).None?
    ensures KnowledgeOk(Recorded(db, pack))
  {
    var after := Recorded(db, pack);
    NewPackFits(db, envelope, pack);
    forall id | id in after.packs ensures PackFits(id, after.packs[id], after.runs, after.sources, after.chunks) {
      PackIgnoresRunChange(id, after.packs[id], db.runs, pack.run, after.runs[pack.run], db.sources, db.chunks);
    }
    RunsKeepWithPack(db, pack);
    PackLimitKept(db.packs, pack);
  }

  /** Changing a run's other fields, or starting one, touches no pack's evidence. */
  lemma RunChangeKeeps(db: Db, id: nat, run: Run)
    requires KnowledgeOk(db)
    requires if id in db.runs then SameBinding(db.runs[id], run) else ValidScope(run.scope) && run.activePack.None?
    ensures KnowledgeOk(db.(runs := db.runs[id := run]))
  {
    var after := db.(runs := db.runs[id := run]);
    forall p | p in after.packs ensures PackFits(p, after.packs[p], after.runs, after.sources, after.chunks) {
      PackIgnoresRunChange(p, db.packs[p], db.runs, id, run, db.sources, db.chunks);
    }
    forall r | r in after.runs ensures RunFits(r, after.runs[r], after.packs) {
      assert r in db.runs ==> RunFits(r, db.runs[r], db.packs);
    }
  }

  lemma CommandKeeps(db: Db, envelope: Pack -> nat, c: Command)
    requires KnowledgeOk(db)
    ensures KnowledgeOk(Exec(db, envelope, c))
  {
    if Exec(db, envelope, c) != db {
      match c
      case Publish(v, chunks, expected) => PublishKeeps(db, v, chunks, expected);
      case Disable(workspace, source, at) => DisableKeeps(db, workspace, source, at);
      case Record(pack) => RecordKeeps(db, envelope, pack);
      case Start(id, run) => RunChangeKeeps(db, id, run);
      case Move(id, run) => RunChangeKeeps(db, id, run);
    }
  }

  lemma EmptyOk(db: Db)
    requires db == Db(db.workspaces, map[], map[], map[], map[], map[])
    ensures KnowledgeOk(db)
  {
    assert forall w :: SourcesOf(db.sources, w) == {} && SourceCount(db.sources, w) == 0;
    assert forall w, r :: PacksOf(db.packs, w, r) == {} && PackCount(db.packs, w, r) == 0;
  }

  lemma StepKeeps(envelope: Pack -> nat, dbs: seq<Db>, k: nat)
    requires IsRun(envelope, dbs) && k + 1 < |dbs| && KnowledgeOk(dbs[k])
    ensures KnowledgeOk(dbs[k + 1])
  {
    assert StepAt(envelope, dbs, k);
    var c :| dbs[k + 1] == Exec(dbs[k], envelope, c);
    CommandKeeps(dbs[k], envelope, c);
  }

  /** The invariant holds of every database of a run. */
  lemma {:induction false} RunInv(envelope: Pack -> nat, dbs: seq<Db>, n: nat)
    requires IsRun(envelope, dbs) && n < |dbs|
    ensures KnowledgeOk(dbs[n])
  {
    if n == 0 {
      EmptyOk(dbs[0]);
    } else {
      RunInv(envelope, dbs, n - 1);
      StepKeeps(envelope, dbs, n - 1);
    }
  }

  // ---- Theorems ----

  predicate IsLive(item: Candidate, sources: map<SourceId, Source>) {
    item.chunk.source in sources && sources[item.chunk.source].active
  }

  lemma RevocationIsDisabling(db: Db, run: Run, item: Candidate)
    requires ChunksOk(db.versions, db.chunks)
    requires Cited(item, run.workspace, run.scope, db.sources, db.chunks)
    ensures RevocationFault(db, run, item) == if IsLive(item, db.sources) then None else Some(EvidenceRevoked)
  {
    assert (item.chunk.source, item.chunk.sourceVersion) in db.versions.Keys;
  }

  ghost predicate AllCited(db: Db, run: Run, items: seq<Candidate>) {
    forall c {:trigger Cited(c, run.workspace, run.scope, db.sources, db.chunks)}
      | c in items :: Cited(c, run.workspace, run.scope, db.sources, db.chunks)
  }

  predicate AllLive(items: seq<Candidate>, sources: map<SourceId, Source>) {
    forall c | c in items :: IsLive(c, sources)
  }

  lemma {:induction false} RevokedIff(db: Db, run: Run, items: seq<Candidate>)
    requires ChunksOk(db.versions, db.chunks) && AllCited(db, run, items)
    ensures FirstRevocation(db, run, items) == if AllLive(items, db.sources) then None else Some(EvidenceRevoked)
  {
    if items != [] {
      var before, item := items[..|items| - 1], items[|items| - 1];
      assert items == before + [item];
      assert forall c :: c in items <==> c in before || c == item;
      assert AllLive(items, db.sources) <==> AllLive(before, db.sources) && IsLive(item, db.sources);
      assert Cited(item, run.workspace, run.scope, db.sources, db.chunks);
      RevokedIff(db, run, before);
      RevocationIsDisabling(db, run, item);
    }
  }

  /** After any commands, a run loses its evidence exactly when a cited source has been disabled;
      publishing newer versions never takes it away. */
  lemma EvidenceIsLostIffASourceIsDisabled(
    envelope: Pack -> nat, dbs: seq<Db>, n: nat, id: nat)
    requires IsRun(envelope, dbs) && n < |dbs|
    requires var db := dbs[n];
             id in db.runs && db.runs[id].activePack.Some?
    ensures var db := dbs[n];
            var p := db.runs[id].activePack.value;
            && p in db.packs
            && ActivePack(db, id) ==
                 if AllLive(db.packs[p].result.candidates, db.sources)
                 then Ok(Some(db.packs[p]))
                 else Err(EvidenceRevoked)
  {
    var db := dbs[n];
    RunInv(envelope, dbs, n);
    assert RunFits(id, db.runs[id], db.packs);
    var p := db.runs[id].activePack.value;
    assert PackFits(p, db.packs[p], db.runs, db.sources, db.chunks);
    forall c | c in db.packs[p].result.candidates
      ensures Cited(c, db.runs[id].workspace, db.runs[id].scope, db.sources, db.chunks)
    {
      assert Cited(c, db.packs[p].workspace, db.runs[db.packs[p].run].scope, db.sources, db.chunks);
    }
    RevokedIff(db, db.runs[id], db.packs[p].result.candidates);
  }

  /** Every fact a run may cite was published, in a source of its scope, with exactly that key and value. */
  lemma CitedFactsWerePublished(
    envelope: Pack -> nat, dbs: seq<Db>, n: nat, id: nat, item: Candidate)
    requires IsRun(envelope, dbs) && n < |dbs|
    requires var db := dbs[n];
             && id in db.runs
             && ActivePack(db, id).Ok? && ActivePack(db, id).value.Some?
             && item in ActivePack(db, id).value.value.result.candidates
    ensures var db := dbs[n];
            var key := (item.chunk.source, item.chunk.sourceVersion);
            && key in db.versions && key in db.chunks
            && item.chunk.source in db.runs[id].scope.sources
            && item.chunk in db.chunks[key]
            && item.chunk.workspace == db.runs[id].workspace
            && (item.chunk.fact.Some? ==> item.chunk.fact.value in db.versions[key].content.facts)
  {
    var db := dbs[n];
    RunInv(envelope, dbs, n);
    assert RunFits(id, db.runs[id], db.packs);
    var p := db.runs[id].activePack.value;
    assert PackFits(p, db.packs[p], db.runs, db.sources, db.chunks);
    assert Cited(item, db.packs[p].workspace, db.runs[id].scope, db.sources, db.chunks);
    var key := (item.chunk.source, item.chunk.sourceVersion);
    assert key in db.versions.Keys && ChunksFit(db.versions[key], db.chunks[key]);
    assert VersionFits(key, db.versions[key], db.sources);
    ChunkFactsAreTheVersions(db.versions[key], item.chunk);
  }

  lemma ChunkFactsAreTheVersions(v: SourceVersion, chunk: Chunk)
    requires ValidVersion(v) && Chunked(v).Ok? && chunk in Chunked(v).value
    ensures chunk.fact.Some? ==> chunk.fact.value in v.content.facts
    ensures chunk.workspace == v.source.workspace
  {
    LabelledIff(v, Parts(v));
  }

  /** Version numbers of a source run from one to its current version, and never past the limit;
      a version number is taken only when the history is full. */
  lemma HistoriesHaveNoGaps(envelope: Pack -> nat, dbs: seq<Db>, n: nat, id: SourceId)
    requires IsRun(envelope, dbs) && n < |dbs|
    requires id in dbs[n].sources
    ensures var db := dbs[n];
            && 1 <= db.sources[id].contentVersion <= MAX_VERSIONS
            && (forall v: nat :: (id, v) in db.versions <==> 1 <= v <= db.sources[id].contentVersion)
            && SourceCount(db.sources, db.sources[id].workspace) <= MAX_SOURCES
  {
    RunInv(envelope, dbs, n);
    var db := dbs[n];
    assert HistoryIsWhole(id, db.sources[id], db.versions);
  }
}
