/** The knowledge store: publishing, disabling, saving evidence packs and reading them back. */
module KnowledgeBase {
  import opened Prelude
  import opened Knowledge
  import opened Chunking
  import opened Retrieval

  datatype Scope = Scope(sources: seq<SourceId>, trust: seq<TrustClass>)

  /** The part of an agent run that evidence depends on. */
  datatype Run = Run(
    workspace: nat,
    version: nat,
    running: bool,
    pending: bool,
    createdAt: nat,
    deadline: nat,
    scope: Scope,
    activePack: Option<nat>)

  datatype Pack = Pack(
    id: nat, workspace: nat, run: nat, query: Query, result: Retrieved, createdAt: nat)

  datatype Db = Db(
    workspaces: set<nat>,
    sources: map<SourceId, Source>,
    versions: map<(SourceId, nat), SourceVersion>,
    chunks: map<(SourceId, nat), seq<Chunk>>,
    packs: map<nat, Pack>,
    runs: map<nat, Run>)

  const MAX_SOURCES := 100
  const MAX_VERSIONS := 20
  const MAX_PACKS := 5

  /** What constructing a query, a result and a pack checks. */
  predicate ValidQuery(q: Query) {
    && 1 <= q.topK <= 10
    && 1 <= q.maxContext <= 12000
    && 1 <= q.maxPerSource <= 5
    && |q.sources| <= 20
    && (forall j, k | 0 <= j < k < |q.sources| :: q.sources[j] != q.sources[k])
  }

  predicate ValidResultSchema(r: Retrieved) {
    |r.candidates| <= 10 && |r.candidates| <= r.count <= 2560
  }

  predicate ValidPack(pack: Pack) {
    && ValidQuery(pack.query)
    && ValidResultSchema(pack.result)
    && pack.workspace == pack.query.workspace
    && |pack.result.candidates| <= pack.query.topK
    && (forall c | c in pack.result.candidates :: c.chunk.workspace == pack.workspace)
  }

  // ---- Lookups ----

  function GetRun(db: Db, workspace: nat, run: nat): Result<Run, Error> {
    if run !in db.runs then Err(NotFound)
    else if db.runs[run].workspace != workspace then Err(WrongWorkspace)
    else Ok(db.runs[run])
  }

  function GetSource(db: Db, workspace: nat, id: SourceId): Result<Source, Error> {
    if id !in db.sources then Err(NotFound)
    else if db.sources[id].workspace != workspace then Err(WrongWorkspace)
    else Ok(db.sources[id])
  }

  function GetVersion(db: Db, workspace: nat, id: SourceId, n: nat): Result<SourceVersion, Error> {
    match GetSource(db, workspace, id)
    case Err(e) => Err(e)
    case Ok(_) => if (id, n) in db.versions then Ok(db.versions[(id, n)]) else Err(NotFound)
  }

  function GetChunks(db: Db, workspace: nat, id: SourceId, n: nat): Result<seq<Chunk>, Error> {
    match GetVersion(db, workspace, id, n)
    case Err(e) => Err(e)
    case Ok(_) => if (id, n) in db.chunks then Ok(db.chunks[(id, n)]) else Err(NotFound)
  }

  function SourcesOf(sources: map<SourceId, Source>, workspace: nat): set<SourceId> {
    set id | id in sources && sources[id].workspace == workspace
  }

  function PacksOf(packs: map<nat, Pack>, workspace: nat, run: nat): set<nat> {
    set id | id in packs && packs[id].workspace == workspace && packs[id].run == run
  }

  function SourceCount(sources: map<SourceId, Source>, workspace: nat): nat {
    |SourcesOf(sources, workspace)|
  }

  function PackCount(packs: map<nat, Pack>, workspace: nat, run: nat): nat {
    |PacksOf(packs, workspace, run)|
  }

  // ---- Publishing ----

  function LineageFault(db: Db, s: Source, expected: Option<nat>): Option<Error> {
    if s.workspace !in db.workspaces then Some(NotFound)
    else if s.id in db.sources then
      var previous := db.sources[s.id];
      if previous.workspace != s.workspace then Some(WrongWorkspace)
      else if expected != Some(previous.version) then Some(VersionConflict)
      else if s != previous.(version := previous.version + 1, contentVersion := previous.contentVersion + 1)
              || !previous.active then Some(LineageImmutableOrDisabled)
      else None
    else if expected.Some? || s.version != 1 || s.contentVersion != 1 || !s.active then Some(InitialVersion)
    else if SourceCount(db.sources, s.workspace) >= MAX_SOURCES then Some(WorkspaceSourceLimit)
    else None
  }

  function PublishFault(db: Db, v: SourceVersion, chunks: seq<Chunk>, expected: Option<nat>): Option<Error>
    requires ValidVersion(v)
  {
    var lineage := LineageFault(db, v.source, expected);
    if lineage.Some? then lineage
    else if (v.source.id, v.source.contentVersion) in db.versions || v.source.contentVersion > MAX_VERSIONS then
      Some(VersionHistoryBound)
    else
      match Chunked(v)
      case Err(e) => Some(e)
      case Ok(own) => if chunks != own then Some(ChunkSourceBinding) else None
  }

  function Published(db: Db, v: SourceVersion, chunks: seq<Chunk>): Db {
    var key := (v.source.id, v.source.contentVersion);
    db.(sources := db.sources[v.source.id := v.source],
        versions := db.versions[key := v],
        chunks := db.chunks[key := chunks])
  }

  function DisableFault(db: Db, workspace: nat, id: SourceId, expected: nat): Option<Error> {
    match GetSource(db, workspace, id)
    case Err(e) => Some(e)
    case Ok(previous) =>
      if expected != previous.version then Some(VersionConflict)
      else if !previous.active then Some(AlreadyDisabled)
      else None
  }

  function Disabled(db: Db, id: SourceId): Db
    requires id in db.sources
  {
    var previous := db.sources[id];
    db.(sources := db.sources[id := previous.(version := previous.version + 1, active := false)])
  }

  // ---- Saving a pack ----

  /** An empty filter stands for everything in scope. */
  function Allowed<T>(filters: seq<T>, scope: seq<T>): seq<T> {
    if filters != [] then filters else scope
  }

  predicate WithinScope(q: Query, scope: Scope) {
    && scope.sources != []
    && (forall s | s in q.sources :: s in scope.sources)
    && (forall t | t in q.trust :: t in scope.trust)
  }

  function BindingFault(db: Db, scope: Scope, pack: Pack, item: Candidate): Option<Error> {
    var chunk := item.chunk;
    match GetSource(db, pack.workspace, chunk.source)
    case Err(e) => Some(e)
    case Ok(source) =>
      match GetVersion(db, pack.workspace, chunk.source, chunk.sourceVersion)
      case Err(e) => Some(e)
      case Ok(version) =>
        match GetChunks(db, pack.workspace, chunk.source, chunk.sourceVersion)
        case Err(e) => Some(e)
        case Ok(chunks) =>
          if || chunk.workspace != pack.workspace
             || chunk.source !in scope.sources
             || source.trust !in scope.trust
             || !source.active
             || source.contentVersion != chunk.sourceVersion
             || chunk.source !in Allowed(pack.query.sources, scope.sources)
             || source.trust !in Allowed(pack.query.trust, scope.trust)
             || chunk !in chunks
             || item.sourceName != version.source.name
             || item.trust != version.source.trust
             || item.sourceCreatedAt != version.createdAt
          then Some(PackEvidenceBinding)
          else None
  }

  function EvidenceFault(db: Db, scope: Scope, pack: Pack, before: seq<Candidate>, item: Candidate): Option<Error> {
    var binding := BindingFault(db, scope, pack, item);
    if binding.Some? then binding
    else if || item.Key() in KeysOf(before)
            || CountOf(before + [item], item.chunk.source) > pack.query.maxPerSource
            || item.score <= 0.0
    then Some(PackDuplicateOrDiversity)
    else None
  }

  function FirstEvidenceFault(db: Db, scope: Scope, pack: Pack, items: seq<Candidate>): Option<Error> {
    if items == [] then None
    else
      var k := |items| - 1;
      var earlier := FirstEvidenceFault(db, scope, pack, items[..k]);
      if earlier.Some? then earlier else EvidenceFault(db, scope, pack, items[..k], items[k])
  }

  /** The length of a rendered pack is a given function of it. */
  function SaveFault(db: Db, envelope: Pack -> nat, pack: Pack): Option<Error> {
    match GetRun(db, pack.workspace, pack.run)
    case Err(e) => Some(e)
    case Ok(run) =>
      if || pack.id in db.packs
         || pack.query.workspace != pack.workspace
         || PackCount(db.packs, pack.workspace, pack.run) >= MAX_PACKS
         || envelope(pack) > pack.query.maxContext
         || !run.running
         || run.pending
         || !(run.createdAt <= pack.createdAt < run.deadline)
      then Some(PackIdentityOrLimit)
      else if !WithinScope(pack.query, run.scope) then Some(PackQueryScope)
      else FirstEvidenceFault(db, run.scope, pack, pack.result.candidates)
  }

  /** Saving a pack makes it the run's active one, in the same transaction. */
  function Recorded(db: Db, pack: Pack): Db
    requires pack.run in db.runs
  {
    var run := db.runs[pack.run];
    db.(packs := db.packs[pack.id := pack],
        runs := db.runs[pack.run := run.(version := run.version + 1, activePack := Some(pack.id))])
  }

  // ---- Reading the active pack ----

  function RevocationFault(db: Db, run: Run, item: Candidate): Option<Error> {
    var chunk := item.chunk;
    match GetSource(db, run.workspace, chunk.source)
    case Err(e) => Some(e)
    case Ok(source) =>
      if !source.active || chunk.source !in run.scope.sources || source.trust !in run.scope.trust then
        Some(EvidenceRevoked)
      else
        match GetChunks(db, run.workspace, chunk.source, chunk.sourceVersion)
        case Err(e) => Some(e)
        case Ok(chunks) => if chunk !in chunks then Some(EvidenceRevoked) else None
  }

  function FirstRevocation(db: Db, run: Run, items: seq<Candidate>): Option<Error> {
    if items == [] then None
    else
      var k := |items| - 1;
      var earlier := FirstRevocation(db, run, items[..k]);
      if earlier.Some? then earlier else RevocationFault(db, run, items[k])
  }

  /** The pack a run may still rely on, or why it may not. */
  function ActivePack(db: Db, id: nat): Result<Option<Pack>, Error>
    requires id in db.runs
  {
    var run := db.runs[id];
    match run.activePack
    case None => Ok(None)
    case Some(packId) =>
      if packId !in db.packs then Err(NotFound)
      else
        var pack := db.packs[packId];
        if pack.workspace != run.workspace then Err(WrongWorkspace)
        else if pack.run != id then Err(PackRunBinding)
        else
          match FirstRevocation(db, run, pack.result.candidates)
          case Some(e) => Err(e)
          case None => Ok(Some(pack))
  }

  // ---- Runs of the store ----

  /** Commands as their transactions commit; `Move` is any other change of a run. */
  datatype Command =
    | Publish(version: SourceVersion, chunks: seq<Chunk>, expected: Option<nat>)
    | Disable(workspace: nat, source: SourceId, at: nat)
    | Record(pack: Pack)
    | Start(run: nat, started: Run)
    | Move(run: nat, moved: Run)

  predicate SameBinding(before: Run, after: Run) {
    && after.workspace == before.workspace
    && after.scope == before.scope
    && after.createdAt == before.createdAt
    && after.deadline == before.deadline
    && after.activePack == before.activePack
  }

  predicate ValidScope(scope: Scope) {
    && |scope.sources| <= 20
    && (forall j, k | 0 <= j < k < |scope.sources| :: scope.sources[j] != scope.sources[k])
    && scope.trust != []
  }

  /** A refused command leaves everything as it was. */
  function Exec(db: Db, envelope: Pack -> nat, c: Command): Db {
    match c
    case Publish(v, chunks, expected) =>
      if ValidVersion(v) && PublishFault(db, v, chunks, expected).None? then Published(db, v, chunks) else db
    case Disable(workspace, source, at) =>
      if DisableFault(db, workspace, source, at).None? then Disabled(db, source) else db
    case Record(pack) =>
      if ValidPack(pack) && SaveFault(db, envelope, pack).None? then Recorded(db, pack) else db
    case Start(id, run) =>
      if id !in db.runs && ValidScope(run.scope) && run.activePack.None? && run.createdAt < run.deadline
      then db.(runs := db.runs[id := run]) else db
    case Move(id, run) =>
      if id in db.runs && SameBinding(db.runs[id], run) then db.(runs := db.runs[id := run]) else db
  }

  ghost predicate StepAt(envelope: Pack -> nat, dbs: seq<Db>, k: nat)
    requires k + 1 < |dbs|
  {
    exists c :: dbs[k + 1] == Exec(dbs[k], envelope, c)
  }

  /** A run: the databases passed through, from one with workspaces and nothing else, each one command
      after the one before. */
  ghost predicate IsRun(envelope: Pack -> nat, dbs: seq<Db>) {
    && dbs != []
    && dbs[0] == Db(dbs[0].workspaces, map[], map[], map[], map[], map[])
    && forall k: nat {:trigger StepAt(envelope, dbs, k)} | k + 1 < |dbs| :: StepAt(envelope, dbs, k)
  }
}
