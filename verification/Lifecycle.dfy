/** The versioned entity store under everything else, and the service commands on it.

    Goals, tasks, attempts and executions live in one store of entities beside an append-only
    log of transitions. A command is one transaction: it refuses with a rule or commits.
  */
module Lifecycle {
  import opened Prelude

  type EntityId = nat
  type WorkspaceId = nat

  datatype Kind = GoalKind | TaskKind | AttemptKind | ExecutionKind

  datatype Status =
    | Draft | Active | Satisfied | ClosedUnsatisfied
    | Proposed | Ready | InProgress | Blocked | Completed
    | Created | Running | Waiting | Succeeded
    | Failed | Cancelled

  function Initial(kind: Kind): Status {
    match kind
    case GoalKind => Draft
    case TaskKind => Proposed
    case AttemptKind => Created
    case ExecutionKind => Created
  }

  function Allowed(kind: Kind, status: Status): set<Status> {
    match kind
    case GoalKind =>
      if status == Draft then {Active, Cancelled}
      else if status == Active then {Satisfied, ClosedUnsatisfied, Cancelled}
      else {}
    case TaskKind =>
      if status == Proposed then {Ready, Cancelled}
      else if status == Ready then {InProgress, Cancelled}
      else if status == InProgress then {Completed, Ready, Blocked, Failed, Cancelled}
      else if status == Blocked then {Ready, Failed, Cancelled}
      else {}
    case AttemptKind =>
      if status == Created then {Running, Cancelled}
      else if status == Running then {Succeeded, Failed, Cancelled}
      else {}
    case ExecutionKind =>
      if status == Created then {Running, Cancelled}
      else if status == Running then {Waiting, Succeeded, Failed, Cancelled}
      else if status == Waiting then {Running, Failed, Cancelled}
      else {}
  }

  predicate Terminal(kind: Kind, status: Status) { Allowed(kind, status) == {} }

  datatype Key = Key(kind: Kind, id: EntityId)

  datatype Entity =
    | Goal(id: EntityId, workspace: WorkspaceId, status: Status, version: nat, updatedAt: int)
    | Task(id: EntityId, workspace: WorkspaceId, goal: EntityId, status: Status, version: nat, updatedAt: int)
    | Attempt(
        id: EntityId, workspace: WorkspaceId, task: EntityId, execution: EntityId,
        ordinal: nat, previous: Option<EntityId>, status: Status, version: nat, updatedAt: int)
    | Execution(
        id: EntityId, workspace: WorkspaceId, goal: EntityId, bound: nat, retryOf: Option<EntityId>,
        status: Status, version: nat, updatedAt: int)
  {
    function Kind(): Kind {
      match this
      case Goal(_, _, _, _, _) => GoalKind
      case Task(_, _, _, _, _, _) => TaskKind
      case Attempt(_, _, _, _, _, _, _, _, _) => AttemptKind
      case Execution(_, _, _, _, _, _, _, _) => ExecutionKind
    }

    function Subject(): Key { Key(Kind(), id) }

    predicate Ended() { Terminal(Kind(), status) }

    /** Everything a save may not change. */
    function Definition(): Entity { this.(status := Initial(Kind()), version := 1, updatedAt := 0) }
  }

  datatype Transition = Transition(
    subject: Key, before: Status, after: Status, fromVersion: nat, toVersion: nat, at: int)

  type Entities = map<Key, Entity>

  datatype Store = Store(workspaces: set<WorkspaceId>, entities: Entities, log: seq<Transition>)

  const EMPTY_STORE := Store({}, map[], [])

  datatype Rule =
    | NotFound
    | VersionConflict
    | EntityIdUnique
    | CreationRequiresInitialVersion
    | WorkspaceMismatch
    | AttemptParentsShareGoal
    | OneNonTerminalAttempt
    | AttemptLineage
    | ExecutionAttemptBound
    | InvalidTransition
    | TimeNotMonotonic
    | TransitionMismatch
    | HistoricalDefinitionImmutable
    | RequiresActiveGoal
    | RequiresAllTasksCompleted
    | RequiresSucceededAttempt
    | RequiresTerminalAttempts
    | RequiresTerminalExecution
    | RequiresInProgressTask
    | RequiresRunningExecution
    | NotASimpleChange

  datatype Outcome =
    | Refused(rule: Rule)
    | Done(store: Store)

  // ---------- Lookups ----------

  predicate Exists(entities: Entities, kind: Kind, id: EntityId) {
    Key(kind, id) in entities && entities[Key(kind, id)].Kind() == kind
  }

  function Get(entities: Entities, kind: Kind, id: EntityId): (e: Entity)
    requires Exists(entities, kind, id)
    ensures e.Kind() == kind
  {
    entities[Key(kind, id)]
  }

  predicate AttemptOf(entities: Entities, task: EntityId, a: EntityId) {
    Exists(entities, AttemptKind, a) && Get(entities, AttemptKind, a).task == task
  }

  function AttemptsForTask(entities: Entities, task: EntityId): set<EntityId> {
    set k | k in entities && k.kind == AttemptKind && AttemptOf(entities, task, k.id) :: k.id
  }

  predicate AttemptIn(entities: Entities, execution: EntityId, a: EntityId) {
    Exists(entities, AttemptKind, a) && Get(entities, AttemptKind, a).execution == execution
  }

  function AttemptsForExecution(entities: Entities, execution: EntityId): set<EntityId> {
    set k | k in entities && k.kind == AttemptKind && AttemptIn(entities, execution, k.id) :: k.id
  }

  predicate TaskOf(entities: Entities, goal: EntityId, t: EntityId) {
    Exists(entities, TaskKind, t) && Get(entities, TaskKind, t).goal == goal
  }

  function TasksForGoal(entities: Entities, goal: EntityId): set<EntityId> {
    set k | k in entities && k.kind == TaskKind && TaskOf(entities, goal, k.id) :: k.id
  }

  predicate AllTasksCompleted(entities: Entities, goal: EntityId) {
    var tasks := TasksForGoal(entities, goal);
    tasks != {} && forall t | t in tasks :: Get(entities, TaskKind, t).status == Completed
  }

  predicate AllAttemptsEnded(entities: Entities, attempts: set<EntityId>)
    requires forall a | a in attempts :: Exists(entities, AttemptKind, a)
  {
    forall a | a in attempts :: Get(entities, AttemptKind, a).Ended()
  }

  /** The task's attempt with the given ordinal, if there is one. */
  predicate HasOrdinal(entities: Entities, task: EntityId, a: EntityId, ordinal: nat) {
    AttemptOf(entities, task, a) && Get(entities, AttemptKind, a).ordinal == ordinal
  }

  /** `previous` names the latest of the task's attempts, or nothing when it has none. */
  predicate FollowsLatest(entities: Entities, task: EntityId, previous: Option<EntityId>) {
    var attempts := AttemptsForTask(entities, task);
    if attempts == {} then previous.None?
    else
      && previous.Some?
      && previous.value in attempts
      && forall a | a in attempts ::
           Get(entities, AttemptKind, a).ordinal <= Get(entities, AttemptKind, previous.value).ordinal
  }

  lemma {:induction false} LatestExists(entities: Entities, attempts: set<EntityId>)
    requires attempts != {} && forall a | a in attempts :: Exists(entities, AttemptKind, a)
    ensures exists a :: a in attempts && forall b | b in attempts ::
              Get(entities, AttemptKind, b).ordinal <= Get(entities, AttemptKind, a).ordinal
    decreases attempts
  {
    var a :| a in attempts;
    if attempts != {a} {
      LatestExists(entities, attempts - {a});
      var b :| b in attempts - {a} && forall c | c in attempts - {a} ::
                 Get(entities, AttemptKind, c).ordinal <= Get(entities, AttemptKind, b).ordinal;
      var best := if Get(entities, AttemptKind, a).ordinal <= Get(entities, AttemptKind, b).ordinal then b else a;
      assert forall c | c in attempts :: c == a || c in attempts - {a};
      assert best in attempts;
    }
  }

  /** The last of a task's attempts in ordinal order. */
  ghost function Latest(entities: Entities, task: EntityId): (latest: Option<EntityId>)
    ensures FollowsLatest(entities, task, latest)
  {
    var attempts := AttemptsForTask(entities, task);
    if attempts == {} then None
    else
      LatestExists(entities, attempts);
      var a :| a in attempts && forall b | b in attempts ::
                 Get(entities, AttemptKind, b).ordinal <= Get(entities, AttemptKind, a).ordinal;
      Some(a)
  }

  // ---------- Store primitives ----------

  /** `_references`: parents exist in the same workspace, and an attempt continues its task's line. */
  function ReferenceError(s: Store, e: Entity): Option<Rule> {
    if e.workspace !in s.workspaces then Some(NotFound)
    else match e
      case Goal(_, _, _, _, _) => None
      case Task(_, workspace, goal, _, _, _) => GoalError(s.entities, workspace, goal)
      case Execution(_, workspace, goal, _, _, _, _, _) => GoalError(s.entities, workspace, goal)
      case Attempt(_, workspace, task, execution, ordinal, previous, _, _, _) =>
        if !Exists(s.entities, TaskKind, task) || !Exists(s.entities, ExecutionKind, execution) then Some(NotFound)
        else
          var t, x := Get(s.entities, TaskKind, task), Get(s.entities, ExecutionKind, execution);
          var existing := AttemptsForTask(s.entities, task);
          if t.goal != x.goal then Some(AttemptParentsShareGoal)
          else if !AllAttemptsEnded(s.entities, existing) then Some(OneNonTerminalAttempt)
          else if ordinal != |existing| + 1 || !FollowsLatest(s.entities, task, previous) then Some(AttemptLineage)
          else if |AttemptsForExecution(s.entities, execution)| >= x.bound then Some(ExecutionAttemptBound)
          else if t.workspace != workspace || x.workspace != workspace then Some(WorkspaceMismatch)
          else None
  }

  function GoalError(entities: Entities, workspace: WorkspaceId, goal: EntityId): Option<Rule> {
    if !Exists(entities, GoalKind, goal) then Some(NotFound)
    else if Get(entities, GoalKind, goal).workspace != workspace then Some(WorkspaceMismatch)
    else None
  }

  function AddEntity(s: Store, e: Entity): Outcome {
    if e.Subject() in s.entities then Refused(EntityIdUnique)
    else match ReferenceError(s, e)
      case Some(rule) => Refused(rule)
      case None =>
        if e.version != 1 then Refused(CreationRequiresInitialVersion)
        else Done(s.(entities := s.entities[e.Subject() := e]))
  }

  function SaveEntity(s: Store, e: Entity, expected: nat, t: Transition): Outcome {
    if e.Subject() !in s.entities then Refused(NotFound)
    else
      var current := s.entities[e.Subject()];
      if current.version != expected then Refused(VersionConflict)
      else if
        || e.version != expected + 1
        || t.subject != e.Subject()
        || t.fromVersion != expected
        || t.toVersion != e.version
      then Refused(TransitionMismatch)
      else if e.status !in Allowed(current.Kind(), current.status) then Refused(InvalidTransition)
      else if e.Definition() != current.Definition() then Refused(HistoricalDefinitionImmutable)
      else if t.before != current.status || t.after != e.status || t.at != e.updatedAt then Refused(TransitionMismatch)
      else Done(s.(entities := s.entities[e.Subject() := e], log := s.log + [t]))
  }

  // ---------- Domain transitions ----------

  function Transitioned(e: Entity, to: Status, at: int): Result<(Entity, Transition), Rule> {
    if to !in Allowed(e.Kind(), e.status) then Err(InvalidTransition)
    else if at < e.updatedAt then Err(TimeNotMonotonic)
    else Ok((
      e.(status := to, version := e.version + 1, updatedAt := at),
      Transition(e.Subject(), e.status, to, e.version, e.version + 1, at)))
  }

  // ---------- Service commands ----------

  function MoveEntity(s: Store, key: Key, expected: nat, to: Status, at: int): Outcome {
    if key !in s.entities then Refused(NotFound)
    else if s.entities[key].version != expected then Refused(VersionConflict)
    else match Transitioned(s.entities[key], to, at)
      case Err(rule) => Refused(rule)
      case Ok((e, t)) => SaveEntity(s, e, expected, t)
  }

  datatype Command =
    | CreateWorkspace(workspace: WorkspaceId)
    | CreateGoal(id: EntityId, workspace: WorkspaceId)
    | CreateTask(id: EntityId, workspace: WorkspaceId, goal: EntityId)
    | CreateExecution(id: EntityId, workspace: WorkspaceId, goal: EntityId, bound: nat, retryOf: Option<EntityId>)
    | CreateAttempt(id: EntityId, workspace: WorkspaceId, task: EntityId, execution: EntityId)
    | Move(key: Key, expected: nat, to: Status)
    | SatisfyGoal(goal: EntityId, expected: nat)
    | CompleteTask(task: EntityId, attempt: EntityId, expected: nat)
    | SucceedExecution(execution: EntityId, expected: nat)

  /** The three ends that have a command of their own. */
  predicate Guarded(kind: Kind, to: Status) {
    || (kind == GoalKind && to == Satisfied)
    || (kind == TaskKind && to == Completed)
    || (kind == ExecutionKind && to == Succeeded)
  }

  function NewTask(s: Store, id: EntityId, workspace: WorkspaceId, goal: EntityId, at: int): Outcome {
    if workspace !in s.workspaces || !Exists(s.entities, GoalKind, goal) then Refused(NotFound)
    else if Get(s.entities, GoalKind, goal).workspace != workspace then Refused(WorkspaceMismatch)
    else if Get(s.entities, GoalKind, goal).status != Active then Refused(RequiresActiveGoal)
    else AddEntity(s, Task(id, workspace, goal, Proposed, 1, at))
  }

  function NewExecution(
    s: Store, id: EntityId, workspace: WorkspaceId, goal: EntityId, bound: nat, retryOf: Option<EntityId>,
    at: int): Outcome
  {
    if workspace !in s.workspaces || !Exists(s.entities, GoalKind, goal) then Refused(NotFound)
    else if Get(s.entities, GoalKind, goal).workspace != workspace then Refused(WorkspaceMismatch)
    else if Get(s.entities, GoalKind, goal).status != Active then Refused(RequiresActiveGoal)
    else if retryOf.Some? && !Exists(s.entities, ExecutionKind, retryOf.value) then Refused(NotFound)
    else if retryOf.Some? && Get(s.entities, ExecutionKind, retryOf.value).workspace != workspace
    then Refused(WorkspaceMismatch)
    else if && retryOf.Some?
            && (|| Get(s.entities, ExecutionKind, retryOf.value).goal != goal
                || !Get(s.entities, ExecutionKind, retryOf.value).Ended())
    then Refused(RequiresTerminalExecution)
    else if bound < 1 then Refused(ExecutionAttemptBound)
    else AddEntity(s, Execution(id, workspace, goal, bound, retryOf, Created, 1, at))
  }

  ghost function NewAttempt(
    s: Store, id: EntityId, workspace: WorkspaceId, task: EntityId, execution: EntityId, at: int): Outcome
  {
    if || workspace !in s.workspaces
       || !Exists(s.entities, TaskKind, task) || !Exists(s.entities, ExecutionKind, execution)
    then Refused(NotFound)
    else
      var t, x := Get(s.entities, TaskKind, task), Get(s.entities, ExecutionKind, execution);
      var existing := AttemptsForTask(s.entities, task);
      if t.workspace != workspace || x.workspace != workspace then Refused(WorkspaceMismatch)
      else if t.goal != x.goal then Refused(AttemptParentsShareGoal)
      else if t.status != InProgress then Refused(RequiresInProgressTask)
      else if x.status != Running then Refused(RequiresRunningExecution)
      else if !AllAttemptsEnded(s.entities, existing) then Refused(OneNonTerminalAttempt)
      else if |AttemptsForExecution(s.entities, execution)| >= x.bound then Refused(ExecutionAttemptBound)
      else AddEntity(s,
        Attempt(id, workspace, task, execution, |existing| + 1, Latest(s.entities, task), Created, 1, at))
  }

  function Satisfy(s: Store, goal: EntityId, expected: nat, at: int): Outcome {
    if !Exists(s.entities, GoalKind, goal) then Refused(NotFound)
    else if Get(s.entities, GoalKind, goal).version != expected then Refused(VersionConflict)
    else if !AllTasksCompleted(s.entities, goal) then Refused(RequiresAllTasksCompleted)
    else MoveEntity(s, Key(GoalKind, goal), expected, Satisfied, at)
  }

  function Complete(s: Store, task: EntityId, attempt: EntityId, expected: nat, at: int): Outcome {
    if !Exists(s.entities, TaskKind, task) || !Exists(s.entities, AttemptKind, attempt) then Refused(NotFound)
    else
      var t, a := Get(s.entities, TaskKind, task), Get(s.entities, AttemptKind, attempt);
      if t.version != expected then Refused(VersionConflict)
      else if t.workspace != a.workspace then Refused(WorkspaceMismatch)
      else if a.task != task || a.status != Succeeded then Refused(RequiresSucceededAttempt)
      else MoveEntity(s, Key(TaskKind, task), expected, Completed, at)
  }

  function Succeed(s: Store, execution: EntityId, expected: nat, at: int): Outcome {
    if !Exists(s.entities, ExecutionKind, execution) then Refused(NotFound)
    else
      var x := Get(s.entities, ExecutionKind, execution);
      if x.version != expected then Refused(VersionConflict)
      else if !AllTasksCompleted(s.entities, x.goal) then Refused(RequiresAllTasksCompleted)
      else if !AllAttemptsEnded(s.entities, AttemptsForExecution(s.entities, execution))
      then Refused(RequiresTerminalAttempts)
      else MoveEntity(s, Key(ExecutionKind, execution), expected, Succeeded, at)
  }

  ghost function Run(s: Store, cmd: Command, at: int): Outcome {
    match cmd
    case CreateWorkspace(workspace) =>
      if workspace in s.workspaces then Refused(EntityIdUnique)
      else Done(s.(workspaces := s.workspaces + {workspace}))
    case CreateGoal(id, workspace) => AddEntity(s, Goal(id, workspace, Draft, 1, at))
    case CreateTask(id, workspace, goal) => NewTask(s, id, workspace, goal, at)
    case CreateExecution(id, workspace, goal, bound, retryOf) =>
      NewExecution(s, id, workspace, goal, bound, retryOf, at)
    case CreateAttempt(id, workspace, task, execution) => NewAttempt(s, id, workspace, task, execution, at)
    case Move(key, expected, to) =>
      if Guarded(key.kind, to) then Refused(NotASimpleChange) else MoveEntity(s, key, expected, to, at)
    case SatisfyGoal(goal, expected) => Satisfy(s, goal, expected, at)
    case CompleteTask(task, attempt, expected) => Complete(s, task, attempt, expected, at)
    case SucceedExecution(execution, expected) => Succeed(s, execution, expected, at)
  }

  /** A refused command leaves the store as it was. */
  ghost function After(s: Store, cmd: Command, at: int): Store {
    match Run(s, cmd, at)
    case Refused(_) => s
    case Done(s') => s'
  }

  ghost predicate StepAt(stores: seq<Store>, k: nat)
    requires k + 1 < |stores|
  {
    exists cmd, at :: stores[k + 1] == After(stores[k], cmd, at)
  }

  /** A run: the stores passed through from the empty one on, each one command after the one before. */
  ghost predicate IsRun(stores: seq<Store>) {
    && stores != []
    && stores[0] == EMPTY_STORE
    && forall k: nat {:trigger StepAt(stores, k)} | k + 1 < |stores| :: StepAt(stores, k)
  }

  ghost predicate Reachable(s: Store) {
    exists stores :: IsRun(stores) && stores[|stores| - 1] == s
  }
}
