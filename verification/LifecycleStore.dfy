/** The entity store and its service as they run: dictionaries and lists changed in place.
    Each method does exactly what its command in `Lifecycle` says. */
module LifecycleStore {
  import opened Prelude
  import opened Lifecycle
  import opened LifecycleSafety

  ghost predicate Ran(outcome: Outcome, before: Store, refused: Option<Rule>, after: Store) {
    match outcome
    case Refused(rule) => refused == Some(rule) && after == before
    case Done(s) => refused == None && after == s
  }

  class DomainStore {
    var workspaces: set<WorkspaceId>
    var entities: Entities
    var log: seq<Transition>

    function Contents(): (s: Store)
      reads this
    {
      Store(workspaces, entities, log)
    }

    constructor ()
      ensures Contents() == EMPTY_STORE
    {
      workspaces, entities, log := {}, map[], [];
    }

    /** Everything goes back to what the transaction found. */
    method Rollback(snapshot: Store)
      modifies this
      ensures Contents() == snapshot
    {
      workspaces, entities, log := snapshot.workspaces, snapshot.entities, snapshot.log;
    }

    // ---------- The adapter ----------

    method Add(e: Entity) returns (refused: Option<Rule>)
      modifies this`entities
      ensures Ran(AddEntity(old(Contents()), e), old(Contents()), refused, Contents())
    {
      if e.Subject() in entities {
        return Some(EntityIdUnique);
      }
      refused := ReferenceError(Contents(), e);
      if refused.Some? {
        return;
      }
      if e.version != 1 {
        return Some(CreationRequiresInitialVersion);
      }
      entities := entities[e.Subject() := e];
    }

    method Save(e: Entity, expected: nat, t: Transition) returns (refused: Option<Rule>)
      modifies this`entities, this`log
      ensures Ran(SaveEntity(old(Contents()), e, expected, t), old(Contents()), refused, Contents())
    {
      if e.Subject() !in entities {
        return Some(NotFound);
      }
      var current := entities[e.Subject()];
      if current.version != expected {
        return Some(VersionConflict);
      }
      if || e.version != expected + 1 || t.subject != e.Subject()
         || t.fromVersion != expected || t.toVersion != e.version
      {
        return Some(TransitionMismatch);
      }
      if e.status !in Allowed(current.Kind(), current.status) {
        return Some(InvalidTransition);
      }
      if e.Definition() != current.Definition() {
        return Some(HistoricalDefinitionImmutable);
      }
      if t.before != current.status || t.after != e.status || t.at != e.updatedAt {
        return Some(TransitionMismatch);
      }
      entities := entities[e.Subject() := e];
      log := log + [t];
      return None;
    }

    // ---------- The service ----------

    method MoveTo(key: Key, expected: nat, to: Status, at: int) returns (refused: Option<Rule>)
      modifies this`entities, this`log
      ensures Ran(MoveEntity(old(Contents()), key, expected, to, at), old(Contents()), refused, Contents())
    {
      if key !in entities {
        return Some(NotFound);
      }
      if entities[key].version != expected {
        return Some(VersionConflict);
      }
      var moved := Transitioned(entities[key], to, at);
      if moved.Err? {
        return Some(moved.error);
      }
      refused := Save(moved.value.0, expected, moved.value.1);
    }

    method CreateTask(id: EntityId, workspace: WorkspaceId, goal: EntityId, at: int) returns (refused: Option<Rule>)
      modifies this`entities
      ensures Ran(NewTask(old(Contents()), id, workspace, goal, at), old(Contents()), refused, Contents())
    {
      if workspace !in workspaces || !Exists(entities, GoalKind, goal) {
        return Some(NotFound);
      }
      var parent := entities[Key(GoalKind, goal)];
      if parent.workspace != workspace {
        return Some(WorkspaceMismatch);
      }
      if parent.status != Active {
        return Some(RequiresActiveGoal);
      }
      refused := Add(Task(id, workspace, goal, Proposed, 1, at));
    }

    method CreateExecution(
      id: EntityId, workspace: WorkspaceId, goal: EntityId, bound: nat, retryOf: Option<EntityId>, at: int)
      returns (refused: Option<Rule>)
      modifies this`entities
      ensures Ran(NewExecution(old(Contents()), id, workspace, goal, bound, retryOf, at), old(Contents()), refused,
        Contents())
    {
      if workspace !in workspaces || !Exists(entities, GoalKind, goal) {
        return Some(NotFound);
      }
      var parent := entities[Key(GoalKind, goal)];
      if parent.workspace != workspace {
        return Some(WorkspaceMismatch);
      }
      if parent.status != Active {
        return Some(RequiresActiveGoal);
      }
      if retryOf.Some? {
        if !Exists(entities, ExecutionKind, retryOf.value) {
          return Some(NotFound);
        }
        var previous := Get(entities, ExecutionKind, retryOf.value);
        if previous.workspace != workspace {
          return Some(WorkspaceMismatch);
        }
        if previous.goal != goal || !previous.Ended() {
          return Some(RequiresTerminalExecution);
        }
      }
      if bound < 1 {
        return Some(ExecutionAttemptBound);
      }
      refused := Add(Execution(id, workspace, goal, bound, retryOf, Created, 1, at));
    }

    /** One pass over the task's attempts: whether all have ended, and which has the highest ordinal. */
    method ScanAttempts(task: EntityId) returns (count: nat, ended: bool, latest: Option<EntityId>)
      ensures count == |AttemptsForTask(entities, task)|
      ensures ended == AllAttemptsEnded(entities, AttemptsForTask(entities, task))
      ensures FollowsLatest(entities, task, latest)
    {
      var attempts := AttemptsForTask(entities, task);
      count, ended, latest := |attempts|, true, None;
      var rest := attempts;
      while rest != {}
        invariant rest <= attempts
        invariant ended <==> forall a | a in attempts - rest :: Get(entities, AttemptKind, a).Ended()
        invariant latest.None? <==> rest == attempts
        invariant latest.Some? ==> latest.value in attempts - rest
        invariant latest.Some? ==> forall a | a in attempts - rest ::
                    Get(entities, AttemptKind, a).ordinal <= Get(entities, AttemptKind, latest.value).ordinal
        decreases |rest|
      {
        var a :| a in rest;
        var attempt := Get(entities, AttemptKind, a);
        if !attempt.Ended() {
          ended := false;
        }
        if latest.None? || Get(entities, AttemptKind, latest.value).ordinal < attempt.ordinal {
          latest := Some(a);
        }
        rest := rest - {a};
      }
      assert attempts - rest == attempts;
    }

    lemma LatestUnique(task: EntityId, latest: Option<EntityId>)
      requires OneLine(entities, task) && FollowsLatest(entities, task, latest)
      ensures latest == Latest(entities, task)
    {
      LatestIsLast(entities, task, latest);
      LatestIsLast(entities, task, Latest(entities, task));
    }

    method CreateAttempt(id: EntityId, workspace: WorkspaceId, task: EntityId, execution: EntityId, at: int)
      returns (refused: Option<Rule>)
      requires OneLine(entities, task)
      modifies this`entities
      ensures Ran(NewAttempt(old(Contents()), id, workspace, task, execution, at), old(Contents()), refused, Contents())
    {
      if workspace !in workspaces || !Exists(entities, TaskKind, task) || !Exists(entities, ExecutionKind, execution) {
        return Some(NotFound);
      }
      var t, x := Get(entities, TaskKind, task), Get(entities, ExecutionKind, execution);
      if t.workspace != workspace || x.workspace != workspace {
        return Some(WorkspaceMismatch);
      }
      if t.goal != x.goal {
        return Some(AttemptParentsShareGoal);
      }
      if t.status != InProgress {
        return Some(RequiresInProgressTask);
      }
      if x.status != Running {
        return Some(RequiresRunningExecution);
      }
      var count, ended, latest := ScanAttempts(task);
      if !ended {
        return Some(OneNonTerminalAttempt);
      }
      if |AttemptsForExecution(entities, execution)| >= x.bound {
        return Some(ExecutionAttemptBound);
      }
      LatestUnique(task, latest);
      refused := Add(Attempt(id, workspace, task, execution, count + 1, latest, Created, 1, at));
    }

    /** There are tasks, and every one is completed. */
    method TasksCompleted(goal: EntityId) returns (completed: bool)
      ensures completed == AllTasksCompleted(entities, goal)
    {
      var tasks := TasksForGoal(entities, goal);
      if tasks == {} {
        return false;
      }
      completed := true;
      var rest := tasks;
      while rest != {}
        invariant rest <= tasks
        invariant completed <==> forall t | t in tasks - rest :: Get(entities, TaskKind, t).status == Completed
        decreases |rest|
      {
        var t :| t in rest;
        completed := completed && Get(entities, TaskKind, t).status == Completed;
        rest := rest - {t};
      }
      assert tasks - rest == tasks;
    }

    method Satisfy(goal: EntityId, expected: nat, at: int) returns (refused: Option<Rule>)
      modifies this`entities, this`log
      ensures Ran(Lifecycle.Satisfy(old(Contents()), goal, expected, at), old(Contents()), refused, Contents())
    {
      if !Exists(entities, GoalKind, goal) {
        return Some(NotFound);
      }
      if entities[Key(GoalKind, goal)].version != expected {
        return Some(VersionConflict);
      }
      var completed := TasksCompleted(goal);
      if !completed {
        return Some(RequiresAllTasksCompleted);
      }
      refused := MoveTo(Key(GoalKind, goal), expected, Satisfied, at);
    }

    method Complete(task: EntityId, attempt: EntityId, expected: nat, at: int) returns (refused: Option<Rule>)
      modifies this`entities, this`log
      ensures Ran(Lifecycle.Complete(old(Contents()), task, attempt, expected, at), old(Contents()), refused,
        Contents())
    {
      if !Exists(entities, TaskKind, task) || !Exists(entities, AttemptKind, attempt) {
        return Some(NotFound);
      }
      var t, a := Get(entities, TaskKind, task), Get(entities, AttemptKind, attempt);
      if t.version != expected {
        return Some(VersionConflict);
      }
      if t.workspace != a.workspace {
        return Some(WorkspaceMismatch);
      }
      if a.task != task || a.status != Succeeded {
        return Some(RequiresSucceededAttempt);
      }
      refused := MoveTo(Key(TaskKind, task), expected, Completed, at);
    }

    method Succeed(execution: EntityId, expected: nat, at: int) returns (refused: Option<Rule>)
      modifies this`entities, this`log
      ensures Ran(Lifecycle.Succeed(old(Contents()), execution, expected, at), old(Contents()), refused, Contents())
    {
      if !Exists(entities, ExecutionKind, execution) {
        return Some(NotFound);
      }
      var x := Get(entities, ExecutionKind, execution);
      if x.version != expected {
        return Some(VersionConflict);
      }
      var completed := TasksCompleted(x.goal);
      if !completed {
        return Some(RequiresAllTasksCompleted);
      }
      if !AllAttemptsEnded(entities, AttemptsForExecution(entities, execution)) {
        return Some(RequiresTerminalAttempts);
      }
      refused := MoveTo(Key(ExecutionKind, execution), expected, Succeeded, at);
    }
  }
}
