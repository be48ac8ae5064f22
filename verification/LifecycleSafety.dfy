/** What every sequence of service commands keeps true of the entity store. */
module LifecycleSafety {
  import opened Prelude
  import opened Lifecycle

  // ---------- History ----------

  function Count(log: seq<Transition>, key: Key): nat {
    if log == [] then 0
    else Count(log[..|log| - 1], key) + (if log[|log| - 1].subject == key then 1 else 0)
  }

  /** The status reached by replaying an entity's transitions from its initial one, if each is legal and
      starts where the one before ended. */
  function Replay(log: seq<Transition>, key: Key): Option<Status> {
    if log == [] then Some(Initial(key.kind))
    else
      var last := log[|log| - 1];
      match Replay(log[..|log| - 1], key)
      case None => None
      case Some(status) =>
        if last.subject != key then Some(status)
        else if last.before == status && last.after in Allowed(key.kind, status) then Some(last.after)
        else None
  }

  lemma Appended(log: seq<Transition>, t: Transition, key: Key)
    ensures Count(log + [t], key) == Count(log, key) + (if t.subject == key then 1 else 0)
    ensures t.subject != key ==> Replay(log + [t], key) == Replay(log, key)
    ensures t.subject == key && Replay(log, key) == Some(t.before) && t.after in Allowed(key.kind, t.before) ==>
              Replay(log + [t], key) == Some(t.after)
  {
    assert (log + [t])[..|log|] == log;
  }

  ghost predicate KeyHistory(entities: Entities, log: seq<Transition>, key: Key) {
    if key in entities
    then
      && entities[key].Subject() == key
      && entities[key].version == 1 + Count(log, key)
      && Replay(log, key) == Some(entities[key].status)
    else Count(log, key) == 0 && Replay(log, key) == Some(Initial(key.kind))
  }

  ghost predicate HistoryInv(entities: Entities, log: seq<Transition>) {
    forall key: Key {:trigger KeyHistory(entities, log, key)} :: KeyHistory(entities, log, key)
  }

  // ---------- Structure ----------

  ghost predicate KeysInv(entities: Entities) {
    forall k | k in entities :: entities[k].Subject() == k
  }

  ghost predicate ParentsInv(entities: Entities, e: Entity) {
    match e
    case Goal(_, _, _, _, _) => true
    case Task(_, workspace, goal, _, _, _) => GoalError(entities, workspace, goal).None?
    case Execution(_, workspace, goal, _, _, _, _, _) => GoalError(entities, workspace, goal).None?
    case Attempt(_, workspace, task, execution, _, _, _, _, _) =>
      && Exists(entities, TaskKind, task) && Exists(entities, ExecutionKind, execution)
      && Get(entities, TaskKind, task).goal == Get(entities, ExecutionKind, execution).goal
      && Get(entities, TaskKind, task).workspace == workspace
      && Get(entities, ExecutionKind, execution).workspace == workspace
  }

  ghost predicate ReferencesInv(entities: Entities) {
    forall k {:trigger ParentsInv(entities, entities[k])} | k in entities :: ParentsInv(entities, entities[k])
  }

  /** `a` is linked to the attempt before it, and is open only if it is the last of `n`. */
  ghost predicate Linked(entities: Entities, task: EntityId, n: nat, a: EntityId)
    requires AttemptOf(entities, task, a)
  {
    var attempt := Get(entities, AttemptKind, a);
    && 1 <= attempt.ordinal <= n
    && (attempt.ordinal == 1 <==> attempt.previous.None?)
    && (attempt.previous.Some? ==> HasOrdinal(entities, task, attempt.previous.value, attempt.ordinal - 1))
    && (!attempt.Ended() ==> attempt.ordinal == n)
  }

  /** A task's attempts form one line, ordinals 1 to n. */
  ghost predicate OneLine(entities: Entities, task: EntityId) {
    var attempts := AttemptsForTask(entities, task);
    && AllLinked(entities, task, attempts, |attempts|)
    && OrdinalsDiffer(entities, task)
    && OrdinalsUsed(entities, task, |attempts|)
  }

  ghost predicate AllLinked(entities: Entities, task: EntityId, attempts: set<EntityId>, n: nat)
    requires forall a | a in attempts :: AttemptOf(entities, task, a)
  {
    forall a {:trigger Linked(entities, task, n, a)} | a in attempts :: Linked(entities, task, n, a)
  }

  ghost predicate OrdinalsDiffer(entities: Entities, task: EntityId) {
    forall a, b, k: nat | HasOrdinal(entities, task, a, k) && HasOrdinal(entities, task, b, k) :: a == b
  }

  ghost predicate OrdinalUsed(entities: Entities, task: EntityId, k: nat) {
    exists a :: HasOrdinal(entities, task, a, k)
  }

  ghost predicate OrdinalsUsed(entities: Entities, task: EntityId, n: nat) {
    forall k: nat {:trigger OrdinalUsed(entities, task, k)} | 1 <= k <= n :: OrdinalUsed(entities, task, k)
  }

  ghost predicate LinesInv(entities: Entities) {
    forall task {:trigger OneLine(entities, task)} :: OneLine(entities, task)
  }

  ghost predicate WithinBound(entities: Entities, execution: EntityId) {
    Exists(entities, ExecutionKind, execution) ==>
      |AttemptsForExecution(entities, execution)| <= Get(entities, ExecutionKind, execution).bound
  }

  ghost predicate BoundsInv(entities: Entities) {
    forall execution {:trigger WithinBound(entities, execution)} :: WithinBound(entities, execution)
  }

  // ---------- Justification ----------

  ghost predicate HasSuccess(entities: Entities, task: EntityId) {
    exists a :: AttemptOf(entities, task, a) && Get(entities, AttemptKind, a).status == Succeeded
  }

  ghost predicate Justified(entities: Entities, e: Entity) {
    match e
    case Goal(id, _, status, _, _) => status == Satisfied ==> AllTasksCompleted(entities, id)
    case Task(id, _, _, status, _, _) =>
      status == Completed ==> HasSuccess(entities, id)
    case Execution(id, _, _, _, _, status, _, _) =>
      status == Succeeded ==> AllAttemptsEnded(entities, AttemptsForExecution(entities, id))
    case Attempt(_, _, _, _, _, _, _, _, _) => true
  }

  ghost predicate JustifiedInv(entities: Entities) {
    forall k {:trigger Justified(entities, entities[k])} | k in entities :: Justified(entities, entities[k])
  }

  ghost predicate Inv(s: Store) {
    && HistoryInv(s.entities, s.log)
    && KeysInv(s.entities)
    && ReferencesInv(s.entities)
    && LinesInv(s.entities)
    && BoundsInv(s.entities)
    && JustifiedInv(s.entities)
  }

  /** Ended entities never change, definitions never change, and nothing is removed. */
  ghost predicate EntityEvolves(x: Entity, y: Entity) {
    && y.Kind() == x.Kind()
    && y.Definition() == x.Definition()
    && x.version <= y.version
    && (x.Ended() ==> y == x)
  }

  ghost predicate Evolves(x: Entities, y: Entities) {
    forall k {:trigger k in y} {:trigger k in x} | k in x :: k in y && EntityEvolves(x[k], y[k])
  }

  lemma EvolvesTransitive(x: Entities, y: Entities, z: Entities)
    requires Evolves(x, y) && Evolves(y, z)
    ensures Evolves(x, z)
  {
    forall k | k in x ensures k in z && EntityEvolves(x[k], z[k]) {
      assert EntityEvolves(x[k], y[k]) && EntityEvolves(y[k], z[k]);
    }
  }

  // ---------- A saved entity ----------

  ghost predicate Steps(entities: Entities, e: Entity) {
    && e.Subject() in entities
    && entities[e.Subject()].Kind() == e.Kind()
    && e.Definition() == entities[e.Subject()].Definition()
    && e.status in Allowed(e.Kind(), entities[e.Subject()].status)
    && e.version == entities[e.Subject()].version + 1
  }

  lemma SavedLookups(entities: Entities, e: Entity)
    requires KeysInv(entities) && Steps(entities, e)
    ensures forall kind, id :: Exists(entities[e.Subject() := e], kind, id) == Exists(entities, kind, id)
    ensures forall task, a :: AttemptOf(entities[e.Subject() := e], task, a) == AttemptOf(entities, task, a)
    ensures forall x, a :: AttemptIn(entities[e.Subject() := e], x, a) == AttemptIn(entities, x, a)
    ensures forall goal, t :: TaskOf(entities[e.Subject() := e], goal, t) == TaskOf(entities, goal, t)
  {
  }

  lemma SavedSets(entities: Entities, e: Entity)
    requires KeysInv(entities) && Steps(entities, e)
    ensures forall task :: AttemptsForTask(entities[e.Subject() := e], task) == AttemptsForTask(entities, task)
    ensures forall x :: AttemptsForExecution(entities[e.Subject() := e], x) == AttemptsForExecution(entities, x)
    ensures forall goal :: TasksForGoal(entities[e.Subject() := e], goal) == TasksForGoal(entities, goal)
  {
    SavedLookups(entities, e);
    var after := entities[e.Subject() := e];
    forall task ensures AttemptsForTask(after, task) == AttemptsForTask(entities, task) {
      forall a ensures a in AttemptsForTask(after, task) <==> a in AttemptsForTask(entities, task) {
        InAttempts(entities, task, a);
        InAttempts(after, task, a);
      }
    }
    forall x ensures AttemptsForExecution(after, x) == AttemptsForExecution(entities, x) {
      forall a ensures a in AttemptsForExecution(after, x) <==> a in AttemptsForExecution(entities, x) {
        InExecution(entities, x, a);
        InExecution(after, x, a);
      }
    }
    forall goal ensures TasksForGoal(after, goal) == TasksForGoal(entities, goal) {
      forall t ensures t in TasksForGoal(after, goal) <==> t in TasksForGoal(entities, goal) {
        InGoal(entities, goal, t);
        InGoal(after, goal, t);
      }
    }
  }

  lemma InAttempts(entities: Entities, task: EntityId, a: EntityId)
    ensures a in AttemptsForTask(entities, task) <==> AttemptOf(entities, task, a)
  {
    if AttemptOf(entities, task, a) {
      assert Key(AttemptKind, a) in entities;
    }
  }

  lemma InExecution(entities: Entities, execution: EntityId, a: EntityId)
    ensures a in AttemptsForExecution(entities, execution) <==> AttemptIn(entities, execution, a)
  {
    if AttemptIn(entities, execution, a) {
      assert Key(AttemptKind, a) in entities;
    }
  }

  lemma InGoal(entities: Entities, goal: EntityId, t: EntityId)
    ensures t in TasksForGoal(entities, goal) <==> TaskOf(entities, goal, t)
  {
    if TaskOf(entities, goal, t) {
      assert Key(TaskKind, t) in entities;
    }
  }

  lemma SavedEvolves(entities: Entities, e: Entity)
    requires KeysInv(entities) && Steps(entities, e)
    ensures Evolves(entities, entities[e.Subject() := e])
  {
  }

  /** A completed task, an ended attempt: what later saves cannot undo. */
  lemma CompletedStays(x: Entities, y: Entities, goal: EntityId)
    requires Evolves(x, y) && AllTasksCompleted(x, goal) && TasksForGoal(y, goal) == TasksForGoal(x, goal)
    ensures AllTasksCompleted(y, goal)
  {
    forall t | t in TasksForGoal(y, goal) ensures Get(y, TaskKind, t).status == Completed {
      assert EntityEvolves(x[Key(TaskKind, t)], y[Key(TaskKind, t)]);
    }
  }

  lemma EndedStays(x: Entities, y: Entities, execution: EntityId)
    requires Evolves(x, y) && AttemptsForExecution(y, execution) == AttemptsForExecution(x, execution)
    requires AllAttemptsEnded(x, AttemptsForExecution(x, execution))
    ensures AllAttemptsEnded(y, AttemptsForExecution(y, execution))
  {
    forall a | a in AttemptsForExecution(y, execution) ensures Get(y, AttemptKind, a).Ended() {
      assert EntityEvolves(x[Key(AttemptKind, a)], y[Key(AttemptKind, a)]);
    }
  }

  lemma SavedHistory(entities: Entities, log: seq<Transition>, e: Entity, t: Transition)
    requires HistoryInv(entities, log) && Steps(entities, e) && t.subject == e.Subject()
    requires t.before == entities[e.Subject()].status && t.after == e.status
    ensures HistoryInv(entities[e.Subject() := e], log + [t])
  {
    var after, log' := entities[e.Subject() := e], log + [t];
    forall key: Key ensures KeyHistory(after, log', key) {
      assert KeyHistory(entities, log, key);
      Appended(log, t, key);
    }
  }

  lemma SavedReferences(entities: Entities, e: Entity)
    requires KeysInv(entities) && ReferencesInv(entities) && Steps(entities, e)
    ensures ReferencesInv(entities[e.Subject() := e])
  {
    var after := entities[e.Subject() := e];
    SavedLookups(entities, e);
    forall k | k in after ensures ParentsInv(after, after[k]) {
      assert ParentsInv(entities, entities[k]);
    }
  }

  /** A line seen through the same lookups of definitions is the same line. */
  lemma OrdinalsCarry(x: Entities, y: Entities, task: EntityId, n: nat)
    requires forall a, k: nat :: HasOrdinal(x, task, a, k) == HasOrdinal(y, task, a, k)
    requires OrdinalsDiffer(x, task) && OrdinalsUsed(x, task, n)
    ensures OrdinalsDiffer(y, task) && OrdinalsUsed(y, task, n)
  {
    forall k: nat | 1 <= k <= n ensures OrdinalUsed(y, task, k) {
      assert OrdinalUsed(x, task, k);
      var a :| HasOrdinal(x, task, a, k);
      assert HasOrdinal(y, task, a, k);
    }
  }

  lemma SavedLine(entities: Entities, e: Entity, task: EntityId)
    requires KeysInv(entities) && Steps(entities, e) && OneLine(entities, task)
    ensures OneLine(entities[e.Subject() := e], task)
  {
    var after := entities[e.Subject() := e];
    var attempts := AttemptsForTask(entities, task);
    SavedLookups(entities, e);
    SavedSets(entities, e);
    forall a, k: nat ensures HasOrdinal(entities, task, a, k) == HasOrdinal(after, task, a, k) {}
    OrdinalsCarry(entities, after, task, |attempts|);
    forall a | a in attempts ensures AttemptOf(after, task, a) && Linked(after, task, |attempts|, a) {
      assert Linked(entities, task, |attempts|, a);
    }
  }

  lemma SavedJustified(entities: Entities, e: Entity)
    requires KeysInv(entities) && JustifiedInv(entities) && Steps(entities, e)
    requires Justified(entities, e)
    ensures JustifiedInv(entities[e.Subject() := e])
  {
    var after := entities[e.Subject() := e];
    SavedLookups(entities, e);
    SavedSets(entities, e);
    SavedEvolves(entities, e);
    forall k | k in after ensures Justified(after, after[k]) {
      assert Justified(entities, entities[k]);
      JustificationStays(entities, after, after[k]);
    }
  }

  /** What justified an entity still does, when its tasks and attempts are the same ones. */
  lemma JustificationStays(x: Entities, y: Entities, e: Entity)
    requires Evolves(x, y) && Justified(x, e)
    requires e.Goal? ==> TasksForGoal(y, e.id) == TasksForGoal(x, e.id)
    requires e.Execution? ==> AttemptsForExecution(y, e.id) == AttemptsForExecution(x, e.id)
    ensures Justified(y, e)
  {
    match e
    case Goal(id, _, status, _, _) =>
      if status == Satisfied { CompletedStays(x, y, id); }
    case Task(id, _, _, status, _, _) =>
      if status == Completed {
        var a :| AttemptOf(x, id, a) && Get(x, AttemptKind, a).status == Succeeded;
        assert EntityEvolves(x[Key(AttemptKind, a)], y[Key(AttemptKind, a)]);
        assert AttemptOf(y, id, a);
      }
    case Execution(id, _, _, _, _, status, _, _) =>
      if status == Succeeded { EndedStays(x, y, id); }
    case Attempt(_, _, _, _, _, _, _, _, _) =>
  }

  lemma SavedKeeps(s: Store, e: Entity, t: Transition)
    requires Inv(s) && Steps(s.entities, e) && t.subject == e.Subject()
    requires t.before == s.entities[e.Subject()].status && t.after == e.status
    requires Justified(s.entities, e)
    ensures Inv(s.(entities := s.entities[e.Subject() := e], log := s.log + [t]))
    ensures Evolves(s.entities, s.entities[e.Subject() := e])
  {
    var after := s.entities[e.Subject() := e];
    SavedHistory(s.entities, s.log, e, t);
    SavedReferences(s.entities, e);
    forall task ensures OneLine(after, task) {
      assert OneLine(s.entities, task);
      SavedLine(s.entities, e, task);
    }
    SavedLookups(s.entities, e);
    SavedSets(s.entities, e);
    forall x ensures WithinBound(after, x) {
      assert WithinBound(s.entities, x);
    }
    SavedJustified(s.entities, e);
    SavedEvolves(s.entities, e);
  }

  lemma MoveKeeps(s: Store, key: Key, expected: nat, to: Status, at: int)
    requires Inv(s) && MoveEntity(s, key, expected, to, at).Done?
    requires key in s.entities ==> Justified(s.entities, s.entities[key].(status := to))
    ensures Inv(MoveEntity(s, key, expected, to, at).store)
    ensures Evolves(s.entities, MoveEntity(s, key, expected, to, at).store.entities)
  {
    var moved := Transitioned(s.entities[key], to, at).value;
    var e, t := moved.0, moved.1;
    assert Steps(s.entities, e);
    JustifiedByStatus(s.entities, s.entities[key].(status := to), e);
    SavedKeeps(s, e, t);
  }

  lemma JustifiedByStatus(entities: Entities, x: Entity, y: Entity)
    requires Justified(entities, x) && y.Definition() == x.Definition() && y.status == x.status
    ensures Justified(entities, y)
  {
  }

  // ---------- An added entity ----------

  lemma AddedEvolves(entities: Entities, e: Entity)
    requires e.Subject() !in entities
    ensures Evolves(entities, entities[e.Subject() := e])
  {
  }

  lemma AddedSets(entities: Entities, e: Entity)
    requires KeysInv(entities) && e.Subject() !in entities
    ensures forall task :: AttemptsForTask(entities[e.Subject() := e], task)
              == AttemptsForTask(entities, task) + (if e.Attempt? && e.task == task then {e.id} else {})
    ensures forall x :: AttemptsForExecution(entities[e.Subject() := e], x)
              == AttemptsForExecution(entities, x) + (if e.Attempt? && e.execution == x then {e.id} else {})
    ensures forall goal :: TasksForGoal(entities[e.Subject() := e], goal)
              == TasksForGoal(entities, goal) + (if e.Task? && e.goal == goal then {e.id} else {})
    ensures e.Attempt? ==>
      forall task, x :: e.id !in AttemptsForTask(entities, task) && e.id !in AttemptsForExecution(entities, x)
  {
    var after := entities[e.Subject() := e];
    forall task, a ensures a in AttemptsForTask(after, task)
        <==> a in AttemptsForTask(entities, task) || (e.Attempt? && e.task == task && a == e.id) {
      InAttempts(entities, task, a);
      InAttempts(after, task, a);
    }
    forall x, a ensures a in AttemptsForExecution(after, x)
        <==> a in AttemptsForExecution(entities, x) || (e.Attempt? && e.execution == x && a == e.id) {
      InExecution(entities, x, a);
      InExecution(after, x, a);
    }
    forall goal, t ensures t in TasksForGoal(after, goal)
        <==> t in TasksForGoal(entities, goal) || (e.Task? && e.goal == goal && t == e.id) {
      InGoal(entities, goal, t);
      InGoal(after, goal, t);
    }
  }

  lemma AddedHistory(entities: Entities, log: seq<Transition>, e: Entity)
    requires HistoryInv(entities, log) && e.Subject() !in entities
    requires e.version == 1 && e.status == Initial(e.Kind())
    ensures HistoryInv(entities[e.Subject() := e], log)
  {
    var after := entities[e.Subject() := e];
    forall key: Key ensures KeyHistory(after, log, key) {
      assert KeyHistory(entities, log, key);
    }
  }

  lemma AddedReferences(s: Store, e: Entity)
    requires KeysInv(s.entities) && ReferencesInv(s.entities) && e.Subject() !in s.entities
    requires ReferenceError(s, e).None?
    ensures ReferencesInv(s.entities[e.Subject() := e])
  {
    var after := s.entities[e.Subject() := e];
    forall k | k in after ensures ParentsInv(after, after[k]) {
      assert k != e.Subject() ==> ParentsInv(s.entities, s.entities[k]);
    }
  }

  lemma OtherLine(entities: Entities, e: Entity, task: EntityId)
    requires KeysInv(entities) && e.Subject() !in entities && OneLine(entities, task)
    requires !(e.Attempt? && e.task == task)
    ensures OneLine(entities[e.Subject() := e], task)
  {
    var after := entities[e.Subject() := e];
    var attempts := AttemptsForTask(entities, task);
    AddedSets(entities, e);
    assert AttemptsForTask(after, task) == attempts;
    forall a, k: nat ensures HasOrdinal(entities, task, a, k) == HasOrdinal(after, task, a, k) {}
    OrdinalsCarry(entities, after, task, |attempts|);
    forall a | a in attempts ensures AttemptOf(after, task, a) && Linked(after, task, |attempts|, a) {
      assert Linked(entities, task, |attempts|, a);
    }
  }

  /** The new attempt is number n + 1 and linked to number n, which has ended like all before it. */
  lemma ExtendedLine(entities: Entities, e: Entity)
    requires KeysInv(entities) && e.Attempt? && e.Subject() !in entities && OneLine(entities, e.task)
    requires AllAttemptsEnded(entities, AttemptsForTask(entities, e.task))
    requires e.ordinal == |AttemptsForTask(entities, e.task)| + 1 && FollowsLatest(entities, e.task, e.previous)
    ensures OneLine(entities[e.Subject() := e], e.task)
  {
    var after := entities[e.Subject() := e];
    var before := AttemptsForTask(entities, e.task);
    AddedSets(entities, e);
    assert AttemptsForTask(after, e.task) == before + {e.id} && |before + {e.id}| == |before| + 1;
    ExtendedLinks(entities, e);
    ExtendedOrdinals(entities, e);
  }

  lemma ExtendedLinks(entities: Entities, e: Entity)
    requires KeysInv(entities) && e.Attempt? && e.Subject() !in entities && OneLine(entities, e.task)
    requires AllAttemptsEnded(entities, AttemptsForTask(entities, e.task))
    requires e.ordinal == |AttemptsForTask(entities, e.task)| + 1 && FollowsLatest(entities, e.task, e.previous)
    ensures var after := entities[e.Subject() := e];
      forall a | a in AttemptsForTask(entities, e.task) + {e.id} ::
        AttemptOf(after, e.task, a) && Linked(after, e.task, e.ordinal, a)
  {
    var after := entities[e.Subject() := e];
    var before := AttemptsForTask(entities, e.task);
    LatestIsLast(entities, e.task, e.previous);
    forall a | a in before + {e.id} ensures AttemptOf(after, e.task, a) && Linked(after, e.task, e.ordinal, a) {
      if a in before {
        assert Linked(entities, e.task, |before|, a);
      }
    }
  }

  lemma ExtendedOrdinals(entities: Entities, e: Entity)
    requires KeysInv(entities) && e.Attempt? && e.Subject() !in entities && OneLine(entities, e.task)
    requires e.ordinal == |AttemptsForTask(entities, e.task)| + 1
    ensures OrdinalsDiffer(entities[e.Subject() := e], e.task)
    ensures OrdinalsUsed(entities[e.Subject() := e], e.task, e.ordinal)
  {
    var after := entities[e.Subject() := e];
    var before := AttemptsForTask(entities, e.task);
    forall a, k: nat ensures HasOrdinal(after, e.task, a, k)
        <==> HasOrdinal(entities, e.task, a, k) || (a == e.id && k == e.ordinal) {}
    forall a, k: nat | HasOrdinal(entities, e.task, a, k) ensures k < e.ordinal {
      InAttempts(entities, e.task, a);
      assert Linked(entities, e.task, |before|, a);
    }
    forall k: nat | 1 <= k <= e.ordinal ensures OrdinalUsed(after, e.task, k) {
      if k < e.ordinal {
        assert OrdinalUsed(entities, e.task, k);
        var a :| HasOrdinal(entities, e.task, a, k);
        assert HasOrdinal(after, e.task, a, k);
      } else {
        assert HasOrdinal(after, e.task, e.id, k);
      }
    }
  }

  lemma LatestIsLast(entities: Entities, task: EntityId, previous: Option<EntityId>)
    requires OneLine(entities, task) && FollowsLatest(entities, task, previous)
    ensures previous.None? <==> AttemptsForTask(entities, task) == {}
    ensures previous.Some? ==> HasOrdinal(entities, task, previous.value, |AttemptsForTask(entities, task)|)
  {
    var attempts := AttemptsForTask(entities, task);
    if previous.Some? {
      assert OrdinalUsed(entities, task, |attempts|);
      var a :| HasOrdinal(entities, task, a, |attempts|);
      InAttempts(entities, task, a);
      assert Linked(entities, task, |attempts|, previous.value);
    }
  }

  lemma AddedJustified(entities: Entities, e: Entity)
    requires KeysInv(entities) && JustifiedInv(entities) && e.Subject() !in entities
    requires e.status == Initial(e.Kind())
    requires e.Task? ==> Exists(entities, GoalKind, e.goal) && Get(entities, GoalKind, e.goal).status == Active
    requires e.Attempt? ==>
      Exists(entities, ExecutionKind, e.execution) && Get(entities, ExecutionKind, e.execution).status == Running
    ensures JustifiedInv(entities[e.Subject() := e])
  {
    var after := entities[e.Subject() := e];
    AddedSets(entities, e);
    AddedEvolves(entities, e);
    forall k | k in after ensures Justified(after, after[k]) {
      if k != e.Subject() {
        assert Justified(entities, entities[k]) && entities[k].Subject() == k;
        var x := entities[k];
        if x.Goal? && e.Task? && e.goal == x.id {
        } else if x.Execution? && e.Attempt? && e.execution == x.id {
        } else {
          JustificationStays(entities, after, x);
        }
      }
    }
  }

  lemma AttemptHasExecution(entities: Entities, execution: EntityId, a: EntityId)
    requires ReferencesInv(entities) && AttemptIn(entities, execution, a)
    ensures Exists(entities, ExecutionKind, execution)
  {
    assert ParentsInv(entities, entities[Key(AttemptKind, a)]);
  }

  /** Nothing runs in an execution that does not exist, so a fresh one starts empty. */
  lemma NoAttemptsYet(entities: Entities, execution: EntityId)
    requires ReferencesInv(entities) && Key(ExecutionKind, execution) !in entities
    ensures AttemptsForExecution(entities, execution) == {}
  {
    if a :| a in AttemptsForExecution(entities, execution) {
      InExecution(entities, execution, a);
      AttemptHasExecution(entities, execution, a);
    }
  }

  /** How many attempts an execution has after an addition. */
  lemma AddedCount(entities: Entities, e: Entity, x: EntityId)
    requires KeysInv(entities) && e.Subject() !in entities
    ensures |AttemptsForExecution(entities[e.Subject() := e], x)|
              == |AttemptsForExecution(entities, x)| + (if e.Attempt? && e.execution == x then 1 else 0)
  {
    AddedSets(entities, e);
    var before := AttemptsForExecution(entities, x);
    assert before + {} == before;
    assert e.Attempt? ==> |before + {e.id}| == |before| + 1;
  }

  lemma AddedBound(s: Store, e: Entity, execution: EntityId)
    requires KeysInv(s.entities) && ReferencesInv(s.entities) && e.Subject() !in s.entities
    requires ReferenceError(s, e).None? && WithinBound(s.entities, execution)
    ensures WithinBound(s.entities[e.Subject() := e], execution)
  {
    AddedCount(s.entities, e, execution);
    if e.Execution? && execution == e.id {
      NoAttemptsYet(s.entities, execution);
    }
  }

  lemma AddKeeps(s: Store, e: Entity)
    requires Inv(s) && AddEntity(s, e).Done? && e.status == Initial(e.Kind())
    requires e.Task? ==> Exists(s.entities, GoalKind, e.goal) && Get(s.entities, GoalKind, e.goal).status == Active
    requires e.Attempt? ==>
      Exists(s.entities, ExecutionKind, e.execution) && Get(s.entities, ExecutionKind, e.execution).status == Running
    ensures Inv(AddEntity(s, e).store) && Evolves(s.entities, AddEntity(s, e).store.entities)
  {
    var after := s.entities[e.Subject() := e];
    AddedHistory(s.entities, s.log, e);
    AddedReferences(s, e);
    forall task ensures OneLine(after, task) {
      assert OneLine(s.entities, task);
      if e.Attempt? && e.task == task {
        ExtendedLine(s.entities, e);
      } else {
        OtherLine(s.entities, e, task);
      }
    }
    forall x ensures WithinBound(after, x) {
      assert WithinBound(s.entities, x);
      AddedBound(s, e, x);
    }
    AddedJustified(s.entities, e);
    AddedEvolves(s.entities, e);
  }

  // ---------- Commands ----------

  lemma WorkspaceKeeps(s: Store, workspace: WorkspaceId)
    requires Inv(s)
    ensures Inv(s.(workspaces := s.workspaces + {workspace})) && Evolves(s.entities, s.entities)
  {
  }

  lemma MoveCommandKeeps(s: Store, key: Key, expected: nat, to: Status, at: int)
    requires Inv(s) && MoveEntity(s, key, expected, to, at).Done? && !Guarded(key.kind, to)
    ensures Inv(MoveEntity(s, key, expected, to, at).store)
    ensures Evolves(s.entities, MoveEntity(s, key, expected, to, at).store.entities)
  {
    assert s.entities[key].Subject() == key;
    MoveKeeps(s, key, expected, to, at);
  }

  lemma CompleteKeeps(s: Store, task: EntityId, attempt: EntityId, expected: nat, at: int)
    requires Inv(s) && Complete(s, task, attempt, expected, at).Done?
    ensures Inv(Complete(s, task, attempt, expected, at).store)
    ensures Evolves(s.entities, Complete(s, task, attempt, expected, at).store.entities)
  {
    assert s.entities[Key(TaskKind, task)].Subject() == Key(TaskKind, task);
    assert AttemptOf(s.entities, task, attempt);
    MoveKeeps(s, Key(TaskKind, task), expected, Completed, at);
  }

  lemma SatisfyKeeps(s: Store, goal: EntityId, expected: nat, at: int)
    requires Inv(s) && Satisfy(s, goal, expected, at).Done?
    ensures Inv(Satisfy(s, goal, expected, at).store)
    ensures Evolves(s.entities, Satisfy(s, goal, expected, at).store.entities)
  {
    assert s.entities[Key(GoalKind, goal)].Subject() == Key(GoalKind, goal);
    MoveKeeps(s, Key(GoalKind, goal), expected, Satisfied, at);
  }

  lemma SucceedKeeps(s: Store, execution: EntityId, expected: nat, at: int)
    requires Inv(s) && Succeed(s, execution, expected, at).Done?
    ensures Inv(Succeed(s, execution, expected, at).store)
    ensures Evolves(s.entities, Succeed(s, execution, expected, at).store.entities)
  {
    assert s.entities[Key(ExecutionKind, execution)].Subject() == Key(ExecutionKind, execution);
    MoveKeeps(s, Key(ExecutionKind, execution), expected, Succeeded, at);
  }

  lemma NewAttemptKeeps(
    s: Store, id: EntityId, workspace: WorkspaceId, task: EntityId, execution: EntityId, at: int)
    requires Inv(s) && NewAttempt(s, id, workspace, task, execution, at).Done?
    ensures Inv(NewAttempt(s, id, workspace, task, execution, at).store)
    ensures Evolves(s.entities, NewAttempt(s, id, workspace, task, execution, at).store.entities)
  {
    AddKeeps(s, Attempt(id, workspace, task, execution, |AttemptsForTask(s.entities, task)| + 1,
                        Latest(s.entities, task), Created, 1, at));
  }

  lemma NewExecutionKeeps(
    s: Store, id: EntityId, workspace: WorkspaceId, goal: EntityId, bound: nat, retryOf: Option<EntityId>, at: int)
    requires Inv(s) && NewExecution(s, id, workspace, goal, bound, retryOf, at).Done?
    ensures Inv(NewExecution(s, id, workspace, goal, bound, retryOf, at).store)
    ensures Evolves(s.entities, NewExecution(s, id, workspace, goal, bound, retryOf, at).store.entities)
  {
    AddKeeps(s, Execution(id, workspace, goal, bound, retryOf, Created, 1, at));
  }

  lemma NewTaskKeeps(s: Store, id: EntityId, workspace: WorkspaceId, goal: EntityId, at: int)
    requires Inv(s) && NewTask(s, id, workspace, goal, at).Done?
    ensures Inv(NewTask(s, id, workspace, goal, at).store)
    ensures Evolves(s.entities, NewTask(s, id, workspace, goal, at).store.entities)
  {
    AddKeeps(s, Task(id, workspace, goal, Proposed, 1, at));
  }

  lemma CreationKeeps(s: Store, cmd: Command, at: int)
    requires Inv(s) && Run(s, cmd, at).Done?
    requires cmd.CreateGoal? || cmd.CreateTask? || cmd.CreateExecution? || cmd.CreateAttempt?
    ensures Inv(Run(s, cmd, at).store) && Evolves(s.entities, Run(s, cmd, at).store.entities)
  {
    match cmd
    case CreateGoal(id, workspace) => AddKeeps(s, Goal(id, workspace, Draft, 1, at));
    case CreateTask(id, workspace, goal) => NewTaskKeeps(s, id, workspace, goal, at);
    case CreateExecution(id, workspace, goal, bound, retryOf) =>
      NewExecutionKeeps(s, id, workspace, goal, bound, retryOf, at);
    case CreateAttempt(id, workspace, task, execution) => NewAttemptKeeps(s, id, workspace, task, execution, at);
  }

  lemma ChangeKeeps(s: Store, cmd: Command, at: int)
    requires Inv(s) && Run(s, cmd, at).Done?
    requires cmd.Move? || cmd.SatisfyGoal? || cmd.CompleteTask? || cmd.SucceedExecution?
    ensures Inv(Run(s, cmd, at).store) && Evolves(s.entities, Run(s, cmd, at).store.entities)
  {
    match cmd
    case Move(key, expected, to) => MoveCommandKeeps(s, key, expected, to, at);
    case SatisfyGoal(goal, expected) => SatisfyKeeps(s, goal, expected, at);
    case CompleteTask(task, attempt, expected) => CompleteKeeps(s, task, attempt, expected, at);
    case SucceedExecution(execution, expected) => SucceedKeeps(s, execution, expected, at);
  }

  lemma CommandKeeps(s: Store, cmd: Command, at: int)
    requires Inv(s)
    ensures Inv(After(s, cmd, at)) && Evolves(s.entities, After(s, cmd, at).entities)
  {
    if Run(s, cmd, at).Refused? {
      WorkspaceKeeps(s, 0);
    } else if cmd.CreateWorkspace? {
      WorkspaceKeeps(s, cmd.workspace);
    } else if cmd.CreateGoal? || cmd.CreateTask? || cmd.CreateExecution? || cmd.CreateAttempt? {
      CreationKeeps(s, cmd, at);
    } else {
      ChangeKeeps(s, cmd, at);
    }
  }

  lemma EmptyInv()
    ensures Inv(EMPTY_STORE)
  {
    forall task ensures OneLine(map[], task) {
      assert AttemptsForTask(map[], task) == {};
    }
  }

  lemma StepExtends(stores: seq<Store>, k: nat)
    requires IsRun(stores) && k + 1 < |stores| && Inv(stores[k])
    ensures Inv(stores[k + 1]) && Evolves(stores[k].entities, stores[k + 1].entities)
  {
    assert StepAt(stores, k);
    var cmd, at :| stores[k + 1] == After(stores[k], cmd, at);
    CommandKeeps(stores[k], cmd, at);
  }

  /** The invariant holds of every store of a run. */
  lemma {:induction false} RunInv(stores: seq<Store>, n: nat)
    requires IsRun(stores) && n < |stores|
    ensures Inv(stores[n])
  {
    if n == 0 {
      EmptyInv();
    } else {
      RunInv(stores, n - 1);
      StepExtends(stores, n - 1);
    }
  }

  /** Later stores of a run extend earlier ones. */
  lemma {:induction false} RunExtends(stores: seq<Store>, m: nat, n: nat)
    requires IsRun(stores) && m <= n < |stores|
    ensures Inv(stores[m]) && Inv(stores[n]) && Evolves(stores[m].entities, stores[n].entities)
    decreases n - m
  {
    RunInv(stores, m);
    if m == n {
      WorkspaceKeeps(stores[m], 0);
    } else {
      RunExtends(stores, m, n - 1);
      StepExtends(stores, n - 1);
      EvolvesTransitive(stores[m].entities, stores[n - 1].entities, stores[n].entities);
    }
  }

  // ---------- Theorems over all runs ----------

  /** The store is its own history: one version per logged transition, and replaying them gives the status. */
  lemma StoreIsItsHistory(stores: seq<Store>, n: nat, key: Key)
    requires IsRun(stores) && n < |stores|
    requires key in stores[n].entities
    ensures var s := stores[n];
      && s.entities[key].version == 1 + Count(s.log, key)
      && Replay(s.log, key) == Some(s.entities[key].status)
  {
    RunInv(stores, n);
    var s := stores[n];
    assert KeyHistory(s.entities, s.log, key);
  }

  /** Attempts of a task are numbered 1 to n, each linked to the one before; only number n may be open. */
  lemma AttemptsFormOneLine(stores: seq<Store>, n: nat, task: EntityId, a: EntityId)
    requires IsRun(stores) && n < |stores|
    requires AttemptOf(stores[n].entities, task, a)
    ensures var entities := stores[n].entities;
      var attempt, count := Get(entities, AttemptKind, a), |AttemptsForTask(entities, task)|;
      && 1 <= attempt.ordinal <= count
      && (attempt.ordinal == 1 <==> attempt.previous.None?)
      && (attempt.previous.Some? ==> HasOrdinal(entities, task, attempt.previous.value, attempt.ordinal - 1))
      && (attempt.ordinal < count ==> attempt.Ended())
      && (forall b | HasOrdinal(entities, task, b, attempt.ordinal) :: b == a)
      && OrdinalsUsed(entities, task, count)
  {
    RunInv(stores, n);
    var entities := stores[n].entities;
    assert OneLine(entities, task);
    LineOf(entities, task, a);
  }

  lemma LineOf(entities: Entities, task: EntityId, a: EntityId)
    requires OneLine(entities, task) && AttemptOf(entities, task, a)
    ensures Linked(entities, task, |AttemptsForTask(entities, task)|, a)
    ensures forall b | HasOrdinal(entities, task, b, Get(entities, AttemptKind, a).ordinal) :: b == a
    ensures OrdinalsUsed(entities, task, |AttemptsForTask(entities, task)|)
  {
    InAttempts(entities, task, a);
    assert Linked(entities, task, |AttemptsForTask(entities, task)|, a);
    assert HasOrdinal(entities, task, a, Get(entities, AttemptKind, a).ordinal);
  }

  lemma AttemptsStayWithinBound(stores: seq<Store>, n: nat, execution: EntityId)
    requires IsRun(stores) && n < |stores|
    requires Exists(stores[n].entities, ExecutionKind, execution)
    ensures var entities := stores[n].entities;
      |AttemptsForExecution(entities, execution)| <= Get(entities, ExecutionKind, execution).bound
  {
    RunInv(stores, n);
    assert WithinBound(stores[n].entities, execution);
  }

  lemma StillEnded(s: Store, s': Store, key: Key)
    requires Evolves(s.entities, s'.entities) && key in s.entities && s.entities[key].Ended()
    ensures key in s'.entities && s'.entities[key] == s.entities[key]
  {
  }

  /** A satisfied goal has all its tasks completed, now and in every later store. */
  lemma SatisfiedGoalsStayJustified(stores: seq<Store>, m: nat, n: nat, goal: EntityId)
    requires IsRun(stores) && m <= n < |stores|
    requires var s := stores[m];
      Exists(s.entities, GoalKind, goal) && Get(s.entities, GoalKind, goal).status == Satisfied
    ensures var s' := stores[n];
      && Exists(s'.entities, GoalKind, goal) && Get(s'.entities, GoalKind, goal).status == Satisfied
      && AllTasksCompleted(s'.entities, goal)
  {
    RunExtends(stores, m, n);
    var s := stores[m];
    var s' := stores[n];
    StillEnded(s, s', Key(GoalKind, goal));
    SubjectOf(s', Key(GoalKind, goal));
    assert Justified(s'.entities, s'.entities[Key(GoalKind, goal)]);
  }

  lemma SubjectOf(s: Store, key: Key)
    requires KeysInv(s.entities) && key in s.entities
    ensures s.entities[key].Subject() == key
  {
  }

  lemma CompletedHasSuccess(entities: Entities, task: EntityId)
    requires JustifiedInv(entities) && KeysInv(entities)
    requires Exists(entities, TaskKind, task) && Get(entities, TaskKind, task).status == Completed
    ensures HasSuccess(entities, task)
  {
    assert entities[Key(TaskKind, task)].Subject() == Key(TaskKind, task);
    assert Justified(entities, entities[Key(TaskKind, task)]);
  }

  /** A completed task keeps an attempt that succeeded. */
  lemma CompletedTasksStayJustified(stores: seq<Store>, m: nat, n: nat, task: EntityId)
    requires IsRun(stores) && m <= n < |stores|
    requires var s := stores[m];
      Exists(s.entities, TaskKind, task) && Get(s.entities, TaskKind, task).status == Completed
    ensures HasSuccess(stores[n].entities, task)
  {
    RunExtends(stores, m, n);
    var s := stores[m];
    var s' := stores[n];
    StillEnded(s, s', Key(TaskKind, task));
    SubjectOf(s', Key(TaskKind, task));
    CompletedHasSuccess(s'.entities, task);
  }

  /** A succeeded execution has only ended attempts, and never gets another. */
  lemma SucceededExecutionsStayEnded(stores: seq<Store>, m: nat, n: nat, execution: EntityId)
    requires IsRun(stores) && m <= n < |stores|
    requires var s := stores[m];
      Exists(s.entities, ExecutionKind, execution) && Get(s.entities, ExecutionKind, execution).status == Succeeded
    ensures var entities := stores[n].entities;
      AllAttemptsEnded(entities, AttemptsForExecution(entities, execution))
  {
    RunExtends(stores, m, n);
    var s := stores[m];
    var s' := stores[n];
    StillEnded(s, s', Key(ExecutionKind, execution));
    SubjectOf(s', Key(ExecutionKind, execution));
    assert Justified(s'.entities, s'.entities[Key(ExecutionKind, execution)]);
  }
}
