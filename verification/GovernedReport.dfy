/** The report of unfinished work: which cases it lists, in which order, and when that order is fixed. */
module GovernedReport {
  import opened Prelude
  import opened GovernedRecords
  import opened GovernedCommands
  import opened GovernedInvariants
  import opened GovernedRecovery
  import opened Sorting

  /** The attempt and the execution a run was started for. */
  datatype Links = Links(attempt: nat, execution: nat) {
    function Subjects(): set<Subject> { {AttemptSubject(attempt), ExecutionSubject(execution)} }
  }

  /** The database, and beside it the attempts, executions and orchestrations that are still open. */
  datatype Workspace = Workspace(db: Db, links: map<RunId, Links>, open: set<Subject>)

  ghost predicate Consistent(ws: Workspace) {
    && RunsInv(ws.db.runs, ws.db.parents, ws.db.actions)
    && CallsInv(ws.db.runs, ws.db.actions, ws.db.invocations)
    && ReceiptsInv(ws.db.invocations, ws.db.receipts)
    && ws.links.Keys == ws.db.runs.Keys
    && (forall s | s in ws.open :: s.AttemptSubject? || s.ExecutionSubject? || s.OrchestrationSubject?)
  }

  // ---------- What is listed ----------

  /** What is reported of an open run is reported of its attempt and its execution too. */
  ghost predicate OfRun(ws: Workspace, now: int, r: RunId, c: Case) {
    && r in ws.db.runs && r in ws.links
    && c.subject in ws.links[r].Subjects()
    && RunCase(ws.db, r, now).Some?
    && c == RunCase(ws.db, r, now).value.(subject := c.subject)
  }

  ghost predicate ByRun(ws: Workspace, now: int, c: Case) { exists r :: OfRun(ws, now, r, c) }

  /** Some open run stands for this attempt or execution. */
  ghost predicate Represented(ws: Workspace, s: Subject) {
    exists r :: r in ws.db.runs && r in ws.links && !ws.db.runs[r].Terminal() && s in ws.links[r].Subjects()
  }

  /** Open, and no run stands for it. */
  ghost predicate Alone(ws: Workspace, c: Case) {
    && c.subject in ws.open
    && !Represented(ws, c.subject)
    && c == Case(c.subject, ResumeLocal, OutcomeUnknown)
  }

  ghost predicate Listed(ws: Workspace, now: int, c: Case) {
    Reported(ws.db, now, c) || ByRun(ws, now, c) || Alone(ws, c)
  }

  // ---------- The order ----------

  /** Subjects by kind, in the order of the kinds' names, and then by id. */
  function Place(s: Subject): (nat, nat) {
    match s
    case IntentSubject(a) => (0, a)
    case RunSubject(r) => (1, r)
    case ExecutionSubject(e) => (2, e)
    case OrchestrationSubject(o) => (3, o)
    case AttemptSubject(t) => (4, t)
    case CallSubject(i) => (5, i)
  }

  predicate NotBehind(x: Case, y: Case) {
    var p, q := Place(x.subject), Place(y.subject);
    p.0 < q.0 || (p.0 == q.0 && p.1 <= q.1)
  }

  predicate DifferentCases(cases: seq<Case>) {
    forall j, k | 0 <= j < k < |cases| :: cases[j] != cases[k]
  }

  /** Each case once, in the order of subjects. */
  ghost predicate ReportOf(ws: Workspace, now: int, report: seq<Case>) {
    && Sorted(report, NotBehind)
    && DifferentCases(report)
    && (forall c :: c in report <==> Listed(ws, now, c))
  }

  // ---------- The classification ----------

  /** The cases of open runs, and of what they stand for. */
  method RunCases(ws: Workspace, now: int) returns (cases: set<Case>)
    requires ws.links.Keys == ws.db.runs.Keys
    ensures forall c :: c in cases <==> (c.subject.RunSubject? && Reported(ws.db, now, c)) || ByRun(ws, now, c)
  {
    cases := {};
    var rest := ws.db.runs.Keys;
    while rest != {}
      invariant rest <= ws.db.runs.Keys
      invariant forall c :: c in cases <==>
        || (c.subject.RunSubject? && c.subject.run !in rest && Reported(ws.db, now, c))
        || (exists r :: r !in rest && OfRun(ws, now, r, c))
      decreases |rest|
    {
      var r :| r in rest;
      var found := RunCase(ws.db, r, now);
      ghost var before := cases;
      if found.Some? {
        var links := ws.links[r];
        cases := cases + {
          found.value,
          found.value.(subject := AttemptSubject(links.attempt)),
          found.value.(subject := ExecutionSubject(links.execution))};
      }
      assert forall c :: c in cases <==>
        c in before || (c.subject == RunSubject(r) && Reported(ws.db, now, c)) || OfRun(ws, now, r, c);
      rest := rest - {r};
    }
  }

  /** Whatever is open and not represented by a case so far. */
  method AloneCases(ws: Workspace, now: int, cases: set<Case>) returns (alone: set<Case>)
    requires Consistent(ws)
    requires forall c :: c in cases <==> (c.subject.RunSubject? && Reported(ws.db, now, c)) || ByRun(ws, now, c)
    ensures forall c :: c in alone <==> Alone(ws, c)
  {
    var represented := set c | c in cases :: c.subject;
    alone := {};
    var rest := ws.open;
    while rest != {}
      invariant rest <= ws.open
      invariant forall c :: c in alone <==> c.subject !in rest && Alone(ws, c)
      decreases |rest|
    {
      var s :| s in rest;
      RepresentedInCases(ws, now, cases, s);
      if s !in represented {
        alone := alone + {Case(s, ResumeLocal, OutcomeUnknown)};
      }
      rest := rest - {s};
    }
  }

  lemma RepresentedInCases(ws: Workspace, now: int, cases: set<Case>, s: Subject)
    requires Consistent(ws) && s in ws.open
    requires forall c :: c in cases <==> (c.subject.RunSubject? && Reported(ws.db, now, c)) || ByRun(ws, now, c)
    ensures Represented(ws, s) <==> exists c :: c in cases && c.subject == s
  {
    if Represented(ws, s) {
      var r :| r in ws.db.runs && r in ws.links && !ws.db.runs[r].Terminal() && s in ws.links[r].Subjects();
      assert OfRun(ws, now, r, RunCase(ws.db, r, now).value.(subject := s));
    }
    if c :| c in cases && c.subject == s {
      var r :| OfRun(ws, now, r, c);
    }
  }

  method ListCases(cases: set<Case>) returns (listed: seq<Case>)
    ensures forall c :: c in listed <==> c in cases
    ensures forall j, k | 0 <= j < k < |listed| :: listed[j] != listed[k]
  {
    listed := [];
    var rest := cases;
    while rest != {}
      invariant rest <= cases && forall c :: c in listed <==> c in cases && c !in rest
      invariant forall j, k | 0 <= j < k < |listed| :: listed[j] != listed[k]
      decreases |rest|
    {
      var c :| c in rest;
      listed := listed + [c];
      rest := rest - {c};
    }
  }

  lemma SortedReport(ws: Workspace, now: int, listed: seq<Case>, report: seq<Case>)
    requires forall c :: c in listed <==> Listed(ws, now, c)
    requires DifferentCases(listed) && Sorted(report, NotBehind) && Rearranged(listed, report)
    ensures ReportOf(ws, now, report)
  {
    RearrangedMembers(listed, report);
    forall j, k | 0 <= j < k < |report| ensures report[j] != report[k] {
      DistinctStays(listed, report, j, k);
    }
  }

  lemma DistinctStays<T>(before: seq<T>, after: seq<T>, j: nat, k: nat)
    requires Rearranged(before, after) && j < k < |after|
    requires forall j, k | 0 <= j < k < |before| :: before[j] != before[k]
    ensures after[j] != after[k]
  {
    OnceEach(before, after[j]);
    var left, right := after[..j + 1], after[j + 1..];
    assert after == left + right;
    assert multiset(after)[after[j]] == multiset(left)[after[j]] + multiset(right)[after[j]];
    assert after[j] in left && after[k] == right[k - j - 1] && after[k] in right;
  }

  lemma {:induction false} OnceEach<T>(items: seq<T>, x: T)
    requires forall j, k | 0 <= j < k < |items| :: items[j] != items[k]
    ensures multiset(items)[x] <= 1
  {
    if items != [] {
      var last := |items| - 1;
      OnceEach(items[..last], x);
      assert items == items[..last] + [items[last]];
      if items[last] == x {
        assert x !in items[..last];
      }
    }
  }

  /** Everything unfinished in the workspace, each case once and in order. */
  method Classify(ws: Workspace, now: int) returns (report: seq<Case>)
    requires Consistent(ws)
    ensures ReportOf(ws, now, report)
  {
    var runs := RunCases(ws, now);
    var intents := IntentCases(ws.db, now);
    CallsHaveRuns(ws.db);
    var calls := CallCases(ws.db, now);
    var alone := AloneCases(ws, now, runs);
    var listed := ListCases(runs + intents + calls + alone);
    forall c ensures c in listed <==> Listed(ws, now, c) {
      ReportedKinds(ws.db, now, c);
    }
    report := SortBy(listed, NotBehind);
    SortedReport(ws, now, listed, report);
  }

  lemma CallsHaveRuns(db: Db)
    requires CallsInv(db.runs, db.actions, db.invocations)
    ensures forall i | i in db.invocations :: db.invocations[i].run in db.runs
  {
    forall i | i in db.invocations ensures db.invocations[i].run in db.runs {
      assert CallBound(db.runs, db.actions, i, db.invocations[i]);
    }
  }

  lemma ReportedKinds(db: Db, now: int, c: Case)
    ensures Reported(db, now, c) ==> c.subject.RunSubject? || c.subject.IntentSubject? || c.subject.CallSubject?
  {
  }

  // ---------- When nothing is listed ----------

  /** Everything in the database is settled, and nothing beside it is open. */
  ghost predicate NothingLeft(ws: Workspace) { AllSettled(ws.db) && ws.open == {} }

  lemma OpenIsListed(ws: Workspace, now: int, s: Subject)
    requires s in ws.open
    ensures exists c :: Listed(ws, now, c)
  {
    if Represented(ws, s) {
      var r :| r in ws.db.runs && r in ws.links && !ws.db.runs[r].Terminal() && s in ws.links[r].Subjects();
      assert OfRun(ws, now, r, RunCase(ws.db, r, now).value.(subject := s));
      assert Listed(ws, now, RunCase(ws.db, r, now).value.(subject := s));
    } else {
      assert Alone(ws, Case(s, ResumeLocal, OutcomeUnknown));
      assert Listed(ws, now, Case(s, ResumeLocal, OutcomeUnknown));
    }
  }

  lemma UnsettledIsListed(ws: Workspace, now: int)
    requires Consistent(ws) && !AllSettled(ws.db)
    ensures exists c :: Listed(ws, now, c)
  {
    if r :| r in ws.db.runs && !ws.db.runs[r].Terminal() {
      assert Listed(ws, now, RunCase(ws.db, r, now).value);
    } else if a :| a in ws.db.governed && ws.db.governed[a].invocation.None? {
      assert Listed(ws, now, IntentCase(ws.db, a, now).value);
    } else {
      var i :| i in ws.db.invocations && !OutcomeKnown(ws.db.receipts, i);
      UnknownIsReported(ws.db, i, now);
      var c :| Reported(ws.db, now, c);
      assert Listed(ws, now, c);
    }
  }

  /** The report is empty exactly when everything is settled and nothing is open; nothing is overlooked. */
  lemma NothingListedIffNothingLeft(ws: Workspace, now: int)
    requires Consistent(ws)
    ensures (forall c :: !Listed(ws, now, c)) <==> NothingLeft(ws)
  {
    if !AllSettled(ws.db) {
      UnsettledIsListed(ws, now);
    } else if s :| s in ws.open {
      OpenIsListed(ws, now, s);
    } else {
      forall c ensures !Listed(ws, now, c) {
        SettledIsNotReported(ws.db, now, c);
      }
    }
  }

  // ---------- When the order is fixed ----------

  /** Open runs that share an attempt or an execution are reported alike. */
  ghost predicate SharedAgree(ws: Workspace, now: int) {
    forall q, r | Sharing(ws, q, r) ::
      RunCase(ws.db, q, now).value.(subject := RunSubject(r)) == RunCase(ws.db, r, now).value
  }

  ghost predicate Sharing(ws: Workspace, q: RunId, r: RunId) {
    && q in ws.db.runs && r in ws.db.runs && q in ws.links && r in ws.links
    && !ws.db.runs[q].Terminal() && !ws.db.runs[r].Terminal()
    && (ws.links[q].attempt == ws.links[r].attempt || ws.links[q].execution == ws.links[r].execution)
  }

  /** No two different cases are about one subject. */
  ghost predicate OneCaseEach(ws: Workspace, now: int) {
    forall x, y | Listed(ws, now, x) && Listed(ws, now, y) && x.subject == y.subject :: x == y
  }

  lemma OfRunsAgree(ws: Workspace, now: int, q: RunId, r: RunId, x: Case, y: Case)
    requires SharedAgree(ws, now) && OfRun(ws, now, q, x) && OfRun(ws, now, r, y) && x.subject == y.subject
    ensures x == y
  {
    assert Sharing(ws, q, r);
  }

  lemma AgreeingAreOneEach(ws: Workspace, now: int, x: Case, y: Case)
    requires Consistent(ws) && SharedAgree(ws, now)
    requires Listed(ws, now, x) && Listed(ws, now, y) && x.subject == y.subject
    ensures x == y
  {
    ReportedKinds(ws.db, now, x);
    ReportedKinds(ws.db, now, y);
    if ByRun(ws, now, x) && ByRun(ws, now, y) {
      var q :| OfRun(ws, now, q, x);
      var r :| OfRun(ws, now, r, y);
      OfRunsAgree(ws, now, q, r, x, y);
    }
  }

  lemma OneEachAgree(ws: Workspace, now: int, q: RunId, r: RunId)
    requires OneCaseEach(ws, now) && Sharing(ws, q, r)
    ensures RunCase(ws.db, q, now).value.(subject := RunSubject(r)) == RunCase(ws.db, r, now).value
  {
    var s := if ws.links[q].attempt == ws.links[r].attempt then AttemptSubject(ws.links[q].attempt)
             else ExecutionSubject(ws.links[q].execution);
    var x, y := RunCase(ws.db, q, now).value.(subject := s), RunCase(ws.db, r, now).value.(subject := s);
    assert OfRun(ws, now, q, x) && OfRun(ws, now, r, y);
    assert Listed(ws, now, x) && Listed(ws, now, y);
  }

  lemma OneCaseEachIff(ws: Workspace, now: int)
    requires Consistent(ws)
    ensures OneCaseEach(ws, now) <==> SharedAgree(ws, now)
  {
    if OneCaseEach(ws, now) {
      forall q, r | Sharing(ws, q, r)
        ensures RunCase(ws.db, q, now).value.(subject := RunSubject(r)) == RunCase(ws.db, r, now).value
      {
        OneEachAgree(ws, now, q, r);
      }
    }
    if SharedAgree(ws, now) {
      forall x, y | Listed(ws, now, x) && Listed(ws, now, y) && x.subject == y.subject ensures x == y {
        AgreeingAreOneEach(ws, now, x, y);
      }
    }
  }

  /** Lists of the same cases, each once, are rearrangements of one another. */
  lemma SameCasesRearranged(a: seq<Case>, b: seq<Case>)
    requires DifferentCases(a) && DifferentCases(b) && forall c :: c in a <==> c in b
    ensures Rearranged(a, b)
  {
    forall c ensures multiset(a)[c] == multiset(b)[c] {
      OnceEach(a, c);
      OnceEach(b, c);
      assert c in multiset(a) <==> c in a;
      assert c in multiset(b) <==> c in b;
    }
  }

  lemma SamePlaceSameSubject(x: Subject, y: Subject)
    requires Place(x) == Place(y)
    ensures x == y
  {
  }

  lemma FixedOrder(ws: Workspace, now: int, a: seq<Case>, b: seq<Case>)
    requires OneCaseEach(ws, now) && ReportOf(ws, now, a) && ReportOf(ws, now, b)
    ensures a == b
  {
    SameCasesRearranged(a, b);
    forall x, y | x in a && y in a && NotBehind(x, y) && NotBehind(y, x) ensures x == y {
      SamePlaceSameSubject(x.subject, y.subject);
      assert Listed(ws, now, x) && Listed(ws, now, y);
    }
    SortedIsUnique(a, b, NotBehind);
  }

  /** Two cases of one subject may change places. */
  lemma SwappedIsReport(ws: Workspace, now: int, a: seq<Case>, j: nat, k: nat)
    requires ReportOf(ws, now, a) && j < k < |a| && a[j].subject == a[k].subject
    ensures ReportOf(ws, now, a[j := a[k]][k := a[j]])
  {
    var b := a[j := a[k]][k := a[j]];
    forall i, l | 0 <= i < l < |b| ensures NotBehind(b[i], b[l]) && b[i] != b[l] {
      assert NotBehind(a[i], a[l]);
    }
    forall c ensures c in a <==> c in b {
      if c in a {
        var i :| 0 <= i < |a| && a[i] == c;
        assert b[if i == j then k else if i == k then j else i] == c;
      }
      if c in b {
        var i :| 0 <= i < |b| && b[i] == c;
        assert a[if i == j then k else if i == k then j else i] == c;
      }
    }
  }

  lemma OtherReport(ws: Workspace, now: int, a: seq<Case>) returns (b: seq<Case>)
    requires ReportOf(ws, now, a) && !OneCaseEach(ws, now)
    ensures ReportOf(ws, now, b) && b != a
  {
    var x, y :| Listed(ws, now, x) && Listed(ws, now, y) && x.subject == y.subject && x != y;
    assert x in a && y in a;
    var i :| 0 <= i < |a| && a[i] == x;
    var l :| 0 <= l < |a| && a[l] == y;
    var j, k := if i < l then i else l, if i < l then l else i;
    SwappedIsReport(ws, now, a, j, k);
    b := a[j := a[k]][k := a[j]];
    assert b[j] != a[j];
  }

  /** The sorting key leaves one order, and so one report, if and only if open runs that share an attempt or
      an execution are reported alike. */
  lemma ReportIsUniqueIff(ws: Workspace, now: int, report: seq<Case>)
    requires Consistent(ws) && ReportOf(ws, now, report)
    ensures (forall other | ReportOf(ws, now, other) :: other == report) <==> SharedAgree(ws, now)
  {
    OneCaseEachIff(ws, now);
    if SharedAgree(ws, now) {
      forall other | ReportOf(ws, now, other) ensures other == report {
        FixedOrder(ws, now, other, report);
      }
    } else {
      var other := OtherReport(ws, now, report);
      assert ReportOf(ws, now, other) && other != report;
    }
  }

  // ---------- Where it is not ----------

  const LATE := AgentRun(0, Definition([], false, true, 2), 10, 5, 5, 5, 1, Running, false, 0)
  const ON_TIME := AgentRun(1, Definition([], false, true, 2), 1000, 5, 5, 5, 1, Running, false, 0)
  const HIERARCHY := Parents(1, 1, 1, 1, true, true, true, ExecutionRunning)
  const SHARED := Workspace(
    EMPTY_DB.(runs := map[0 := LATE, 1 := ON_TIME], parents := map[0 := HIERARCHY, 1 := HIERARCHY]),
    map[0 := Links(1, 7), 1 := Links(2, 7)], {})

  /** Of two runs in one execution one is past its deadline: the execution is listed twice, in no fixed order. */
  lemma SharedExecutionIsListedTwice()
    ensures Consistent(SHARED) && !SharedAgree(SHARED, 20)
    ensures Listed(SHARED, 20, Case(ExecutionSubject(7), PastDeadline, NotExecuted))
    ensures Listed(SHARED, 20, Case(ExecutionSubject(7), ResumeLocal, NotExecuted))
  {
    assert RunInvocations(SHARED.db, 0) == {} && RunInvocations(SHARED.db, 1) == {};
    assert OfRun(SHARED, 20, 0, Case(ExecutionSubject(7), PastDeadline, NotExecuted));
    assert OfRun(SHARED, 20, 1, Case(ExecutionSubject(7), ResumeLocal, NotExecuted));
    assert Sharing(SHARED, 0, 1);
  }
}
