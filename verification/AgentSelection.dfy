/** Deterministic least-privilege choice of an agent definition version. */
module AgentSelection {
  import opened Prelude
  import opened Plans
  import opened PlanValidation
  import opened Sorting

  /** A definition version; ids are numbered in the order of their text. */
  datatype Candidate = Candidate(
    definition: nat,
    version: nat,
    workspace: nat,
    enabled: bool,
    canonical: bool,
    item: AgentItem,
    load: nat)
  {
    function Identity(): (nat, nat) { (definition, version) }
  }

  predicate CanServe(workspace: nat, requirements: Requirements, excluded: set<(nat, nat)>, c: Candidate) {
    && c.workspace == workspace
    && c.enabled
    && c.Identity() !in excluded
    && Eligible(requirements, c.item)
    && c.canonical
  }

  /** Fewest active runs first, then lowest id, then newest version. */
  predicate Preferred(x: Candidate, y: Candidate) {
    || x.load < y.load
    || (x.load == y.load && x.definition < y.definition)
    || (x.load == y.load && x.definition == y.definition && x.version >= y.version)
  }

  /** What a selection may answer: the most preferred candidate that can serve, or none if none can. */
  ghost predicate Selected(
    workspace: nat, requirements: Requirements, candidates: seq<Candidate>, excluded: set<(nat, nat)>,
    choice: Option<Candidate>)
  {
    match choice
    case None => forall c | c in candidates :: !CanServe(workspace, requirements, excluded, c)
    case Some(chosen) =>
      && chosen in candidates
      && CanServe(workspace, requirements, excluded, chosen)
      && (forall c | c in candidates && CanServe(workspace, requirements, excluded, c) :: Preferred(chosen, c))
  }

  lemma PreferredIsTotal()
    ensures TotalPreorder(Preferred)
  {
  }

  method SelectAgent(
    workspace: nat, requirements: Requirements, candidates: seq<Candidate>, excluded: set<(nat, nat)>)
    returns (choice: Option<Candidate>)
    ensures Selected(workspace, requirements, candidates, excluded, choice)
  {
    var eligible: seq<Candidate> := [];
    var k := 0;
    while k < |candidates|
      invariant 0 <= k <= |candidates|
      invariant forall c :: c in eligible <==> c in candidates[..k] && CanServe(workspace, requirements, excluded, c)
    {
      if CanServe(workspace, requirements, excluded, candidates[k]) {
        eligible := eligible + [candidates[k]];
      }
      k := k + 1;
    }
    if eligible == [] {
      return None;
    }
    PreferredIsTotal();
    var sorted := SortBy(eligible, Preferred);
    RearrangedMembers(eligible, sorted);
    assert candidates[..k] == candidates;
    assert sorted[0] in sorted;
    forall c | c in candidates && CanServe(workspace, requirements, excluded, c) ensures Preferred(sorted[0], c) {
      assert c in sorted;
      var j :| 0 <= j < |sorted| && sorted[j] == c;
    }
    return Some(sorted[0]);
  }

  /** Two answers to one question name the same definition version. */
  lemma SelectionIsDeterministic(
    workspace: nat, requirements: Requirements, candidates: seq<Candidate>, excluded: set<(nat, nat)>,
    x: Option<Candidate>, y: Option<Candidate>)
    requires Selected(workspace, requirements, candidates, excluded, x)
    requires Selected(workspace, requirements, candidates, excluded, y)
    ensures x.None? <==> y.None?
    ensures x.Some? ==> x.value.Identity() == y.value.Identity()
  {
  }
}
