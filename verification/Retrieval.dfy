/** Lexical ranking, greedy bounded selection, and the contract check applied to its answer. */
module Retrieval {
  import opened Prelude
  import opened Knowledge
  import opened Sorting

  datatype Query = Query(
    workspace: nat,
    tokens: set<nat>,
    sources: seq<SourceId>,
    trust: seq<TrustClass>,
    topK: nat,
    maxContext: nat,
    maxPerSource: nat)

  datatype Candidate = Candidate(
    chunk: Chunk, sourceName: string, trust: TrustClass, sourceCreatedAt: nat, score: real)
  {
    function Key(): (SourceId, string) { (chunk.source, chunk.text) }
  }

  datatype Retrieved = Retrieved(candidates: seq<Candidate>, count: nat, truncated: bool)

  /** The word split of a text and the length of a rendered candidate. */
  datatype Measures = Measures(terms: string -> set<nat>, chars: Candidate -> nat)

  // ---- Ranking ----

  function Overlap(m: Measures, q: Query, item: Candidate): set<nat> {
    q.tokens * m.terms(item.chunk.text)
  }

  predicate Matches(m: Measures, q: Query, item: Candidate) {
    Overlap(m, q, item) != {}
  }

  /** The share of the query's words that the chunk holds. */
  function Score(m: Measures, q: Query, item: Candidate): (score: real)
    requires Matches(m, q, item)
    ensures 0.0 < score <= 1.0
    ensures score == 1.0 <==> q.tokens <= m.terms(item.chunk.text)
  {
    var overlap := Overlap(m, q, item);
    assert overlap <= q.tokens;
    SubsetSize(overlap, q.tokens);
    assert q.tokens <= m.terms(item.chunk.text) <==> overlap == q.tokens;
    ShareIsBounded(|overlap|, |q.tokens|);
    |overlap| as real / |q.tokens| as real
  }

  lemma {:induction false} SubsetSize<T>(a: set<T>, b: set<T>)
    requires a <= b
    ensures |a| <= |b| && (|a| == |b| <==> a == b) && (|a| == 0 <==> a == {})
  {
    assert b == a + (b - a);
    assert |b| == |a| + |b - a|;
    if |b - a| == 0 {
      assert b - a == {};
    }
  }

  lemma ShareIsBounded(part: nat, whole: nat)
    requires 0 < part <= whole
    ensures 0.0 < part as real / whole as real <= 1.0
    ensures part as real / whole as real == 1.0 <==> part == whole
  {
  }

  function Scored(m: Measures, q: Query, eligible: seq<Candidate>): (r: seq<Candidate>)
    ensures |r| <= |eligible|
  {
    if eligible == [] then []
    else
      var k := |eligible| - 1;
      var earlier := Scored(m, q, eligible[..k]);
      if Matches(m, q, eligible[k]) then earlier + [eligible[k].(score := Score(m, q, eligible[k]))] else earlier
  }

  /** Best score first, then source, then position in the source. */
  predicate Before(x: Candidate, y: Candidate) {
    || x.score > y.score
    || (x.score == y.score && x.chunk.source < y.chunk.source)
    || (x.score == y.score && x.chunk.source == y.chunk.source && x.chunk.ordinal <= y.chunk.ordinal)
  }

  ghost predicate IsRanking(m: Measures, q: Query, eligible: seq<Candidate>, ranked: seq<Candidate>) {
    Rearranged(Scored(m, q, eligible), ranked) && Sorted(ranked, Before)
  }

  method Rank(m: Measures, q: Query, eligible: seq<Candidate>) returns (ranked: seq<Candidate>)
    ensures IsRanking(m, q, eligible, ranked)
  {
    var found: seq<Candidate> := [];
    for k := 0 to |eligible|
      invariant found == Scored(m, q, eligible[..k])
    {
      assert eligible[..k + 1][..k] == eligible[..k];
      if Matches(m, q, eligible[k]) {
        found := found + [eligible[k].(score := Score(m, q, eligible[k]))];
      }
    }
    assert eligible[..|eligible|] == eligible;
    ranked := SortBy(found, Before);
  }

  lemma {:induction false} ScoredComesFromEligible(m: Measures, q: Query, eligible: seq<Candidate>, x: Candidate)
    ensures x in Scored(m, q, eligible) <==>
            exists item :: item in eligible && Matches(m, q, item) && x == item.(score := Score(m, q, item))
  {
    if eligible != [] {
      ScoredComesFromEligible(m, q, eligible[..|eligible| - 1], x);
      assert eligible == eligible[..|eligible| - 1] + [eligible[|eligible| - 1]];
    }
  }

  /** At most one candidate for each position in a source. */
  predicate Positioned(items: seq<Candidate>) {
    forall x, y | x in items && y in items ::
      x.chunk.source == y.chunk.source && x.chunk.ordinal == y.chunk.ordinal ==> x == y
  }

  /** With one candidate per position, the order of equal scores is settled too. */
  lemma RankingIsDeterministic(
    m: Measures, q: Query, eligible: seq<Candidate>, r1: seq<Candidate>, r2: seq<Candidate>)
    requires Positioned(eligible)
    requires IsRanking(m, q, eligible, r1) && IsRanking(m, q, eligible, r2)
    ensures r1 == r2
  {
    RearrangedMembers(Scored(m, q, eligible), r1);
    forall x, y | x in r1 && y in r1 && Before(x, y) && Before(y, x) ensures x == y {
      ScoredComesFromEligible(m, q, eligible, x);
      ScoredComesFromEligible(m, q, eligible, y);
    }
    SortedIsUnique(r1, r2, Before);
  }

  // ---- Greedy selection ----

  function CountOf(chosen: seq<Candidate>, source: SourceId): nat {
    if chosen == [] then 0
    else CountOf(chosen[..|chosen| - 1], source) + if chosen[|chosen| - 1].chunk.source == source then 1 else 0
  }

  function SizeOf(m: Measures, chosen: seq<Candidate>): nat {
    if chosen == [] then 0 else SizeOf(m, chosen[..|chosen| - 1]) + m.chars(chosen[|chosen| - 1])
  }

  function KeysOf(chosen: seq<Candidate>): set<(SourceId, string)> {
    set c | c in chosen :: c.Key()
  }

  predicate Blocked(m: Measures, q: Query, chosen: seq<Candidate>, item: Candidate) {
    || item.Key() in KeysOf(chosen)
    || CountOf(chosen, item.chunk.source) >= q.maxPerSource
    || |chosen| >= q.topK
    || SizeOf(m, chosen) + m.chars(item) > q.maxContext
  }

  function Choose(m: Measures, q: Query, ranked: seq<Candidate>): seq<Candidate> {
    if ranked == [] then []
    else
      var k := |ranked| - 1;
      var chosen := Choose(m, q, ranked[..k]);
      if Blocked(m, q, chosen, ranked[k]) then chosen else chosen + [ranked[k]]
  }

  function Selection(m: Measures, q: Query, ranked: seq<Candidate>): Retrieved {
    var chosen := Choose(m, q, ranked);
    Retrieved(chosen, |ranked|, |chosen| < |ranked|)
  }

  /** Running counts agree with the candidates they were counted over. */
  ghost predicate CountsMatch(counts: map<SourceId, nat>, items: seq<Candidate>) {
    forall s :: CountOf(items, s) == if s in counts then counts[s] else 0
  }

  lemma Counted(counts: map<SourceId, nat>, items: seq<Candidate>, item: Candidate)
    requires CountsMatch(counts, items)
    ensures var source := item.chunk.source;
            CountsMatch(counts[source := 1 + if source in counts then counts[source] else 0], items + [item])
    ensures KeysOf(items + [item]) == KeysOf(items) + {item.Key()}
  {
    assert (items + [item])[..|items|] == items;
    assert forall c :: c in items + [item] <==> c in items || c == item;
  }

  method ChooseBounded(m: Measures, q: Query, ranked: seq<Candidate>) returns (chosen: seq<Candidate>)
    ensures chosen == Choose(m, q, ranked)
  {
    chosen := [];
    var seen: set<(SourceId, string)> := {};
    var counts: map<SourceId, nat> := map[];
    var size := 0;
    for k := 0 to |ranked|
      invariant chosen == Choose(m, q, ranked[..k])
      invariant seen == KeysOf(chosen) && size == SizeOf(m, chosen)
      invariant CountsMatch(counts, chosen)
    {
      assert ranked[..k + 1][..k] == ranked[..k];
      var item := ranked[k];
      var source := item.chunk.source;
      var count := if source in counts then counts[source] else 0;
      if item.Key() in seen || count >= q.maxPerSource || |chosen| >= q.topK || size + m.chars(item) > q.maxContext {
        continue;
      }
      Counted(counts, chosen, item);
      assert (chosen + [item])[..|chosen|] == chosen;
      chosen := chosen + [item];
      seen := seen + {item.Key()};
      counts := counts[source := 1 + count];
      size := size + m.chars(item);
    }
    assert ranked[..|ranked|] == ranked;
  }

  method Retrieve(m: Measures, q: Query, eligible: seq<Candidate>) returns (r: Retrieved)
    ensures exists ranked :: IsRanking(m, q, eligible, ranked) && r == Selection(m, q, ranked)
  {
    var ranked := Rank(m, q, eligible);
    var chosen := ChooseBounded(m, q, ranked);
    r := Retrieved(chosen, |ranked|, |chosen| < |ranked|);
    assert r == Selection(m, q, ranked);
  }

  // ---- The check of an answer ----

  predicate ShapeFits(m: Measures, q: Query, r: Retrieved, eligible: seq<Candidate>) {
    && |r.candidates| <= q.topK
    && |r.candidates| <= r.count <= |eligible|
    && SizeOf(m, r.candidates) <= q.maxContext
  }

  /** The complaint about one candidate, given those accepted before it. */
  function CandidateFault(
    q: Query, eligible: seq<Candidate>, before: seq<Candidate>, item: Candidate): Option<Error>
  {
    if item.(score := 0.0) !in eligible || item.Key() in KeysOf(before) || !(0.0 < item.score <= 1.0) then
      Some(CandidateNotAuthorized)
    else if CountOf(before + [item], item.chunk.source) > q.maxPerSource then Some(DiversityBound)
    else None
  }

  function FirstFault(q: Query, eligible: seq<Candidate>, items: seq<Candidate>): Option<Error> {
    if items == [] then None
    else
      var k := |items| - 1;
      var earlier := FirstFault(q, eligible, items[..k]);
      if earlier.Some? then earlier else CandidateFault(q, eligible, items[..k], items[k])
  }

  function ResultFault(m: Measures, q: Query, r: Retrieved, eligible: seq<Candidate>): Option<Error> {
    if !ShapeFits(m, q, r, eligible) then Some(RetrievalContract) else FirstFault(q, eligible, r.candidates)
  }

  lemma {:induction false} FirstFaultStays(q: Query, eligible: seq<Candidate>, items: seq<Candidate>, k: nat)
    requires k <= |items| && FirstFault(q, eligible, items[..k]).Some?
    ensures FirstFault(q, eligible, items) == FirstFault(q, eligible, items[..k])
    decreases |items|
  {
    if k < |items| {
      assert items[..|items| - 1][..k] == items[..k];
      FirstFaultStays(q, eligible, items[..|items| - 1], k);
    } else {
      assert items[..k] == items;
    }
  }

  lemma FaultAt(q: Query, eligible: seq<Candidate>, items: seq<Candidate>, k: nat)
    requires k < |items| && FirstFault(q, eligible, items[..k]).None?
    ensures var fault := CandidateFault(q, eligible, items[..k], items[k]);
            && FirstFault(q, eligible, items[..k + 1]) == fault
            && (fault.Some? ==> FirstFault(q, eligible, items) == fault)
            && items[..k + 1] == items[..k] + [items[k]]
  {
    assert items[..k + 1][..k] == items[..k];
    if CandidateFault(q, eligible, items[..k], items[k]).Some? {
      FirstFaultStays(q, eligible, items, k + 1);
    }
  }

  method ValidateResult(m: Measures, q: Query, r: Retrieved, eligible: seq<Candidate>) returns (fault: Option<Error>)
    ensures fault == ResultFault(m, q, r, eligible)
  {
    if !ShapeFits(m, q, r, eligible) {
      return Some(RetrievalContract);
    }
    var items := r.candidates;
    var seen: set<(SourceId, string)> := {};
    var counts: map<SourceId, nat> := map[];
    for k := 0 to |items|
      invariant FirstFault(q, eligible, items[..k]).None?
      invariant seen == KeysOf(items[..k])
      invariant CountsMatch(counts, items[..k])
    {
      var item := items[k];
      var source := item.chunk.source;
      FaultAt(q, eligible, items, k);
      if item.(score := 0.0) !in eligible || item.Key() in seen || !(0.0 < item.score <= 1.0) {
        return Some(CandidateNotAuthorized);
      }
      Counted(counts, items[..k], item);
      seen := seen + {item.Key()};
      counts := counts[source := 1 + if source in counts then counts[source] else 0];
      if counts[source] > q.maxPerSource {
        return Some(DiversityBound);
      }
    }
    assert items[..|items|] == items;
    return None;
  }

  ghost predicate DistinctKeys(items: seq<Candidate>) {
    forall j, k | 0 <= j < k < |items| :: items[j].Key() != items[k].Key()
  }

  ghost predicate Spread(items: seq<Candidate>, perSource: nat) {
    forall s :: CountOf(items, s) <= perSource
  }

  /** What passing the check means, position by position. */
  ghost predicate Acceptable(q: Query, eligible: seq<Candidate>, items: seq<Candidate>) {
    && (forall c | c in items :: c.(score := 0.0) in eligible && 0.0 < c.score <= 1.0)
    && DistinctKeys(items)
    && Spread(items, q.maxPerSource)
  }

  lemma DistinctStep(before: seq<Candidate>, item: Candidate)
    ensures DistinctKeys(before + [item]) <==> DistinctKeys(before) && item.Key() !in KeysOf(before)
  {
    var items := before + [item];
    if DistinctKeys(items) {
      forall c | c in before ensures c.Key() != item.Key() {
        var j :| 0 <= j < |before| && before[j] == c;
        assert items[j].Key() != items[|before|].Key();
      }
      forall j, k | 0 <= j < k < |before| ensures before[j].Key() != before[k].Key() {
        assert items[j].Key() != items[k].Key();
      }
    }
    if DistinctKeys(before) && item.Key() !in KeysOf(before) {
      forall j, k | 0 <= j < k < |items| ensures items[j].Key() != items[k].Key() {
        assert before[j] in before;
      }
    }
  }

  lemma SpreadStep(before: seq<Candidate>, item: Candidate, n: nat)
    ensures Spread(before + [item], n) <==> Spread(before, n) && CountOf(before + [item], item.chunk.source) <= n
  {
    var items := before + [item];
    assert items[..|before|] == before;
    assert forall s :: CountOf(items, s) == CountOf(before, s) + if s == item.chunk.source then 1 else 0;
    if Spread(items, n) {
      forall s ensures CountOf(before, s) <= n {
        assert CountOf(items, s) <= n;
      }
    }
  }

  lemma {:induction false} CheckPassesIffAcceptable(q: Query, eligible: seq<Candidate>, items: seq<Candidate>)
    ensures FirstFault(q, eligible, items).None? <==> Acceptable(q, eligible, items)
  {
    if items != [] {
      var k := |items| - 1;
      var before, item := items[..k], items[k];
      CheckPassesIffAcceptable(q, eligible, before);
      assert items == before + [item];
      assert forall c :: c in items <==> c in before || c == item;
      DistinctStep(before, item);
      SpreadStep(before, item, q.maxPerSource);
    }
  }

  // ---- Theorems ----

  lemma {:induction false} ChosenIsBounded(m: Measures, q: Query, ranked: seq<Candidate>)
    ensures var chosen := Choose(m, q, ranked);
            && |chosen| <= |ranked| && |chosen| <= q.topK
            && SizeOf(m, chosen) <= q.maxContext
            && (forall c | c in chosen :: c in ranked)
            && DistinctKeys(chosen)
            && Spread(chosen, q.maxPerSource)
  {
    if ranked != [] {
      var k := |ranked| - 1;
      var earlier, item := Choose(m, q, ranked[..k]), ranked[k];
      ChosenIsBounded(m, q, ranked[..k]);
      if !Blocked(m, q, earlier, item) {
        assert (earlier + [item])[..|earlier|] == earlier;
        DistinctStep(earlier, item);
        SpreadStep(earlier, item, q.maxPerSource);
      }
    } else {
      assert forall s :: CountOf([], s) == 0;
    }
  }

  /** Whatever is eligible, the retriever's answer passes the independent check. */
  lemma SelectionPassesTheCheck(m: Measures, q: Query, eligible: seq<Candidate>, ranked: seq<Candidate>)
    requires forall c | c in eligible :: c.score == 0.0
    requires IsRanking(m, q, eligible, ranked)
    ensures ResultFault(m, q, Selection(m, q, ranked), eligible).None?
  {
    var chosen := Choose(m, q, ranked);
    ChosenIsBounded(m, q, ranked);
    RearrangedMembers(Scored(m, q, eligible), ranked);
    forall c | c in chosen ensures c.(score := 0.0) in eligible && 0.0 < c.score <= 1.0 {
      ScoredComesFromEligible(m, q, eligible, c);
      var item :| item in eligible && Matches(m, q, item) && c == item.(score := Score(m, q, item));
      assert c.(score := 0.0) == item;
    }
    CheckPassesIffAcceptable(q, eligible, chosen);
  }

  lemma {:induction false} BlockedStays(m: Measures, q: Query, chosen: seq<Candidate>, more: Candidate, item: Candidate)
    requires Blocked(m, q, chosen, item)
    ensures Blocked(m, q, chosen + [more], item)
  {
    var longer := chosen + [more];
    assert longer[..|chosen|] == chosen;
    assert forall c | c in chosen :: c in longer;
  }

  /** Nothing was left out without need: adding any skipped candidate would break a bound. */
  lemma {:induction false} SelectionIsMaximal(m: Measures, q: Query, ranked: seq<Candidate>, item: Candidate)
    requires item in ranked && item !in Choose(m, q, ranked)
    ensures Blocked(m, q, Choose(m, q, ranked), item)
  {
    var k := |ranked| - 1;
    var earlier, last := Choose(m, q, ranked[..k]), ranked[k];
    assert ranked == ranked[..k] + [last];
    if item in ranked[..k] {
      SelectionIsMaximal(m, q, ranked[..k], item);
      if !Blocked(m, q, earlier, last) {
        BlockedStays(m, q, earlier, last, item);
      }
    }
  }

  /** Among what was chosen the ranking order is kept. */
  lemma {:induction false} ChosenIsInOrder(m: Measures, q: Query, ranked: seq<Candidate>)
    requires Sorted(ranked, Before)
    ensures Sorted(Choose(m, q, ranked), Before)
  {
    if ranked != [] {
      var k := |ranked| - 1;
      var earlier, last := Choose(m, q, ranked[..k]), ranked[k];
      ChosenIsInOrder(m, q, ranked[..k]);
      ChosenIsBounded(m, q, ranked[..k]);
      if !Blocked(m, q, earlier, last) {
        forall j | 0 <= j < |earlier| ensures Before(earlier[j], last) {
          assert earlier[j] in ranked[..k];
        }
      }
    }
  }

  /** The best-ranked candidate is returned exactly when it fits the bounds by itself. */
  lemma {:induction false} BestCandidateIsChosenIffItFits(m: Measures, q: Query, ranked: seq<Candidate>)
    requires ranked != []
    ensures var fits := q.topK > 0 && q.maxPerSource > 0 && m.chars(ranked[0]) <= q.maxContext;
            fits <==> Choose(m, q, ranked) != [] && Choose(m, q, ranked)[0] == ranked[0]
  {
    var k := |ranked| - 1;
    if k > 0 {
      BestCandidateIsChosenIffItFits(m, q, ranked[..k]);
    }
    assert KeysOf([]) == {} && CountOf([], ranked[k].chunk.source) == 0 && SizeOf(m, []) == 0;
  }
}
