/** Splitting content into bounded chunks. */
module Chunking {
  import opened Prelude
  import opened Knowledge

  // ---- Trimming ----

  /** The first index from i on that holds no whitespace. */
  function Lead(s: string, i: nat): (end: nat)
    requires i <= |s|
    ensures i <= end <= |s|
    ensures forall j | i <= j < end :: IsSpace(s[j])
    ensures end < |s| ==> !IsSpace(s[end])
    decreases |s| - i
  {
    if i < |s| && IsSpace(s[i]) then Lead(s, i + 1) else i
  }

  /** The end of s once whitespace before `end` is dropped. */
  function Trail(s: string, end: nat): (last: nat)
    requires end <= |s|
    ensures last <= end
    ensures forall j | last <= j < end :: IsSpace(s[j])
    ensures last > 0 ==> !IsSpace(s[last - 1])
  {
    if end > 0 && IsSpace(s[end - 1]) then Trail(s, end - 1) else end
  }

  function Strip(s: string): string {
    var t := s[Lead(s, 0)..];
    t[..Trail(t, |t|)]
  }

  predicate Trimmed(s: string) {
    s != [] ==> !IsSpace(s[0]) && !IsSpace(s[|s| - 1])
  }

  lemma Regroup<T>(a: seq<T>, b: seq<T>, c: seq<T>)
    ensures a + (b + c) == (a + b) + c
  {
  }

  lemma {:induction false} InkMoves(s: string, lo: nat, hi: nat, t: string, at: nat)
    requires lo <= hi <= |s| && at + (hi - lo) <= |t|
    requires s[lo..hi] == t[at..at + (hi - lo)]
    ensures InkBetween(s, lo, hi) == InkBetween(t, at, at + (hi - lo))
    decreases hi - lo
  {
    if lo < hi {
      assert s[lo] == s[lo..hi][0] == t[at];
      assert s[lo + 1..hi] == s[lo..hi][1..] == t[at + 1..at + (hi - lo)];
      InkMoves(s, lo + 1, hi, t, at + 1);
    }
  }

  lemma {:induction false} InkAdds(s: string, lo: nat, mid: nat, hi: nat)
    requires lo <= mid <= hi <= |s|
    ensures InkBetween(s, lo, hi) == InkBetween(s, lo, mid) + InkBetween(s, mid, hi)
    decreases mid - lo
  {
    if lo < mid {
      InkAdds(s, lo + 1, mid, hi);
      Regroup(if IsSpace(s[lo]) then [] else [s[lo]], InkBetween(s, lo + 1, mid), InkBetween(s, mid, hi));
    }
  }

  lemma {:induction false} BlanksHaveNoInk(s: string, lo: nat, hi: nat)
    requires lo <= hi <= |s| && forall j | lo <= j < hi :: IsSpace(s[j])
    ensures InkBetween(s, lo, hi) == []
    decreases hi - lo
  {
    if lo < hi {
      BlanksHaveNoInk(s, lo + 1, hi);
    }
  }

  lemma InkConcat(a: string, b: string)
    ensures Ink(a + b) == Ink(a) + Ink(b)
  {
    var s := a + b;
    InkAdds(s, 0, |a|, |s|);
    assert s[0..|a|] == a[0..|a|] && s[|a|..|s|] == b[0..|b|];
    InkMoves(s, 0, |a|, a, 0);
    InkMoves(s, |a|, |s|, b, 0);
  }

  lemma InkSplit(s: string, i: nat)
    requires i <= |s|
    ensures Ink(s) == Ink(s[..i]) + Ink(s[i..])
  {
    InkAdds(s, 0, i, |s|);
    InkMoves(s, 0, i, s[..i], 0);
    InkMoves(s, i, |s|, s[i..], 0);
  }

  lemma GapHasNoInk(s: string, i: nat, end: nat)
    requires i <= end <= |s| && forall j | i <= j < end :: IsSpace(s[j])
    ensures Ink(s) == Ink(s[..i]) + Ink(s[end..])
  {
    InkAdds(s, 0, i, |s|);
    InkAdds(s, i, end, |s|);
    BlanksHaveNoInk(s, i, end);
    InkMoves(s, 0, i, s[..i], 0);
    InkMoves(s, end, |s|, s[end..], 0);
  }

  lemma TrimmedHasInk(s: string)
    requires Trimmed(s)
    ensures s == [] <==> Ink(s) == []
  {
  }

  /** Trimming loses no ink, leaves a piece of the text, and leaves no whitespace at its ends. */
  lemma StripKeeps(s: string)
    ensures Ink(Strip(s)) == Ink(s)
    ensures |Strip(s)| <= |s| && Trimmed(Strip(s))
    ensures Strip(s) == [] <==> Ink(s) == []
  {
    var t := s[Lead(s, 0)..];
    GapHasNoInk(s, 0, Lead(s, 0));
    GapHasNoInk(t, Trail(t, |t|), |t|);
    TrimmedHasInk(Strip(s));
  }

  // ---- Paragraphs ----

  /** The first index from i on that holds neither a blank nor a tab. */
  function BlankRun(s: string, i: nat): (end: nat)
    requires i <= |s|
    ensures i <= end <= |s|
    ensures forall j | i <= j < end :: s[j] == ' ' || s[j] == '\t'
    ensures end < |s| ==> s[end] != ' ' && s[end] != '\t'
    decreases |s| - i
  {
    if i < |s| && (s[i] == ' ' || s[i] == '\t') then BlankRun(s, i + 1) else i
  }

  /** A paragraph break starts here: a line end, blanks only, and another line end. */
  predicate BreakAt(s: string, i: nat) {
    && i < |s|
    && s[i] == '\n'
    && BlankRun(s, i + 1) < |s|
    && s[BlankRun(s, i + 1)] == '\n'
  }

  function FirstBreak(s: string, i: nat): (found: nat)
    requires i <= |s|
    ensures i <= found <= |s|
    ensures found < |s| ==> BreakAt(s, found)
    ensures forall j | i <= j < found :: !BreakAt(s, j)
    decreases |s| - i
  {
    if i == |s| || BreakAt(s, i) then i else FirstBreak(s, i + 1)
  }

  function Paragraphs(s: string): (ps: seq<string>)
    ensures |ps| > 0
    decreases |s|
  {
    var i := FirstBreak(s, 0);
    if i == |s| then [s] else [s[..i]] + Paragraphs(s[BlankRun(s, i + 1) + 1..])
  }

  // ---- Cutting a paragraph ----

  function LastIndex(s: string, c: char, end: nat): (p: int)
    requires end <= |s|
    ensures -1 <= p < end
    ensures p >= 0 ==> s[p] == c
    ensures forall j | p < j < end :: s[j] != c
  {
    if end == 0 then -1 else if s[end - 1] == c then end - 1 else LastIndex(s, c, end - 1)
  }

  /** Where the next piece ends: all of it if it fits, else the last blank or line end, else the limit. */
  function Cut(remaining: string, limit: nat): (end: nat)
    requires remaining != [] && limit > 0
    ensures 0 < end <= |remaining| && end <= limit
  {
    if |remaining| <= limit then |remaining|
    else
      var space, line := LastIndex(remaining, ' ', limit), LastIndex(remaining, '\n', limit);
      var split := if space >= line then space else line;
      if split > 0 then split else limit
  }

  /** A paragraph too long for one piece is broken at whitespace, and as late as that allows. */
  lemma CutIsLatestBreak(remaining: string, limit: nat)
    requires |remaining| > limit > 0
    ensures var end := Cut(remaining, limit);
            || (remaining[end] in " \n" && forall j | end < j < limit :: remaining[j] !in " \n")
            || (end == limit && forall j | 0 < j < limit :: remaining[j] !in " \n")
  {
  }

  function Kept(part: string, rest: seq<string>): seq<string> {
    if part == [] then rest else [part] + rest
  }

  function Pieces(remaining: string, limit: nat): seq<string>
    requires limit > 0
    decreases |remaining|
  {
    if remaining == [] then []
    else
      var end := Cut(remaining, limit);
      var part := Strip(remaining[..end]);
      StripKeeps(remaining[end..]);
      Kept(part, Pieces(Strip(remaining[end..]), limit))
  }

  function PiecesOfAll(paragraphs: seq<string>, limit: nat): seq<string>
    requires limit > 0
  {
    if paragraphs == [] then [] else Pieces(Strip(paragraphs[0]), limit) + PiecesOfAll(paragraphs[1..], limit)
  }

  function FactText(company: string, fact: Fact): string {
    company + "\n" + fact.key + ": " + fact.value
  }

  /** The texts to be chunked, each with the fact it renders. */
  function Parts(v: SourceVersion): seq<(string, Option<Fact>)>
    requires v.limits.Valid() && (v.content.facts != [] ==> v.content.company.Some?)
  {
    if v.content.facts != [] then
      seq(|v.content.facts|, i requires 0 <= i < |v.content.facts| =>
        (FactText(v.content.company.value, v.content.facts[i]), Some(v.content.facts[i])))
    else Unlabelled(PiecesOfAll(Paragraphs(v.content.text), v.limits.chunkChars))
  }

  function Unlabelled(texts: seq<string>): seq<(string, Option<Fact>)> {
    seq(|texts|, i requires 0 <= i < |texts| => (texts[i], None))
  }

  function ChunkOf(v: SourceVersion, ordinal: nat, part: (string, Option<Fact>)): Chunk {
    var s := v.source;
    Chunk(
      ChunkId(s.workspace, s.id, s.contentVersion, v.limits.chunkChars, ordinal, part.0),
      s.workspace, s.id, s.contentVersion, ordinal, part.0, part.1)
  }

  /** Chunks the parts in order; the first part out of bounds decides the error. */
  function Labelled(v: SourceVersion, parts: seq<(string, Option<Fact>)>): Result<seq<Chunk>, Error> {
    if parts == [] then Ok([])
    else
      var k := |parts| - 1;
      match Labelled(v, parts[..k])
      case Err(e) => Err(e)
      case Ok(chunks) =>
        match TextFault(parts[k].0, v.limits.chunkChars)
        case Some(e) => Err(e)
        case None => Ok(chunks + [ChunkOf(v, k, parts[k])])
  }

  function Chunked(v: SourceVersion): Result<seq<Chunk>, Error>
    requires v.limits.Valid() && (v.content.facts != [] ==> v.content.company.Some?)
  {
    var parts := Parts(v);
    if parts == [] || |parts| > v.limits.chunks then Err(ChunkCount) else Labelled(v, parts)
  }

  // ---- The chunker ----

  method FindLast(s: string, c: char, end: nat) returns (p: int)
    requires end <= |s|
    ensures p == LastIndex(s, c, end)
  {
    p := end - 1;
    while p >= 0 && s[p] != c
      invariant -1 <= p < end
      invariant LastIndex(s, c, end) == LastIndex(s, c, p + 1)
    {
      p := p - 1;
    }
  }

  lemma PiecesOfAllSplit(paragraphs: seq<string>, k: nat, limit: nat)
    requires limit > 0 && k < |paragraphs|
    ensures PiecesOfAll(paragraphs[k..], limit)
         == Pieces(Strip(paragraphs[k]), limit) + PiecesOfAll(paragraphs[k + 1..], limit)
  {
    assert paragraphs[k..][1..] == paragraphs[k + 1..];
  }

  /** The end of the next piece, looked for as the code does. */
  method FindCut(remaining: string, limit: nat) returns (end: nat)
    requires remaining != [] && limit > 0
    ensures end == Cut(remaining, limit)
  {
    end := if limit <= |remaining| then limit else |remaining|;
    if end < |remaining| {
      var space := FindLast(remaining, ' ', end);
      var line := FindLast(remaining, '\n', end);
      var split := if space >= line then space else line;
      if split > 0 {
        end := split;
      }
    }
  }

  lemma PiecesUnfold(texts: seq<string>, remaining: string, limit: nat)
    requires limit > 0 && remaining != []
    ensures var end := Cut(remaining, limit);
            var part := Strip(remaining[..end]);
            && |Strip(remaining[end..])| < |remaining|
            && texts + Pieces(remaining, limit)
            == (if part == [] then texts else texts + [part]) + Pieces(Strip(remaining[end..]), limit)
  {
    var end := Cut(remaining, limit);
    var part := Strip(remaining[..end]);
    StripKeeps(remaining[end..]);
    var rest := Pieces(Strip(remaining[end..]), limit);
    if part != [] {
      Regroup(texts, [part], rest);
    }
  }

  /** Splits one trimmed paragraph, giving up as soon as there are too many parts. */
  method SplitParagraph(parts: seq<string>, paragraph: string, limits: Limits) returns (r: Result<seq<string>, Error>)
    requires limits.Valid()
    ensures r.Ok? ==> r.value == parts + Pieces(paragraph, limits.chunkChars)
    ensures r.Ok? && paragraph != [] ==> |r.value| <= limits.chunks
    ensures r.Err? ==> r.error == ChunkCount && |parts + Pieces(paragraph, limits.chunkChars)| > limits.chunks
  {
    var limit := limits.chunkChars;
    var texts, remaining := parts, paragraph;
    while remaining != []
      invariant texts + Pieces(remaining, limit) == parts + Pieces(paragraph, limit)
      invariant remaining == paragraph || |texts| <= limits.chunks
      decreases |remaining|
    {
      var end := FindCut(remaining, limit);
      var part := Strip(remaining[..end]);
      PiecesUnfold(texts, remaining, limit);
      if part != [] {
        texts := texts + [part];
      }
      remaining := Strip(remaining[end..]);
      if |texts| > limits.chunks {
        return Err(ChunkCount);
      }
    }
    return Ok(texts);
  }

  method SplitText(text: string, limits: Limits) returns (r: Result<seq<string>, Error>)
    requires limits.Valid()
    ensures r.Ok? ==> r.value == PiecesOfAll(Paragraphs(text), limits.chunkChars)
    ensures r.Err? ==> r.error == ChunkCount && |PiecesOfAll(Paragraphs(text), limits.chunkChars)| > limits.chunks
  {
    var limit, paragraphs := limits.chunkChars, Paragraphs(text);
    var texts: seq<string> := [];
    assert paragraphs[0..] == paragraphs;
    for k := 0 to |paragraphs|
      invariant texts + PiecesOfAll(paragraphs[k..], limit) == PiecesOfAll(paragraphs, limit)
    {
      PiecesOfAllSplit(paragraphs, k, limit);
      Regroup(texts, Pieces(Strip(paragraphs[k]), limit), PiecesOfAll(paragraphs[k + 1..], limit));
      var more := SplitParagraph(texts, Strip(paragraphs[k]), limits);
      if more.Err? {
        return more;
      }
      texts := more.value;
    }
    return Ok(texts);
  }

  /** Checks and numbers the parts in order. */
  method LabelParts(v: SourceVersion, parts: seq<(string, Option<Fact>)>) returns (r: Result<seq<Chunk>, Error>)
    ensures r == Labelled(v, parts)
  {
    var chunks: seq<Chunk> := [];
    for ordinal := 0 to |parts|
      invariant Labelled(v, parts[..ordinal]) == Ok(chunks)
    {
      assert parts[..ordinal + 1][..ordinal] == parts[..ordinal];
      var fault := TextFault(parts[ordinal].0, v.limits.chunkChars);
      if fault.Some? {
        FaultIsFinal(v, parts, ordinal + 1);
        return Err(fault.value);
      }
      chunks := chunks + [ChunkOf(v, ordinal, parts[ordinal])];
    }
    assert parts[..|parts|] == parts;
    return Ok(chunks);
  }

  method ChunkContent(v: SourceVersion) returns (r: Result<seq<Chunk>, Error>)
    requires v.limits.Valid() && (v.content.facts != [] ==> v.content.company.Some?)
    ensures r == Chunked(v)
  {
    var parts: seq<(string, Option<Fact>)>;
    if v.content.facts != [] {
      parts := Parts(v);
    } else {
      var texts := SplitText(v.content.text, v.limits);
      if texts.Err? {
        return Err(texts.error);
      }
      parts := Unlabelled(texts.value);
    }
    if parts == [] || |parts| > v.limits.chunks {
      return Err(ChunkCount);
    }
    r := LabelParts(v, parts);
  }

  lemma {:induction false} FaultIsFinal(v: SourceVersion, parts: seq<(string, Option<Fact>)>, k: nat)
    requires k <= |parts| && Labelled(v, parts[..k]).Err?
    ensures Labelled(v, parts) == Labelled(v, parts[..k])
    decreases |parts|
  {
    if k == |parts| {
      assert parts[..k] == parts;
    } else {
      var shorter := parts[..|parts| - 1];
      assert shorter[..k] == parts[..k];
      FaultIsFinal(v, shorter, k);
    }
  }

  // ---- What chunking keeps ----

  function Joined(texts: seq<string>): string {
    if texts == [] then [] else texts[0] + Joined(texts[1..])
  }

  lemma JoinedCons(first: string, rest: seq<string>)
    ensures Joined([first] + rest) == first + Joined(rest)
  {
    assert ([first] + rest)[1..] == rest;
  }

  lemma {:induction false} JoinedConcat(a: seq<string>, b: seq<string>)
    ensures Joined(a + b) == Joined(a) + Joined(b)
  {
    if a == [] {
      assert a + b == b;
    } else {
      JoinedConcat(a[1..], b);
      assert a + b == [a[0]] + (a[1..] + b);
      JoinedCons(a[0], a[1..] + b);
      Regroup(a[0], Joined(a[1..]), Joined(b));
    }
  }

  lemma ConsInk(first: string, rest: seq<string>)
    ensures Ink(Joined([first] + rest)) == Ink(first) + Ink(Joined(rest))
  {
    JoinedCons(first, rest);
    InkConcat(first, Joined(rest));
  }

  lemma OneInk(s: string)
    ensures Ink(Joined([s])) == Ink(s)
  {
    assert [s][1..] == [] && s + [] == s;
  }

  lemma {:induction false} ParagraphsKeepInk(s: string)
    ensures Ink(Joined(Paragraphs(s))) == Ink(s)
    decreases |s|
  {
    var i := FirstBreak(s, 0);
    if i == |s| {
      OneInk(s);
    } else {
      var end := BlankRun(s, i + 1) + 1;
      ParagraphsKeepInk(s[end..]);
      GapHasNoInk(s, i, end);
      ConsInk(s[..i], Paragraphs(s[end..]));
    }
  }

  lemma {:induction false} PiecesKeepInk(remaining: string, limit: nat)
    requires limit > 0
    ensures Ink(Joined(Pieces(remaining, limit))) == Ink(remaining)
    decreases |remaining|
  {
    if remaining != [] {
      var end := Cut(remaining, limit);
      var part, rest := Strip(remaining[..end]), Strip(remaining[end..]);
      InkSplit(remaining, end);
      StripKeeps(remaining[..end]);
      StripKeeps(remaining[end..]);
      PiecesKeepInk(rest, limit);
      KeptInk(part, Pieces(rest, limit));
    }
  }

  lemma KeptInk(part: string, rest: seq<string>)
    ensures Ink(Joined(Kept(part, rest))) == Ink(part) + Ink(Joined(rest))
  {
    if part != [] {
      ConsInk(part, rest);
    }
  }

  lemma {:induction false} PiecesOfAllKeepInk(paragraphs: seq<string>, limit: nat)
    requires limit > 0
    ensures Ink(Joined(PiecesOfAll(paragraphs, limit))) == Ink(Joined(paragraphs))
  {
    if paragraphs != [] {
      var first := Strip(paragraphs[0]);
      StripKeeps(paragraphs[0]);
      PiecesKeepInk(first, limit);
      PiecesOfAllKeepInk(paragraphs[1..], limit);
      JoinedInk(Pieces(first, limit), PiecesOfAll(paragraphs[1..], limit));
      InkConcat(paragraphs[0], Joined(paragraphs[1..]));
    }
  }

  lemma JoinedInk(a: seq<string>, b: seq<string>)
    ensures Ink(Joined(a + b)) == Ink(Joined(a)) + Ink(Joined(b))
  {
    JoinedConcat(a, b);
    InkConcat(Joined(a), Joined(b));
  }

  predicate At(piece: string, text: string, k: nat) {
    k + |piece| <= |text| && text[k..k + |piece|] == piece
  }

  ghost predicate Substring(piece: string, text: string) {
    exists k: nat :: At(piece, text, k)
  }

  lemma AtTrans(piece: string, inner: string, text: string, k: nat, m: nat)
    requires At(piece, inner, k) && At(inner, text, m)
    ensures At(piece, text, m + k)
  {
    forall j | 0 <= j < |piece| ensures text[m + k + j] == piece[j] {
      assert inner[k..k + |piece|][j] == piece[j];
      assert text[m..m + |inner|][k + j] == inner[k + j];
    }
  }

  lemma SubstringTrans(piece: string, inner: string, text: string)
    requires Substring(piece, inner) && Substring(inner, text)
    ensures Substring(piece, text)
  {
    var k: nat :| At(piece, inner, k);
    var m: nat :| At(inner, text, m);
    AtTrans(piece, inner, text, k, m);
  }

  lemma StripIsSubstring(s: string)
    ensures Substring(Strip(s), s)
  {
    var t := s[Lead(s, 0)..];
    assert At(t, s, Lead(s, 0));
    assert At(Strip(s), t, 0);
    SubstringTrans(Strip(s), t, s);
  }

  /** A piece is never blank, never padded, never too long, and a stretch of the text itself. */
  ghost predicate GoodPiece(piece: string, text: string, limit: nat) {
    && piece != []
    && |piece| <= limit
    && Trimmed(piece)
    && Substring(piece, text)
  }

  lemma GoodInside(pieces: seq<string>, inner: string, text: string, limit: nat)
    requires Substring(inner, text)
    requires forall p | p in pieces :: GoodPiece(p, inner, limit)
    ensures forall p | p in pieces :: GoodPiece(p, text, limit)
  {
    forall p | p in pieces ensures GoodPiece(p, text, limit) {
      SubstringTrans(p, inner, text);
    }
  }

  lemma {:induction false} PiecesAreGood(remaining: string, limit: nat)
    requires limit > 0
    ensures forall p | p in Pieces(remaining, limit) :: GoodPiece(p, remaining, limit)
    decreases |remaining|
  {
    if remaining != [] {
      var end := Cut(remaining, limit);
      var head, tail := remaining[..end], remaining[end..];
      StripKeeps(head);
      StripKeeps(tail);
      StripIsSubstring(head);
      StripIsSubstring(tail);
      assert At(head, remaining, 0) && At(tail, remaining, end);
      SubstringTrans(Strip(head), head, remaining);
      SubstringTrans(Strip(tail), tail, remaining);
      PiecesAreGood(Strip(tail), limit);
      GoodInside(Pieces(Strip(tail), limit), Strip(tail), remaining, limit);
    }
  }

  lemma {:induction false} ParagraphsAreSubstrings(s: string)
    ensures forall p | p in Paragraphs(s) :: Substring(p, s)
    decreases |s|
  {
    var i := FirstBreak(s, 0);
    if i == |s| {
      assert At(s, s, 0);
    } else {
      var end := BlankRun(s, i + 1) + 1;
      ParagraphsAreSubstrings(s[end..]);
      assert At(s[..i], s, 0) && At(s[end..], s, end);
      forall p | p in Paragraphs(s) ensures Substring(p, s) {
        if p in Paragraphs(s[end..]) {
          SubstringTrans(p, s[end..], s);
        }
      }
    }
  }

  lemma {:induction false} PiecesOfAllAreGood(paragraphs: seq<string>, text: string, limit: nat)
    requires limit > 0
    requires forall p | p in paragraphs :: Substring(p, text)
    ensures forall p | p in PiecesOfAll(paragraphs, limit) :: GoodPiece(p, text, limit)
  {
    if paragraphs != [] {
      var first := paragraphs[0];
      StripIsSubstring(first);
      SubstringTrans(Strip(first), first, text);
      PiecesAreGood(Strip(first), limit);
      GoodInside(Pieces(Strip(first), limit), Strip(first), text, limit);
      PiecesOfAllAreGood(paragraphs[1..], text, limit);
    }
  }

  lemma {:induction false} BlankRunOfPrefix(s: string, n: nat, i: nat)
    requires i <= n <= |s| && BlankRun(s[..n], i) < n
    ensures BlankRun(s, i) == BlankRun(s[..n], i)
    decreases n - i
  {
    if i < n && (s[i] == ' ' || s[i] == '\t') {
      BlankRunOfPrefix(s, n, i + 1);
    }
  }

  lemma PrefixHasNoBreak(s: string, n: nat)
    requires n <= |s| && forall j | 0 <= j < n :: !BreakAt(s, j)
    ensures forall i: nat :: !BreakAt(s[..n], i)
  {
    forall i: nat ensures !BreakAt(s[..n], i) {
      if BreakAt(s[..n], i) {
        BlankRunOfPrefix(s, n, i + 1);
        assert BreakAt(s, i);
      }
    }
  }

  /** Paragraphs hold no paragraph break themselves. */
  lemma {:induction false} ParagraphsHaveNoBreak(s: string)
    ensures forall p, i: nat | p in Paragraphs(s) :: !BreakAt(p, i)
    decreases |s|
  {
    var n := FirstBreak(s, 0);
    PrefixHasNoBreak(s, n);
    if n < |s| {
      ParagraphsHaveNoBreak(s[BlankRun(s, n + 1) + 1..]);
    } else {
      assert s[..n] == s;
    }
  }

  // ---- The chunk list ----

  function Texts(chunks: seq<Chunk>): seq<string> {
    seq(|chunks|, i requires 0 <= i < |chunks| => chunks[i].text)
  }

  /** Numbering succeeds when every part is in bounds, and then keeps the parts one for one. */
  lemma {:induction false} LabelledIff(v: SourceVersion, parts: seq<(string, Option<Fact>)>)
    ensures Labelled(v, parts).Ok? <==> forall k | 0 <= k < |parts| :: Bounded(parts[k].0, v.limits.chunkChars)
    ensures Labelled(v, parts).Ok? ==>
              && |Labelled(v, parts).value| == |parts|
              && forall k | 0 <= k < |parts| :: Labelled(v, parts).value[k] == ChunkOf(v, k, parts[k])
  {
    if parts != [] {
      LabelledIff(v, parts[..|parts| - 1]);
    }
  }

  lemma {:induction false} OnlyBlanksAndLengthFail(v: SourceVersion, parts: seq<(string, Option<Fact>)>)
    requires forall k | 0 <= k < |parts| :: !HasControl(parts[k].0)
    ensures Labelled(v, parts).Err? ==> Labelled(v, parts).error == TextBound
  {
    if parts != [] {
      OnlyBlanksAndLengthFail(v, parts[..|parts| - 1]);
    }
  }

  lemma GoodPiecesAreBounded(piece: string, text: string, limit: nat)
    requires GoodPiece(piece, text, limit) && !HasControl(text)
    ensures Bounded(piece, limit)
  {
    var k: nat :| At(piece, text, k);
    forall c | c in piece ensures c in text {
      assert c in text[k..k + |piece|];
    }
    assert Ink(piece) != [];
  }

  lemma TextPieces(v: SourceVersion)
    requires ValidVersion(v) && v.content.facts == []
    ensures var texts := PiecesOfAll(Paragraphs(v.content.text), v.limits.chunkChars);
            && texts != []
            && Ink(Joined(texts)) == Ink(v.content.text)
            && (forall p | p in texts :: GoodPiece(p, v.content.text, v.limits.chunkChars))
            && (forall k | 0 <= k < |texts| :: Bounded(texts[k], v.limits.chunkChars))
  {
    var text, limit := v.content.text, v.limits.chunkChars;
    var texts := PiecesOfAll(Paragraphs(text), limit);
    ParagraphsKeepInk(text);
    PiecesOfAllKeepInk(Paragraphs(text), limit);
    ParagraphsAreSubstrings(text);
    PiecesOfAllAreGood(Paragraphs(text), text, limit);
    forall k | 0 <= k < |texts| ensures Bounded(texts[k], limit) {
      assert texts[k] in texts;
      GoodPiecesAreBounded(texts[k], text, limit);
    }
  }

  /** Plain text is refused exactly when it makes too many chunks. */
  lemma TextIsRefusedIffTooManyChunks(v: SourceVersion)
    requires ValidVersion(v) && v.content.facts == []
    ensures Chunked(v).Err? <==> |PiecesOfAll(Paragraphs(v.content.text), v.limits.chunkChars)| > v.limits.chunks
    ensures Chunked(v).Err? ==> Chunked(v).error == ChunkCount
  {
    TextPieces(v);
    LabelledIff(v, Parts(v));
  }

  /** The chunks of a text hold exactly its non-whitespace characters, in order; each is a
      non-blank stretch of it within the limit, numbered from zero without gaps. */
  lemma ChunksConserveText(v: SourceVersion)
    requires ValidVersion(v) && v.content.facts == [] && Chunked(v).Ok?
    ensures var chunks := Chunked(v).value;
            && 1 <= |chunks| <= v.limits.chunks
            && Ink(Joined(Texts(chunks))) == Ink(v.content.text)
            && (forall k | 0 <= k < |chunks| ::
                 chunks[k].ordinal == k && chunks[k].fact.None?
                 && GoodPiece(chunks[k].text, v.content.text, v.limits.chunkChars))
  {
    TextPieces(v);
    LabelledIff(v, Parts(v));
    assert Texts(Chunked(v).value) == PiecesOfAll(Paragraphs(v.content.text), v.limits.chunkChars);
  }

  lemma FactTextIsClean(company: string, fact: Fact)
    requires Bounded(company, 128) && Bounded(fact.key, 128) && Bounded(fact.value, 512)
    ensures Ink(FactText(company, fact)) != [] && !HasControl(FactText(company, fact))
  {
    var tail := "\n" + fact.key + ": " + fact.value;
    assert FactText(company, fact) == company + tail;
    InkConcat(company, tail);
    forall c | c in FactText(company, fact) ensures !IsControl(c) {
      assert c in company || c in fact.key || c in fact.value || c in "\n: ";
    }
  }

  /** Facts are never split: they are refused when too many, or when one of them outgrows a chunk. */
  lemma FactsAreChunkedIffTheyFit(v: SourceVersion)
    requires ValidVersion(v) && v.content.facts != []
    ensures var facts, company := v.content.facts, v.content.company.value;
            var fit := forall f | f in facts :: |FactText(company, f)| <= v.limits.chunkChars;
            && (Chunked(v).Ok? <==> |facts| <= v.limits.chunks && fit)
            && (Chunked(v).Err? ==> Chunked(v).error == if |facts| > v.limits.chunks then ChunkCount else TextBound)
            && (Chunked(v).Ok? ==>
                 && |Chunked(v).value| == |facts|
                 && forall k | 0 <= k < |facts| ::
                      var c := Chunked(v).value[k];
                      c.ordinal == k && c.fact == Some(facts[k]) && c.text == FactText(company, facts[k]))
  {
    var facts, company, parts := v.content.facts, v.content.company.value, Parts(v);
    forall k | 0 <= k < |parts|
      ensures Bounded(parts[k].0, v.limits.chunkChars) <==> |FactText(company, facts[k])| <= v.limits.chunkChars
      ensures !HasControl(parts[k].0)
    {
      assert facts[k] in facts;
      FactTextIsClean(company, facts[k]);
    }
    LabelledIff(v, parts);
    OnlyBlanksAndLengthFail(v, parts);
  }

  /** Whatever was chunked: ordinals count up from zero, ids are distinct, and each chunk is in bounds. */
  lemma ChunksAreNumbered(v: SourceVersion)
    requires ValidVersion(v) && Chunked(v).Ok?
    ensures var chunks := Chunked(v).value;
            && 1 <= |chunks| <= v.limits.chunks
            && (forall k | 0 <= k < |chunks| ::
                 && chunks[k].ordinal == k
                 && chunks[k].source == v.source.id
                 && chunks[k].workspace == v.source.workspace
                 && chunks[k].sourceVersion == v.source.contentVersion
                 && Bounded(chunks[k].text, v.limits.chunkChars))
            && (forall j, k | 0 <= j < k < |chunks| :: chunks[j].id != chunks[k].id)
  {
    LabelledIff(v, Parts(v));
  }
}
