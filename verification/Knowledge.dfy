/** Knowledge sources, their versions and chunks, and the text rules they share. */
module Knowledge {
  import opened Prelude

  /** Source ids are numbered in the order of their text. */
  type SourceId = nat

  datatype TrustClass = Authoritative | ApprovedInternal | UnverifiedExternal

  datatype Error =
    | TextBound
    | ControlCharacter
    | ChunkCount
    | NotFound
    | WrongWorkspace
    | VersionConflict
    | LineageImmutableOrDisabled
    | InitialVersion
    | WorkspaceSourceLimit
    | VersionHistoryBound
    | ChunkSourceBinding
    | AlreadyDisabled
    | RequiresIdleActiveRun
    | ActiveParentBinding
    | QueryScopeDenied
    | QueriesPerRun
    | DeadlineExceeded
    | ResultSchema
    | RetrievalContract
    | CandidateNotAuthorized
    | DiversityBound
    | PackSchema
    | EnvelopeExceedsBudget
    | PackIdentityOrLimit
    | PackQueryScope
    | PackEvidenceBinding
    | PackDuplicateOrDiversity
    | PackRunBinding
    | EvidenceRevoked

  datatype Fact = Fact(key: string, value: string)

  datatype Limits = Limits(normalizedChars: nat, facts: nat, chunkChars: nat, chunks: nat)
  {
    predicate Valid() {
      && 1 <= normalizedChars <= 64000
      && 1 <= facts <= 100
      && 1 <= chunkChars <= 2000
      && 1 <= chunks <= 128
    }
  }

  datatype Content = Content(text: string, company: Option<string>, facts: seq<Fact>)

  datatype Source = Source(
    id: SourceId,
    workspace: nat,
    name: string,
    trust: TrustClass,
    createdAt: nat,
    version: nat,
    contentVersion: nat,
    active: bool)

  datatype SourceVersion = SourceVersion(source: Source, content: Content, createdAt: nat, limits: Limits)

  /** A chunk id digests exactly these parts; digests are taken to be injective. */
  datatype ChunkId = ChunkId(
    workspace: nat, source: SourceId, contentVersion: nat, limit: nat, ordinal: nat, text: string)

  datatype Chunk = Chunk(
    id: ChunkId,
    workspace: nat,
    source: SourceId,
    sourceVersion: nat,
    ordinal: nat,
    text: string,
    fact: Option<Fact>)

  /** The characters `str.isspace` accepts and `str.strip` removes. */
  predicate IsSpace(c: char) {
    var n := c as int;
    || 0x09 <= n <= 0x0D
    || 0x1C <= n <= 0x20
    || n in {0x85, 0xA0, 0x1680, 0x2028, 0x2029, 0x202F, 0x205F, 0x3000}
    || 0x2000 <= n <= 0x200A
  }

  predicate IsControl(c: char) {
    var n := c as int;
    (n < 32 && c != '\n' && c != '\t') || 127 <= n < 160
  }

  predicate HasControl(s: string) {
    exists c | c in s :: IsControl(c)
  }

  /** The non-whitespace characters between two positions, in order. */
  function InkBetween(s: string, lo: nat, hi: nat): string
    requires lo <= hi <= |s|
    decreases hi - lo
  {
    if lo == hi then [] else (if IsSpace(s[lo]) then [] else [s[lo]]) + InkBetween(s, lo + 1, hi)
  }

  /** The non-whitespace characters of a text, in order. */
  function Ink(s: string): string { InkBetween(s, 0, |s|) }

  /** The complaint a bounded text check raises, if any. */
  function TextFault(value: string, maximum: nat): Option<Error> {
    if Ink(value) == [] || |value| > maximum then Some(TextBound)
    else if HasControl(value) then Some(ControlCharacter)
    else None
  }

  predicate Bounded(value: string, maximum: nat) {
    TextFault(value, maximum).None?
  }

  /** What constructing a source version checks of its content. */
  predicate ValidVersion(v: SourceVersion) {
    && v.limits.Valid()
    && Bounded(v.content.text, v.limits.normalizedChars)
    && Bounded(v.source.name, 128)
    && |v.content.facts| <= v.limits.facts
    && (v.content.company.Some? <==> v.content.facts != [])
    && (v.content.company.Some? ==> Bounded(v.content.company.value, 128))
    && (forall f | f in v.content.facts :: Bounded(f.key, 128) && Bounded(f.value, 512))
    && v.createdAt >= v.source.createdAt
  }
}
