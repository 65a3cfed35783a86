/**
  The portable export of an approval: what goes into its bytes and what does not.  Hashes are
  arbitrary functions, and texts are numbers in the order of their text.
 */
module ExportModel {
  import opened Common

  /** A source version row with the observation it was captured by; `id` is its database id. */
  datatype Source = Source(id: nat, record: Record)

  datatype Record = Record(channel: nat, post: nat, url: nat, material: Material)
  datatype Material = Material(versionKey: nat, body: nat, media: nat, kind: nat, sponsored: bool, urls: nat, conflicts: nat)

  /** A claim of the generation's manifest, bound to a source version by its database id. */
  datatype Claim = Claim(sourceVersion: nat, wellShaped: bool, versionOk: bool, text: PortableClaim)

  datatype PortableClaim = PortableClaim(
    claimId: nat, sourceIdentity: nat, materialIdentity: nat, observationIdentity: nat, capturedAt: nat,
    sourceUrl: nat, evidence: nat, spans: nat, conflicts: nat, uncertainty: nat)

  datatype Reference = Reference(sourceVersion: nat, claimId: nat)
  datatype FactualUnit = FactualUnit(text: nat, references: seq<Reference>)
  datatype Body = Body(subtitle: nat, body: nat, units: seq<FactualUnit>)

  /** A page as it comes: the keys that the Markdown shows, all others, and the factual units. */
  datatype RawPage = RawPage(title: Option<nat>, subtitle: Option<nat>, body: Option<nat>, others: nat, units: seq<FactualUnit>)

  datatype Layout =
    | CoverAndBodies(title: nat, subtitle: nat, units: seq<FactualUnit>, bodies: seq<Body>)
    | OlderPages(pages: seq<RawPage>)

  datatype Caption = Caption(text: Option<nat>, others: nat)
  datatype Category = Absent | AI | Blockchain | Unknown

  datatype Content = Content(
    manifest: seq<Claim>, layout: Layout, caption: Caption, category: Category, draft: bool, sourceReported: bool)

  /** The row ids that approval_outbox_intent is given. */
  datatype RowIds = RowIds(candidate: nat, generation: nat, event: nat, sourceVersions: seq<nat>)

  // what the bytes are made of; nothing below carries a row id

  datatype Provenance = Provenance(
    version: nat, source: nat, material: nat, url: nat, channel: nat, post: nat, versionKey: nat, urls: nat, conflicts: nat,
    observation: nat, claimId: nat, capturedAt: nat, body: nat, evidence: nat, spans: nat, uncertainty: nat)
  datatype PortableReference = PortableReference(claimId: nat, version: nat, source: nat, material: nat, observation: nat)
  datatype PortableUnit = PortableUnit(text: nat, references: seq<PortableReference>)
  datatype Page = Page(title: Option<nat>, subtitle: Option<nat>, body: Option<nat>, others: nat, units: seq<PortableUnit>)
  datatype PortableContent = PortableContent(category: Category, pages: seq<Page>, caption: Caption, draft: bool, sourceReported: bool)
  datatype Semantic = Semantic(
    category: Category, sources: seq<Provenance>, claims: seq<PortableClaim>, contentIdentity: nat, generationIdentity: nat,
    decisionIdentity: nat, pages: seq<Page>, caption: Caption, warnings: seq<nat>)
  datatype Export = Export(id: nat, payload: Semantic, markdown: string)

  /** What the identity of a claim is made of. */
  datatype ClaimBasis = ClaimBasis(material: nat, observation: nat, evidence: nat, spans: nat, conflicts: nat, uncertainty: nat)

  /** The hashes, and the text that a number stands for. */
  datatype Hashes = Hashes(
    source: (nat, nat) -> nat, material: (nat, Material) -> nat, version: Record -> nat, claim: ClaimBasis -> nat,
    content: PortableContent -> nat, generation: (PortableContent, nat) -> nat, decision: (nat, seq<nat>, nat) -> nat,
    whole: Semantic -> nat, text: nat -> string)

  // ---------------------------------------------------------------- identities

  function SourceIdentity(h: Hashes, r: Record): nat { (h.source)(r.channel, r.post) }

  function MaterialIdentity(h: Hashes, r: Record): nat { (h.material)(SourceIdentity(h, r), r.material) }

  /** source_claim_identity */
  function ClaimIdentity(h: Hashes, p: PortableClaim): nat {
    (h.claim)(ClaimBasis(p.materialIdentity, p.observationIdentity, p.evidence, p.spans, p.conflicts, p.uncertainty))
  }

  // ---------------------------------------------------------------- ordered dictionaries

  function Lookup(sources: seq<Source>, id: nat): Option<Source> {
    if sources == [] then None else if sources[0].id == id then Some(sources[0]) else Lookup(sources[1..], id)
  }

  /** dict[source.id] = source: a known key keeps its place and takes the new value. */
  function Put(sources: seq<Source>, s: Source): seq<Source> {
    if sources == [] then [s]
    else if sources[0].id == s.id then [s] + sources[1..]
    else [sources[0]] + Put(sources[1..], s)
  }

  function ById(sources: seq<Source>): seq<Source> {
    if sources == [] then [] else Put(ById(sources[..|sources| - 1]), sources[|sources| - 1])
  }

  function ClaimFor(claims: seq<Claim>, id: nat): Option<Claim> {
    if claims == [] then None else if claims[0].sourceVersion == id then Some(claims[0]) else ClaimFor(claims[1..], id)
  }

  // ---------------------------------------------------------------- stages

  /** A manifest entry that is bound to one of the sources and states that source's identities. */
  predicate Bound(h: Hashes, sources: seq<Source>, c: Claim) {
    && c.wellShaped && c.versionOk
    && var s := Lookup(sources, c.sourceVersion);
    && s.Some? && c.text.sourceIdentity == SourceIdentity(h, s.value.record)
    && c.text.materialIdentity == MaterialIdentity(h, s.value.record)
  }

  /** claims_by_local_id, or None when an entry is refused. */
  function Bind(h: Hashes, sources: seq<Source>, manifest: seq<Claim>): Option<seq<Claim>> {
    if manifest == [] then Some([])
    else
      var front := Bind(h, sources, manifest[..|manifest| - 1]);
      var c := manifest[|manifest| - 1];
      if front.None? || !Bound(h, sources, c) || ClaimFor(front.value, c.sourceVersion).Some? then None
      else Some(front.value + [c])
  }

  /** _source_provenance */
  function ProvenanceOf(h: Hashes, s: Source, c: Claim): Provenance {
    var r := s.record;
    Provenance((h.version)(r), SourceIdentity(h, r), MaterialIdentity(h, r), r.url, r.channel, r.post,
               r.material.versionKey, r.material.urls, r.material.conflicts, c.text.observationIdentity, c.text.claimId,
               c.text.capturedAt, r.material.body, c.text.evidence, c.text.spans, c.text.uncertainty)
  }

  /** provenance_by_local_id in dictionary order; None where a source has no claim. */
  function Provenances(h: Hashes, sources: seq<Source>, claims: seq<Claim>): Option<seq<Provenance>> {
    if sources == [] then Some([])
    else
      var c := ClaimFor(claims, sources[0].id);
      var rest := Provenances(h, sources[1..], claims);
      if c.None? || rest.None? then None else Some([ProvenanceOf(h, sources[0], c.value)] + rest.value)
  }

  /** _content_addressed_reference */
  function Resolve(h: Hashes, sources: seq<Source>, claims: seq<Claim>, r: Reference): Option<PortableReference> {
    var s := Lookup(sources, r.sourceVersion);
    var c := ClaimFor(claims, r.sourceVersion);
    if s.None? || c.None? || c.value.text.claimId != r.claimId then None
    else Some(PortableReference(r.claimId, (h.version)(s.value.record), SourceIdentity(h, s.value.record),
                                MaterialIdentity(h, s.value.record), c.value.text.observationIdentity))
  }

  function Sequence<T, U>(f: T -> Option<U>, s: seq<T>): Option<seq<U>> {
    if s == [] then Some([])
    else
      var first := f(s[0]);
      var rest := Sequence(f, s[1..]);
      if first.None? || rest.None? then None else Some([first.value] + rest.value)
  }

  /** _content_addressed_units, for one unit */
  function ResolveUnit(resolve: Reference -> Option<PortableReference>, u: FactualUnit): Option<PortableUnit> {
    var refs := Sequence(resolve, u.references);
    if refs.None? then None else Some(PortableUnit(u.text, refs.value))
  }

  function BodyPage(b: Body): RawPage { RawPage(None, Some(b.subtitle), Some(b.body), 0, b.units) }

  function Map<T, U>(f: T -> U, s: seq<T>): (m: seq<U>)
    ensures |m| == |s| && forall i | 0 <= i < |s| :: m[i] == f(s[i])
  {
    if s == [] then [] else [f(s[0])] + Map(f, s[1..])
  }

  /** The pages of either form of content. */
  function RawPages(l: Layout): seq<RawPage> {
    match l
    case CoverAndBodies(title, subtitle, units, bodies) =>
      [RawPage(Some(title), Some(subtitle), None, 0, units)] + Map(BodyPage, bodies)
    case OlderPages(pages) => pages
  }

  function ResolvePage(resolve: Reference -> Option<PortableReference>, p: RawPage): Option<Page> {
    var units := Sequence(u => ResolveUnit(resolve, u), p.units);
    if units.None? then None else Some(Page(p.title, p.subtitle, p.body, p.others, units.value))
  }

  function Pages(resolve: Reference -> Option<PortableReference>, l: Layout): Option<seq<Page>> {
    Sequence(p => ResolvePage(resolve, p), RawPages(l))
  }

  function ResolvedPages(h: Hashes, sources: seq<Source>, claims: seq<Claim>, l: Layout): Option<seq<Page>> {
    Pages(r => Resolve(h, sources, claims, r), l)
  }

  // ---------------------------------------------------------------- canonical_markdown_bytes

  function Decimal(n: nat): string { (if n < 10 then [] else Decimal(n / 10)) + [('0' as int + n % 10) as char] }

  function SectionLines(h: Hashes, number: nat, subtitle: nat, body: nat): seq<string> {
    ["", "## " + Decimal(number) + ". " + (h.text)(subtitle), "", (h.text)(body)]
  }

  /** The sections from page `index` on (pages count from zero, sections from two); None where a key is missing. */
  function Sections(h: Hashes, pages: seq<Page>, index: nat): Option<seq<string>>
    decreases |pages| - index
  {
    if index >= |pages| then Some([])
    else
      var rest := Sections(h, pages, index + 1);
      var p := pages[index];
      if p.subtitle.None? || p.body.None? || rest.None? then None
      else Some(SectionLines(h, index + 1, p.subtitle.value, p.body.value) + rest.value)
  }

  function Heading(h: Hashes, p: Page): Option<seq<string>> {
    if p.title.None? then None
    else
      Some(["# " + (h.text)(p.title.value)]
           + if p.subtitle.Some? && (h.text)(p.subtitle.value) != "" then ["", (h.text)(p.subtitle.value)] else [])
  }

  /** A warning stands for its kind and detail. */
  function WarningLine(h: Hashes, w: nat): string { "- " + (h.text)(w) }

  function WarningLines(h: Hashes, warnings: seq<nat>): seq<string> {
    if warnings == [] then [] else ["", "## Warnings"] + Map(w => WarningLine(h, w), warnings)
  }

  function CaptionLines(h: Hashes, text: nat): seq<string> { ["", "## Caption", "", (h.text)(text)] }

  function MarkdownLines(h: Hashes, pages: seq<Page>, caption: Caption, warnings: seq<nat>): Option<seq<string>> {
    if pages == [] then None
    else
      var heading, sections := Heading(h, pages[0]), Sections(h, pages, 1);
      if heading.None? || sections.None? || caption.text.None? then None
      else Some(heading.value + sections.value + CaptionLines(h, caption.text.value) + WarningLines(h, warnings))
  }

  /** The lines, each with its line feed. */
  function Joined(lines: seq<string>): string { if lines == [] then "" else lines[0] + "\n" + Joined(lines[1..]) }

  /** The comment with the export id, and the Markdown. */
  function MarkdownText(h: Hashes, id: nat, lines: seq<string>): string {
    Joined(["<!-- export_id: " + (h.text)(id) + " -->"] + lines)
  }

  // ---------------------------------------------------------------- stable sort by a key

  function InsertBy<T>(key: T -> nat, x: T, s: seq<T>): seq<T> {
    if s == [] then [x] else if key(x) <= key(s[0]) then [x] + s else [s[0]] + InsertBy(key, x, s[1..])
  }

  function SortBy<T>(key: T -> nat, s: seq<T>): seq<T> {
    if s == [] then [] else InsertBy(key, s[0], SortBy(key, s[1..]))
  }

  // ---------------------------------------------------------------- the export

  function Texts(claims: seq<Claim>): seq<PortableClaim> {
    seq(|claims|, i requires 0 <= i < |claims| => claims[i].text)
  }

  function Versions(ps: seq<Provenance>): seq<nat> { seq(|ps|, i requires 0 <= i < |ps| => ps[i].version) }

  ghost predicate SameIds(claims: seq<Claim>, ids: seq<nat>) {
    && (forall c | c in claims :: c.sourceVersion in ids)
    && (forall id | id in ids :: ClaimFor(claims, id).Some?)
  }

  /** The identities and the bytes' content, from provenance, claims and warnings in sorted order and the resolved pages. */
  function Assemble(h: Hashes, ps: seq<Provenance>, claims: seq<PortableClaim>, pages: seq<Page>, c: Content,
                    warnings: seq<nat>, revision: nat, approval: nat): Semantic {
    var portable := PortableContent(c.category, pages, c.caption, c.draft, c.sourceReported);
    var generation := (h.generation)(portable, revision);
    Semantic(c.category, ps, claims, (h.content)(portable), generation, (h.decision)(generation, Versions(ps), approval),
             pages, c.caption, warnings)
  }

  /** What the manifest, the sources and the content resolve to, in order of arrival. */
  datatype Parts = Parts(provenance: seq<Provenance>, claims: seq<PortableClaim>, pages: seq<Page>)

  ghost function Gather(h: Hashes, ids: seq<nat>, known: seq<Source>, manifest: seq<Claim>, layout: Layout): Option<Parts> {
    if manifest == [] then None
    else
      var claims := Bind(h, known, manifest);
      if claims.None? || !SameIds(claims.value, ids) then None
      else
        var ps := Provenances(h, known, claims.value);
        var pages := ResolvedPages(h, known, claims.value, layout);
        if ps.None? || pages.None? then None else Some(Parts(ps.value, Texts(claims.value), pages.value))
  }

  /** What approval_outbox_intent encodes, but for the export id; None is an exception. */
  ghost function Payload(h: Hashes, ids: RowIds, sources: seq<Source>, c: Content, warnings: seq<nat>, revision: nat, approval: nat)
    : Option<Semantic>
  {
    var parts := Gather(h, ids.sourceVersions, ById(sources), c.manifest, c.layout);
    if parts.None? || c.category == Unknown then None
    else
      Some(Assemble(h, SortBy((p: Provenance) => p.version, parts.value.provenance),
                    SortBy((p: PortableClaim) => p.claimId, parts.value.claims), parts.value.pages, c,
                    SortBy((w: nat) => w, warnings), revision, approval))
  }

  /** approval_outbox_intent: the id, the payload that goes with it, and the Markdown of that payload. */
  ghost function Intent(h: Hashes, ids: RowIds, sources: seq<Source>, c: Content, warnings: seq<nat>, revision: nat, approval: nat)
    : Option<Export>
  {
    var p := Payload(h, ids, sources, c, warnings, revision, approval);
    if p.None? then None
    else
      var id, lines := (h.whole)(p.value), MarkdownLines(h, p.value.pages, p.value.caption, p.value.warnings);
      if lines.None? then None else Some(Export(id, p.value, MarkdownText(h, id, lines.value)))
  }
}
