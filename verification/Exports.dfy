/** Export bytes do not depend on database row ids, nor on the order that row ids put rows in. */
module Exports {
  import opened Common
  import opened ExportModel

  // ---------------------------------------------------------------- the claim loop as it runs

  /** The loop of approval_outbox_intent that fills claims_by_local_id. */
  method BindClaims(h: Hashes, sources: seq<Source>, manifest: seq<Claim>) returns (r: Option<seq<Claim>>)
    ensures r == Bind(h, sources, manifest)
  {
    var claims: seq<Claim> := [];
    for i := 0 to |manifest|
      invariant Bind(h, sources, manifest[..i]) == Some(claims)
    {
      var c := manifest[i];
      assert manifest[..i + 1][..i] == manifest[..i];
      if !Bound(h, sources, c) || ClaimFor(claims, c.sourceVersion).Some? {
        BindStops(h, sources, manifest, i + 1);
        return None;
      }
      claims := claims + [c];
    }
    assert manifest[..|manifest|] == manifest;
    return Some(claims);
  }

  /** A refused prefix refuses the manifest. */
  lemma {:induction false} BindStops(h: Hashes, sources: seq<Source>, manifest: seq<Claim>, n: nat)
    requires n <= |manifest| && Bind(h, sources, manifest[..n]).None?
    ensures Bind(h, sources, manifest).None?
    decreases |manifest| - n
  {
    if n == |manifest| {
      assert manifest[..n] == manifest;
    } else {
      assert manifest[..n + 1][..n] == manifest[..n];
      BindStops(h, sources, manifest, n + 1);
    }
  }

  // ---------------------------------------------------------------- the Markdown loop as it runs

  /** canonical_markdown_bytes: the list is extended page by page, then joined; None is a missing key or page. */
  method CanonicalMarkdown(h: Hashes, pages: seq<Page>, caption: Caption, warnings: seq<nat>) returns (r: Option<string>)
    ensures var lines := MarkdownLines(h, pages, caption, warnings);
            if lines.None? then r.None? else r == Some(Joined(lines.value))
  {
    if pages == [] || pages[0].title.None? { return None; }
    var lines := ["# " + (h.text)(pages[0].title.value)];
    if pages[0].subtitle.Some? && (h.text)(pages[0].subtitle.value) != "" {
      lines := lines + ["", (h.text)(pages[0].subtitle.value)];
    }
    ghost var heading := lines;
    assert Heading(h, pages[0]).value == heading;
    for index := 1 to |pages|
      invariant Sections(h, pages, 1).None? <==> Sections(h, pages, index).None?
      invariant Sections(h, pages, index).Some? ==> heading + Sections(h, pages, 1).value == lines + Sections(h, pages, index).value
    {
      var p := pages[index];
      if p.subtitle.None? || p.body.None? {
        assert Sections(h, pages, index).None?;
        return None;
      }
      lines := lines + SectionLines(h, index + 1, p.subtitle.value, p.body.value);
    }
    assert lines == heading + Sections(h, pages, 1).value;
    if caption.text.None? { return None; }
    lines := lines + CaptionLines(h, caption.text.value);
    var more := MarkdownWarnings(h, warnings);
    var text := JoinLines(lines + more);
    return Some(text);
  }

  method MarkdownWarnings(h: Hashes, warnings: seq<nat>) returns (lines: seq<string>)
    ensures lines == WarningLines(h, warnings)
  {
    if warnings == [] { return []; }
    lines := ["", "## Warnings"];
    for i := 0 to |warnings|
      invariant |lines| == 2 + i && lines[..2] == ["", "## Warnings"]
      invariant forall k | 0 <= k < i :: lines[2 + k] == WarningLine(h, warnings[k])
    {
      lines := lines + [WarningLine(h, warnings[i])];
    }
    ghost var all := WarningLines(h, warnings);
    assert all[..2] == ["", "## Warnings"];
    forall k | 0 <= k < |all| ensures lines[k] == all[k] {
      if k >= 2 { assert all[k] == WarningLine(h, warnings[k - 2]); } else { assert lines[..2][k] == all[..2][k]; }
    }
  }

  method JoinLines(lines: seq<string>) returns (text: string)
    ensures text == Joined(lines)
  {
    text := "";
    for i := 0 to |lines|
      invariant text + Joined(lines[i..]) == Joined(lines)
    {
      assert lines[i..][1..] == lines[i + 1..];
      text := text + lines[i] + "\n";
    }
  }

  // ---------------------------------------------------------------- renaming

  ghost predicate Injective(r: nat -> nat) { forall a, b :: r(a) == r(b) ==> a == b }

  function RenameSource(r: nat -> nat, s: Source): Source { s.(id := r(s.id)) }

  function RenameClaim(r: nat -> nat, c: Claim): Claim { c.(sourceVersion := r(c.sourceVersion)) }

  function RenameRef(r: nat -> nat, x: Reference): Reference { x.(sourceVersion := r(x.sourceVersion)) }

  function RenameUnit(r: nat -> nat, u: FactualUnit): FactualUnit { u.(references := Map(x => RenameRef(r, x), u.references)) }

  function RenameBody(r: nat -> nat, b: Body): Body { b.(units := Map(u => RenameUnit(r, u), b.units)) }

  function RenamePage(r: nat -> nat, p: RawPage): RawPage { p.(units := Map(u => RenameUnit(r, u), p.units)) }

  function RenameLayout(r: nat -> nat, l: Layout): Layout {
    match l
    case CoverAndBodies(title, subtitle, units, bodies) =>
      CoverAndBodies(title, subtitle, Map(u => RenameUnit(r, u), units), Map(b => RenameBody(r, b), bodies))
    case OlderPages(pages) => OlderPages(Map(p => RenamePage(r, p), pages))
  }

  function RenameSources(r: nat -> nat, s: seq<Source>): seq<Source> { Map(x => RenameSource(r, x), s) }

  function RenameClaims(r: nat -> nat, s: seq<Claim>): seq<Claim> { Map(x => RenameClaim(r, x), s) }

  function RenameContent(r: nat -> nat, c: Content): Content {
    c.(manifest := RenameClaims(r, c.manifest), layout := RenameLayout(r, c.layout))
  }

  lemma {:induction false} MapAppend<T, U>(f: T -> U, a: seq<T>, b: seq<T>)
    ensures Map(f, a + b) == Map(f, a) + Map(f, b)
  {
  }

  lemma {:induction false} LookupRenamed(r: nat -> nat, s: seq<Source>, id: nat)
    requires Injective(r)
    ensures Lookup(RenameSources(r, s), r(id)) == (if Lookup(s, id).None? then None else Some(RenameSource(r, Lookup(s, id).value)))
  {
    if s != [] {
      assert RenameSources(r, s)[1..] == RenameSources(r, s[1..]);
      LookupRenamed(r, s[1..], id);
    }
  }

  lemma {:induction false} ClaimRenamed(r: nat -> nat, s: seq<Claim>, id: nat)
    requires Injective(r)
    ensures ClaimFor(RenameClaims(r, s), r(id)) == (if ClaimFor(s, id).None? then None else Some(RenameClaim(r, ClaimFor(s, id).value)))
  {
    if s != [] {
      assert RenameClaims(r, s)[1..] == RenameClaims(r, s[1..]);
      ClaimRenamed(r, s[1..], id);
    }
  }

  lemma {:induction false} PutRenamed(r: nat -> nat, s: seq<Source>, x: Source)
    requires Injective(r)
    ensures Put(RenameSources(r, s), RenameSource(r, x)) == RenameSources(r, Put(s, x))
  {
    if s != [] {
      assert RenameSources(r, s)[1..] == RenameSources(r, s[1..]);
      if s[0].id != x.id { PutRenamed(r, s[1..], x); }
    }
  }

  lemma {:induction false} ByIdRenamed(r: nat -> nat, s: seq<Source>)
    requires Injective(r)
    ensures ById(RenameSources(r, s)) == RenameSources(r, ById(s))
  {
    if s != [] {
      var front, last := s[..|s| - 1], s[|s| - 1];
      assert RenameSources(r, s)[..|s| - 1] == RenameSources(r, front);
      ByIdRenamed(r, front);
      PutRenamed(r, ById(front), last);
    }
  }

  lemma BoundRenamed(h: Hashes, r: nat -> nat, s: seq<Source>, c: Claim)
    requires Injective(r)
    ensures Bound(h, RenameSources(r, s), RenameClaim(r, c)) == Bound(h, s, c)
  {
    LookupRenamed(r, s, c.sourceVersion);
  }

  lemma FrontRenamed(r: nat -> nat, m: seq<Claim>)
    requires m != []
    ensures |RenameClaims(r, m)| == |m| && RenameClaims(r, m)[|m| - 1] == RenameClaim(r, m[|m| - 1])
    ensures RenameClaims(r, m)[..|m| - 1] == RenameClaims(r, m[..|m| - 1])
  {
  }

  lemma {:induction false} BindRenamed(h: Hashes, r: nat -> nat, s: seq<Source>, m: seq<Claim>)
    requires Injective(r)
    ensures Bind(h, RenameSources(r, s), RenameClaims(r, m))
            == (if Bind(h, s, m).None? then None else Some(RenameClaims(r, Bind(h, s, m).value)))
  {
    if m != [] {
      var front, c := m[..|m| - 1], m[|m| - 1];
      FrontRenamed(r, m);
      BindRenamed(h, r, s, front);
      BoundRenamed(h, r, s, c);
      if Bind(h, s, front).Some? {
        ClaimRenamed(r, Bind(h, s, front).value, c.sourceVersion);
        AppendRenamed(r, Bind(h, s, front).value, c);
      }
    }
  }

  lemma AppendRenamed(r: nat -> nat, a: seq<Claim>, c: Claim)
    ensures RenameClaims(r, a + [c]) == RenameClaims(r, a) + [RenameClaim(r, c)]
  {
    MapAppend(x => RenameClaim(r, x), a, [c]);
    assert RenameClaims(r, [c]) == [RenameClaim(r, c)];
  }

  lemma {:induction false} ProvenancesRenamed(h: Hashes, r: nat -> nat, s: seq<Source>, claims: seq<Claim>)
    requires Injective(r)
    ensures Provenances(h, RenameSources(r, s), RenameClaims(r, claims)) == Provenances(h, s, claims)
  {
    if s != [] {
      assert RenameSources(r, s)[1..] == RenameSources(r, s[1..]);
      ClaimRenamed(r, claims, s[0].id);
      ProvenancesRenamed(h, r, s[1..], claims);
    }
  }

  lemma ResolveRenamed(h: Hashes, r: nat -> nat, s: seq<Source>, claims: seq<Claim>, x: Reference)
    requires Injective(r)
    ensures Resolve(h, RenameSources(r, s), RenameClaims(r, claims), RenameRef(r, x)) == Resolve(h, s, claims, x)
  {
    LookupRenamed(r, s, x.sourceVersion);
    ClaimRenamed(r, claims, x.sourceVersion);
  }

  /** Two functions that agree through a renaming give the same sequence. */
  lemma {:induction false} SequenceRenamed<T, U>(f: T -> Option<U>, g: T -> Option<U>, rename: T -> T, s: seq<T>)
    requires forall x | x in s :: g(rename(x)) == f(x)
    ensures Sequence(g, Map(rename, s)) == Sequence(f, s)
  {
    if s != [] {
      assert Map(rename, s)[1..] == Map(rename, s[1..]);
      assert s[0] in s;
      SequenceRenamed(f, g, rename, s[1..]);
    }
  }

  lemma UnitRenamed(f: Reference -> Option<PortableReference>, g: Reference -> Option<PortableReference>, r: nat -> nat, u: FactualUnit)
    requires forall x :: g(RenameRef(r, x)) == f(x)
    ensures ResolveUnit(g, RenameUnit(r, u)) == ResolveUnit(f, u)
  {
    SequenceRenamed(f, g, x => RenameRef(r, x), u.references);
  }

  lemma UnitsRenamed(f: Reference -> Option<PortableReference>, g: Reference -> Option<PortableReference>, r: nat -> nat, us: seq<FactualUnit>)
    requires forall x :: g(RenameRef(r, x)) == f(x)
    ensures Sequence(u => ResolveUnit(g, u), Map(u => RenameUnit(r, u), us)) == Sequence(u => ResolveUnit(f, u), us)
  {
    forall u | u in us ensures ResolveUnit(g, RenameUnit(r, u)) == ResolveUnit(f, u) { UnitRenamed(f, g, r, u); }
    SequenceRenamed(u => ResolveUnit(f, u), u => ResolveUnit(g, u), u => RenameUnit(r, u), us);
  }

  /** Renaming commutes with laying the pages out. */
  lemma RawPagesRenamed(r: nat -> nat, l: Layout)
    ensures RawPages(RenameLayout(r, l)) == Map(p => RenamePage(r, p), RawPages(l))
  {
    var a, b := RawPages(RenameLayout(r, l)), Map(p => RenamePage(r, p), RawPages(l));
    forall i | 0 <= i < |a| ensures a[i] == b[i] {}
  }

  lemma PagesRenamed(f: Reference -> Option<PortableReference>, g: Reference -> Option<PortableReference>, r: nat -> nat, l: Layout)
    requires forall x :: g(RenameRef(r, x)) == f(x)
    ensures Pages(g, RenameLayout(r, l)) == Pages(f, l)
  {
    RawPagesRenamed(r, l);
    forall p: RawPage ensures ResolvePage(g, RenamePage(r, p)) == ResolvePage(f, p) { UnitsRenamed(f, g, r, p.units); }
    SequenceRenamed(p => ResolvePage(f, p), p => ResolvePage(g, p), p => RenamePage(r, p), RawPages(l));
  }

  lemma SameIdsRenamed(r: nat -> nat, claims: seq<Claim>, ids: seq<nat>)
    requires Injective(r)
    ensures SameIds(RenameClaims(r, claims), Map(r, ids)) == SameIds(claims, ids)
  {
    var rc, ri := RenameClaims(r, claims), Map(r, ids);
    forall id | id in ids ensures ClaimFor(rc, r(id)).Some? == ClaimFor(claims, id).Some? { ClaimRenamed(r, claims, id); }
    forall id | id in ri ensures exists k :: k in ids && r(k) == id {
      var i :| 0 <= i < |ri| && ri[i] == id;
      assert ids[i] in ids;
    }
    forall id | id in ids ensures r(id) in ri {
      var i :| 0 <= i < |ids| && ids[i] == id;
      assert ri[i] == r(id);
    }
    forall c | c in claims ensures RenameClaim(r, c) in rc {
      var i :| 0 <= i < |claims| && claims[i] == c;
      assert rc[i] == RenameClaim(r, c);
    }
    forall c | c in rc ensures exists d :: d in claims && RenameClaim(r, d) == c {
      var i :| 0 <= i < |rc| && rc[i] == c;
      assert claims[i] in claims;
    }
  }

  lemma GatherRenamed(h: Hashes, r: nat -> nat, ids: seq<nat>, known: seq<Source>, manifest: seq<Claim>, layout: Layout)
    requires Injective(r)
    ensures Gather(h, Map(r, ids), RenameSources(r, known), RenameClaims(r, manifest), RenameLayout(r, layout))
            == Gather(h, ids, known, manifest, layout)
  {
    BindRenamed(h, r, known, manifest);
    var claims := Bind(h, known, manifest);
    if claims.Some? {
      SameIdsRenamed(r, claims.value, ids);
      ProvenancesRenamed(h, r, known, claims.value);
      forall x ensures Resolve(h, RenameSources(r, known), RenameClaims(r, claims.value), RenameRef(r, x)) == Resolve(h, known, claims.value, x) {
        ResolveRenamed(h, r, known, claims.value, x);
      }
      PagesRenamed(x => Resolve(h, known, claims.value, x),
                   x => Resolve(h, RenameSources(r, known), RenameClaims(r, claims.value), x), r, layout);
      assert Texts(RenameClaims(r, claims.value)) == Texts(claims.value);
    }
  }

  lemma PayloadIgnoresRowIds(h: Hashes, r: nat -> nat, ids: RowIds, other: RowIds, sources: seq<Source>, c: Content,
                             warnings: seq<nat>, revision: nat, approval: nat)
    requires Injective(r) && other.sourceVersions == Map(r, ids.sourceVersions)
    ensures Payload(h, other, RenameSources(r, sources), RenameContent(r, c), warnings, revision, approval)
            == Payload(h, ids, sources, c, warnings, revision, approval)
  {
    ByIdRenamed(r, sources);
    GatherRenamed(h, r, ids.sourceVersions, ById(sources), c.manifest, c.layout);
  }

  /**
    Renaming source version ids injectively, across sources, manifest, references and the given ids, and changing
    candidate, generation and event ids at will, gives the same export id, the same payload and the same Markdown.
   */
  lemma ExportIgnoresRowIds(h: Hashes, r: nat -> nat, ids: RowIds, other: RowIds, sources: seq<Source>, c: Content,
                            warnings: seq<nat>, revision: nat, approval: nat)
    requires Injective(r) && other.sourceVersions == Map(r, ids.sourceVersions)
    ensures Intent(h, other, RenameSources(r, sources), RenameContent(r, c), warnings, revision, approval)
            == Intent(h, ids, sources, c, warnings, revision, approval)
  {
    PayloadIgnoresRowIds(h, r, ids, other, sources, c, warnings, revision, approval);
  }
}
