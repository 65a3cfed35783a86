/** When an approval can be exported, and what then stands where in its payload and in its Markdown. */
module ExportMeaning {
  import opened Common
  import opened ExportModel
  import opened ExportOrder

  // ---------------------------------------------------------------- rows and entries

  /** The last row of its id: it counts, whatever rows of that id came before. */
  ghost predicate Latest(rows: seq<Source>, s: Source) {
    exists i :: 0 <= i < |rows| && rows[i] == s && forall j | i < j < |rows| :: rows[j].id != s.id
  }

  lemma {:induction false} PutReplaces(known: seq<Source>, s: Source)
    requires DistinctIds(known)
    ensures DistinctIds(Put(known, s))
    ensures forall x :: x in Put(known, s) <==> x == s || (x in known && x.id != s.id)
  {
    if known != [] {
      var rest := known[1..];
      assert known == [known[0]] + rest;
      forall x | x in rest ensures x.id != known[0].id {
        var k :| 0 <= k < |rest| && rest[k] == x;
        assert known[k + 1].id != known[0].id;
      }
      if known[0].id != s.id {
        PutReplaces(rest, s);
        DistinctBefore(known[0], Put(rest, s));
      } else {
        DistinctBefore(s, rest);
      }
    }
  }

  lemma DistinctBefore(x: Source, s: seq<Source>)
    requires DistinctIds(s) && forall y | y in s :: y.id != x.id
    ensures DistinctIds([x] + s)
  {
  }

  /** The dictionary of the rows holds exactly the last row of each id. */
  lemma {:induction false} ByIdIsLatest(rows: seq<Source>)
    ensures DistinctIds(ById(rows)) && forall s :: s in ById(rows) <==> Latest(rows, s)
  {
    if rows != [] {
      var front, last := rows[..|rows| - 1], rows[|rows| - 1];
      ByIdIsLatest(front);
      PutReplaces(ById(front), last);
      forall s ensures s in ById(rows) <==> Latest(rows, s) {
        assert rows == front + [last];
        LatestOfMore(front, last, s);
      }
    }
  }

  lemma LatestOfMore(front: seq<Source>, last: Source, s: Source)
    ensures Latest(front + [last], s) <==> s == last || (Latest(front, s) && s.id != last.id)
  {
    var rows := front + [last];
    if Latest(rows, s) && s != last {
      var i :| 0 <= i < |rows| && rows[i] == s && forall j | i < j < |rows| :: rows[j].id != s.id;
      assert i < |front| && rows[|front|].id != s.id;
      assert front[i] == s && forall j | i < j < |front| :: front[j].id == rows[j].id != s.id;
    }
    if s == last { assert rows[|front|] == s; }
    if Latest(front, s) && s.id != last.id {
      var i :| 0 <= i < |front| && front[i] == s && forall j | i < j < |front| :: front[j].id != s.id;
      assert rows[i] == s && forall j | i < j < |rows| :: rows[j].id != s.id;
    }
  }

  // ---------------------------------------------------------------- what is accepted

  /** The entry is in order, and states the identities of the source row that it names. */
  ghost predicate Stands(h: Hashes, rows: seq<Source>, e: Claim) {
    && e.wellShaped && e.versionOk
    && exists s :: Latest(rows, s) && s.id == e.sourceVersion
                   && e.text.sourceIdentity == (h.source)(s.record.channel, s.record.post)
                   && e.text.materialIdentity == (h.material)(e.text.sourceIdentity, s.record.material)
  }

  /** The reference names an entry and its claim. */
  ghost predicate Known(manifest: seq<Claim>, r: Reference) {
    exists e :: e in manifest && e.sourceVersion == r.sourceVersion && e.text.claimId == r.claimId
  }

  ghost predicate UnitsKnown(manifest: seq<Claim>, us: seq<FactualUnit>) {
    forall i | 0 <= i < |us| :: forall j | 0 <= j < |us[i].references| :: Known(manifest, us[i].references[j])
  }

  ghost predicate LayoutKnown(manifest: seq<Claim>, l: Layout) {
    match l
    case CoverAndBodies(_, _, units, bodies) =>
      UnitsKnown(manifest, units) && forall i | 0 <= i < |bodies| :: UnitsKnown(manifest, bodies[i].units)
    case OlderPages(pages) => forall i | 0 <= i < |pages| :: UnitsKnown(manifest, pages[i].units)
  }

  /** Every entry stands, entries, rows and given ids are the same source versions, and every reference is known. */
  ghost predicate Acceptable(h: Hashes, ids: seq<nat>, rows: seq<Source>, c: Content) {
    && c.manifest != [] && DistinctVersions(c.manifest) && (forall e | e in c.manifest :: Stands(h, rows, e))
    && (forall e | e in c.manifest :: e.sourceVersion in ids)
    && (forall id | id in ids :: exists e :: e in c.manifest && e.sourceVersion == id)
    && (forall s | Latest(rows, s) :: exists e :: e in c.manifest && e.sourceVersion == s.id)
    && LayoutKnown(c.manifest, c.layout) && c.category != Unknown
  }

  // ---------------------------------------------------------------- what stands where

  /** What the export says of a source: what its row and its claim say, and the hashes of those. */
  ghost predicate SaysSource(h: Hashes, p: Provenance, s: Source, e: Claim) {
    var r, m := s.record, s.record.material;
    && p.version == (h.version)(r) && p.source == (h.source)(r.channel, r.post)
    && p.material == (h.material)((h.source)(r.channel, r.post), m)
    && p.url == r.url && p.channel == r.channel && p.post == r.post
    && p.versionKey == m.versionKey && p.urls == m.urls && p.conflicts == m.conflicts && p.body == m.body
    && p.observation == e.text.observationIdentity && p.claimId == e.text.claimId && p.capturedAt == e.text.capturedAt
    && p.evidence == e.text.evidence && p.spans == e.text.spans && p.uncertainty == e.text.uncertainty
  }

  /** A reference by content: the claim, and the identities of the source and of its observation. */
  ghost predicate SaysReference(h: Hashes, rows: seq<Source>, manifest: seq<Claim>, r: Reference, q: PortableReference) {
    exists s, e :: Latest(rows, s) && e in manifest && s.id == r.sourceVersion && e.sourceVersion == r.sourceVersion
                   && q.claimId == r.claimId && q.claimId == e.text.claimId && q.version == (h.version)(s.record)
                   && q.source == (h.source)(s.record.channel, s.record.post)
                   && q.material == (h.material)((h.source)(s.record.channel, s.record.post), s.record.material)
                   && q.observation == e.text.observationIdentity
  }

  ghost predicate SaysUnit(h: Hashes, rows: seq<Source>, manifest: seq<Claim>, u: FactualUnit, v: PortableUnit) {
    && v.text == u.text && |v.references| == |u.references|
    && forall j | 0 <= j < |u.references| :: SaysReference(h, rows, manifest, u.references[j], v.references[j])
  }

  ghost predicate SaysUnits(h: Hashes, rows: seq<Source>, manifest: seq<Claim>, us: seq<FactualUnit>, vs: seq<PortableUnit>) {
    |vs| == |us| && forall i | 0 <= i < |us| :: SaysUnit(h, rows, manifest, us[i], vs[i])
  }

  /** The cover first, then the bodies; or the pages as they came. */
  ghost predicate SaysPages(h: Hashes, rows: seq<Source>, manifest: seq<Claim>, l: Layout, ps: seq<Page>) {
    match l
    case CoverAndBodies(title, subtitle, units, bodies) =>
      && |ps| == 1 + |bodies|
      && ps[0] == Page(Some(title), Some(subtitle), None, 0, ps[0].units) && SaysUnits(h, rows, manifest, units, ps[0].units)
      && forall i | 0 <= i < |bodies| ::
           && ps[i + 1] == Page(None, Some(bodies[i].subtitle), Some(bodies[i].body), 0, ps[i + 1].units)
           && SaysUnits(h, rows, manifest, bodies[i].units, ps[i + 1].units)
    case OlderPages(pages) =>
      && |ps| == |pages|
      && forall i | 0 <= i < |pages| ::
           && ps[i] == Page(pages[i].title, pages[i].subtitle, pages[i].body, pages[i].others, ps[i].units)
           && SaysUnits(h, rows, manifest, pages[i].units, ps[i].units)
  }

  /** One provenance for each entry, ordered by version identity. */
  ghost predicate SaysSources(h: Hashes, rows: seq<Source>, manifest: seq<Claim>, ps: seq<Provenance>) {
    && Ordered((p: Provenance) => p.version, ps) && |ps| == |manifest|
    && (forall p | p in ps :: exists s, e :: Latest(rows, s) && e in manifest && s.id == e.sourceVersion && SaysSource(h, p, s, e))
    && (forall e | e in manifest :: exists s, p :: Latest(rows, s) && p in ps && s.id == e.sourceVersion && SaysSource(h, p, s, e))
  }

  /** Sources, claims, pages, caption, category and warnings, and the identities of content, generation and decision. */
  ghost predicate SaysAll(h: Hashes, rows: seq<Source>, c: Content, warnings: seq<nat>, revision: nat, approval: nat, p: Semantic) {
    && SaysSources(h, rows, c.manifest, p.sources)
    && Ordered((x: PortableClaim) => x.claimId, p.claims)
    && multiset(p.claims) == multiset(seq(|c.manifest|, i requires 0 <= i < |c.manifest| => c.manifest[i].text))
    && SaysPages(h, rows, c.manifest, c.layout, p.pages)
    && p.caption == c.caption && p.category == c.category
    && Ordered((w: nat) => w, p.warnings) && multiset(p.warnings) == multiset(warnings)
    && var content := PortableContent(c.category, p.pages, c.caption, c.draft, c.sourceReported);
    && p.contentIdentity == (h.content)(content) && p.generationIdentity == (h.generation)(content, revision)
    && p.decisionIdentity
       == (h.decision)(p.generationIdentity, VersionIdentities(p.sources), approval)
  }

  /** The version identities, in the order of the provenances. */
  ghost function VersionIdentities(ps: seq<Provenance>): seq<nat> {
    if ps == [] then [] else [ps[0].version] + VersionIdentities(ps[1..])
  }

  lemma {:induction false} VersionsAre(ps: seq<Provenance>)
    ensures Versions(ps) == VersionIdentities(ps)
  {
    if ps != [] {
      VersionsAre(ps[1..]);
      assert Versions(ps) == [ps[0].version] + Versions(ps[1..]);
    }
  }

  // ---------------------------------------------------------------- references and pages

  /** A sequence is mapped if and only if each element is, and then element by element. */
  lemma {:induction false} SequenceIs<T, U>(f: T -> Option<U>, s: seq<T>)
    ensures Sequence(f, s).Some? <==> forall i | 0 <= i < |s| :: f(s[i]).Some?
    ensures Sequence(f, s).Some? ==> |Sequence(f, s).value| == |s|
    ensures Sequence(f, s).Some? ==> forall i | 0 <= i < |s| :: f(s[i]) == Some(Sequence(f, s).value[i])
  {
    if s != [] {
      SequenceIs(f, s[1..]);
      if forall i | 0 <= i < |s| :: f(s[i]).Some? {
        forall i | 0 <= i < |s[1..]| ensures f(s[1..][i]).Some? { assert f(s[i + 1]).Some?; }
      }
      if Sequence(f, s).Some? {
        forall i | 0 <= i < |s| ensures f(s[i]) == Some(Sequence(f, s).value[i]) {
          if i > 0 { assert s[i] == s[1..][i - 1]; }
        }
      }
    }
  }

  /** The rows, their dictionary, and entries that name rows only. */
  ghost predicate Setting(h: Hashes, rows: seq<Source>, known: seq<Source>, manifest: seq<Claim>) {
    && DistinctIds(known) && (forall s :: s in known <==> Latest(rows, s)) && DistinctVersions(manifest)
    && forall e | e in manifest :: Lookup(known, e.sourceVersion).Some?
  }

  lemma ReferenceMeans(h: Hashes, rows: seq<Source>, known: seq<Source>, manifest: seq<Claim>, r: Reference)
    requires Setting(h, rows, known, manifest)
    ensures Resolve(h, known, manifest, r).Some? <==> Known(manifest, r)
    ensures Resolve(h, known, manifest, r).Some? ==> SaysReference(h, rows, manifest, r, Resolve(h, known, manifest, r).value)
  {
    LookupFinds(known, r.sourceVersion);
    ClaimFinds(manifest, r.sourceVersion);
    if Resolve(h, known, manifest, r).Some? {
      var s, e := Lookup(known, r.sourceVersion).value, ClaimFor(manifest, r.sourceVersion).value;
      assert Latest(rows, s) && e in manifest && s.id == r.sourceVersion && e.sourceVersion == r.sourceVersion;
    }
  }

  lemma UnitMeans(h: Hashes, rows: seq<Source>, known: seq<Source>, manifest: seq<Claim>, u: FactualUnit)
    requires Setting(h, rows, known, manifest)
    ensures var v := ResolveUnit(r => Resolve(h, known, manifest, r), u);
            && (v.Some? <==> forall j | 0 <= j < |u.references| :: Known(manifest, u.references[j]))
            && (v.Some? ==> SaysUnit(h, rows, manifest, u, v.value))
  {
    forall r ensures Resolve(h, known, manifest, r).Some? <==> Known(manifest, r)
             ensures Resolve(h, known, manifest, r).Some? ==> SaysReference(h, rows, manifest, r, Resolve(h, known, manifest, r).value) {
      ReferenceMeans(h, rows, known, manifest, r);
    }
    SequenceIs(r => Resolve(h, known, manifest, r), u.references);
  }

  lemma PageMeans(h: Hashes, rows: seq<Source>, known: seq<Source>, manifest: seq<Claim>, p: RawPage)
    requires Setting(h, rows, known, manifest)
    ensures var q := ResolvePage(r => Resolve(h, known, manifest, r), p);
            && (q.Some? <==> UnitsKnown(manifest, p.units))
            && (q.Some? ==> q.value == Page(p.title, p.subtitle, p.body, p.others, q.value.units)
                            && SaysUnits(h, rows, manifest, p.units, q.value.units))
  {
    var resolve := r => Resolve(h, known, manifest, r);
    forall u: FactualUnit
      ensures ResolveUnit(resolve, u).Some? <==> forall j | 0 <= j < |u.references| :: Known(manifest, u.references[j])
      ensures ResolveUnit(resolve, u).Some? ==> SaysUnit(h, rows, manifest, u, ResolveUnit(resolve, u).value)
    {
      UnitMeans(h, rows, known, manifest, u);
    }
    SequenceIs(u => ResolveUnit(resolve, u), p.units);
  }

  lemma PagesMean(h: Hashes, rows: seq<Source>, known: seq<Source>, manifest: seq<Claim>, l: Layout)
    requires Setting(h, rows, known, manifest)
    ensures var ps := ResolvedPages(h, known, manifest, l);
            && (ps.Some? <==> LayoutKnown(manifest, l))
            && (ps.Some? ==> SaysPages(h, rows, manifest, l, ps.value))
  {
    var resolve := r => Resolve(h, known, manifest, r);
    var raw := RawPages(l);
    forall p: RawPage
      ensures ResolvePage(resolve, p).Some? <==> UnitsKnown(manifest, p.units)
      ensures ResolvePage(resolve, p).Some? ==>
                && ResolvePage(resolve, p).value == Page(p.title, p.subtitle, p.body, p.others, ResolvePage(resolve, p).value.units)
                && SaysUnits(h, rows, manifest, p.units, ResolvePage(resolve, p).value.units)
    {
      PageMeans(h, rows, known, manifest, p);
    }
    SequenceIs(p => ResolvePage(resolve, p), raw);
    match l
    case CoverAndBodies(title, subtitle, units, bodies) =>
      assert |raw| == 1 + |bodies| && raw[0].units == units;
      forall i | 0 <= i < |bodies| ensures raw[i + 1] == RawPage(None, Some(bodies[i].subtitle), Some(bodies[i].body), 0, bodies[i].units) {}
      if LayoutKnown(manifest, l) {
        forall i | 0 <= i < |raw| ensures UnitsKnown(manifest, raw[i].units) { if i > 0 { assert raw[i].units == bodies[i - 1].units; } }
      }
      if forall i | 0 <= i < |raw| :: UnitsKnown(manifest, raw[i].units) {
        forall i | 0 <= i < |bodies| ensures UnitsKnown(manifest, bodies[i].units) { assert UnitsKnown(manifest, raw[i + 1].units); }
      }
    case OlderPages(pages) =>
  }

  // ---------------------------------------------------------------- sources

  /** The provenances are the sources, one by one, each with its entry. */
  lemma {:induction false} ProvenancesMean(h: Hashes, s: seq<Source>, manifest: seq<Claim>)
    ensures Provenances(h, s, manifest).Some? <==> forall x | x in s :: ClaimFor(manifest, x.id).Some?
    ensures Provenances(h, s, manifest).Some? ==>
              var ps := Provenances(h, s, manifest).value;
              |ps| == |s| && forall i | 0 <= i < |s| ::
                ClaimFor(manifest, s[i].id).Some? && SaysSource(h, ps[i], s[i], ClaimFor(manifest, s[i].id).value)
  {
    if s != [] {
      assert s[0] in s;
      ProvenancesMean(h, s[1..], manifest);
      assert s == [s[0]] + s[1..];
    }
  }

  ghost function Images<T(!new)>(f: T -> nat, s: seq<T>): set<nat> { set x | x in s :: f(x) }

  lemma {:induction false} DistinctImages<T(!new)>(f: T -> nat, s: seq<T>)
    requires forall i, j | 0 <= i < j < |s| :: f(s[i]) != f(s[j])
    ensures |Images(f, s)| == |s|
  {
    if s != [] {
      var front, last := s[..|s| - 1], s[|s| - 1];
      DistinctImages(f, front);
      assert s == front + [last];
      assert Images(f, s) == Images(f, front) + {f(last)};
      assert f(last) !in Images(f, front);
    }
  }

  /** Rows and entries of the same ids, each id once, are equally many. */
  lemma SameNumber(known: seq<Source>, manifest: seq<Claim>)
    requires DistinctIds(known) && DistinctVersions(manifest)
    requires forall e | e in manifest :: exists s :: s in known && s.id == e.sourceVersion
    requires forall s | s in known :: exists e :: e in manifest && e.sourceVersion == s.id
    ensures |known| == |manifest|
  {
    var f, g := (s: Source) => s.id, (e: Claim) => e.sourceVersion;
    DistinctImages(f, known);
    DistinctImages(g, manifest);
    assert Images(f, known) == Images(g, manifest);
  }

  /** Each provenance is that of a row and of its entry. */
  lemma EachIsOfSome(h: Hashes, rows: seq<Source>, known: seq<Source>, manifest: seq<Claim>, p: Provenance)
    requires Setting(h, rows, known, manifest) && Provenances(h, known, manifest).Some? && p in Provenances(h, known, manifest).value
    ensures exists s, e :: Latest(rows, s) && e in manifest && s.id == e.sourceVersion && SaysSource(h, p, s, e)
  {
    var ps := Provenances(h, known, manifest).value;
    ProvenancesMean(h, known, manifest);
    var i :| 0 <= i < |ps| && ps[i] == p;
    ClaimFinds(manifest, known[i].id);
    assert known[i] in known && SaysSource(h, p, known[i], ClaimFor(manifest, known[i].id).value);
  }

  /** And each entry has its own. */
  lemma EachHasSome(h: Hashes, rows: seq<Source>, known: seq<Source>, manifest: seq<Claim>, e: Claim)
    requires Setting(h, rows, known, manifest) && Provenances(h, known, manifest).Some? && e in manifest
    ensures exists s, p :: Latest(rows, s) && p in Provenances(h, known, manifest).value && s.id == e.sourceVersion && SaysSource(h, p, s, e)
  {
    ProvenancesMean(h, known, manifest);
    LookupFinds(known, e.sourceVersion);
    var s := Lookup(known, e.sourceVersion).value;
    var i :| 0 <= i < |known| && known[i] == s;
    ClaimFinds(manifest, s.id);
    var p := Provenances(h, known, manifest).value[i];
    assert p in Provenances(h, known, manifest).value && SaysSource(h, p, s, e);
  }

  lemma AsManyAsEntries(h: Hashes, rows: seq<Source>, known: seq<Source>, manifest: seq<Claim>)
    requires Setting(h, rows, known, manifest) && Provenances(h, known, manifest).Some?
    ensures |Provenances(h, known, manifest).value| == |manifest|
  {
    ProvenancesMean(h, known, manifest);
    forall e | e in manifest ensures exists s :: s in known && s.id == e.sourceVersion { LookupFinds(known, e.sourceVersion); }
    forall s | s in known ensures exists e :: e in manifest && e.sourceVersion == s.id { ClaimFinds(manifest, s.id); }
    SameNumber(known, manifest);
  }

  lemma SourcesMean(h: Hashes, rows: seq<Source>, known: seq<Source>, manifest: seq<Claim>, ps: seq<Provenance>, sorted: seq<Provenance>)
    requires Setting(h, rows, known, manifest) && Provenances(h, known, manifest) == Some(ps)
    requires sorted == SortBy((p: Provenance) => p.version, ps)
    ensures SaysSources(h, rows, manifest, sorted)
  {
    SortOrders((p: Provenance) => p.version, ps);
    SameMembersOf(sorted, ps);
    AsManyAsEntries(h, rows, known, manifest);
    assert |sorted| == |multiset(sorted)| == |multiset(ps)| == |ps|;
    forall p | p in sorted ensures exists s, e :: Latest(rows, s) && e in manifest && s.id == e.sourceVersion && SaysSource(h, p, s, e) {
      EachIsOfSome(h, rows, known, manifest, p);
    }
    forall e | e in manifest ensures exists s, p :: Latest(rows, s) && p in sorted && s.id == e.sourceVersion && SaysSource(h, p, s, e) {
      EachHasSome(h, rows, known, manifest, e);
    }
  }

  lemma SameMembersOf<T>(a: seq<T>, b: seq<T>)
    requires multiset(a) == multiset(b)
    ensures forall x :: x in a <==> x in b
  {
    forall x ensures x in a <==> x in b { assert x in a <==> x in multiset(a); assert x in b <==> x in multiset(b); }
  }

  // ---------------------------------------------------------------- the payload

  lemma EntriesStand(h: Hashes, rows: seq<Source>, known: seq<Source>, e: Claim)
    requires DistinctIds(known) && forall s :: s in known <==> Latest(rows, s)
    ensures Bound(h, known, e) <==> Stands(h, rows, e)
  {
    LookupFinds(known, e.sourceVersion);
  }

  lemma IdsAgree(manifest: seq<Claim>, ids: seq<nat>)
    ensures SameIds(manifest, ids) <==>
            && (forall e | e in manifest :: e.sourceVersion in ids)
            && (forall id | id in ids :: exists e :: e in manifest && e.sourceVersion == id)
  {
    forall id ensures ClaimFor(manifest, id).Some? <==> exists e :: e in manifest && e.sourceVersion == id { ClaimFinds(manifest, id); }
  }

  lemma PartsMean(h: Hashes, ids: seq<nat>, rows: seq<Source>, c: Content)
    ensures Gather(h, ids, ById(rows), c.manifest, c.layout).Some? && c.category != Unknown <==> Acceptable(h, ids, rows, c)
  {
    var known, m := ById(rows), c.manifest;
    ByIdIsLatest(rows);
    BindIsWhole(h, known, m);
    forall e ensures Bound(h, known, e) <==> Stands(h, rows, e) { EntriesStand(h, rows, known, e); }
    IdsAgree(m, ids);
    ProvenancesMean(h, known, m);
    forall s: Source ensures ClaimFor(m, s.id).Some? <==> exists e :: e in m && e.sourceVersion == s.id { ClaimFinds(m, s.id); }
    if Bind(h, known, m).Some? { PagesMean(h, rows, known, m, c.layout); }
  }

  /** An approval has a payload if and only if it is acceptable; the payload then says exactly this. */
  lemma {:induction false} PayloadMeans(h: Hashes, ids: RowIds, rows: seq<Source>, c: Content, warnings: seq<nat>, revision: nat, approval: nat)
    ensures var p := Payload(h, ids, rows, c, warnings, revision, approval);
            && (p.Some? <==> Acceptable(h, ids.sourceVersions, rows, c))
            && (p.Some? ==> SaysAll(h, rows, c, warnings, revision, approval, p.value))
  {
    PartsMean(h, ids.sourceVersions, rows, c);
    if Acceptable(h, ids.sourceVersions, rows, c) { AcceptableSays(h, ids, rows, c, warnings, revision, approval); }
  }

  lemma AcceptableSays(h: Hashes, ids: RowIds, rows: seq<Source>, c: Content, warnings: seq<nat>, revision: nat, approval: nat)
    requires Gather(h, ids.sourceVersions, ById(rows), c.manifest, c.layout).Some? && c.category != Unknown
    ensures SaysAll(h, rows, c, warnings, revision, approval, Payload(h, ids, rows, c, warnings, revision, approval).value)
  {
    var known, m := ById(rows), c.manifest;
    ByIdIsLatest(rows);
    BindIsWhole(h, known, m);
    var parts := Gather(h, ids.sourceVersions, known, m, c.layout).value;
    PagesMean(h, rows, known, m, c.layout);
    SourcesMean(h, rows, known, m, parts.provenance, SortBy((p: Provenance) => p.version, parts.provenance));
    SortOrders((x: PortableClaim) => x.claimId, parts.claims);
    SortOrders((w: nat) => w, warnings);
    AssembledSays(h, rows, c, warnings, revision, approval, SortBy((p: Provenance) => p.version, parts.provenance),
                  SortBy((x: PortableClaim) => x.claimId, parts.claims), parts.pages, SortBy((w: nat) => w, warnings));
  }

  lemma AssembledSays(h: Hashes, rows: seq<Source>, c: Content, warnings: seq<nat>, revision: nat, approval: nat,
                      ps: seq<Provenance>, claims: seq<PortableClaim>, pages: seq<Page>, sorted: seq<nat>)
    requires SaysSources(h, rows, c.manifest, ps) && SaysPages(h, rows, c.manifest, c.layout, pages)
    requires Ordered((x: PortableClaim) => x.claimId, claims) && multiset(claims) == multiset(Texts(c.manifest))
    requires Ordered((w: nat) => w, sorted) && multiset(sorted) == multiset(warnings)
    ensures SaysAll(h, rows, c, warnings, revision, approval, Assemble(h, ps, claims, pages, c, sorted, revision, approval))
  {
    assert Texts(c.manifest) == seq(|c.manifest|, i requires 0 <= i < |c.manifest| => c.manifest[i].text);
    VersionsAre(ps);
  }

  // ---------------------------------------------------------------- the Markdown

  lemma {:induction false} JoinedMore(a: seq<string>, b: seq<string>)
    ensures Joined(a + b) == Joined(a) + Joined(b)
  {
    if a == [] {
      assert a + b == b;
    } else {
      assert (a + b)[1..] == a[1..] + b;
      JoinedMore(a[1..], b);
      assert Joined(a + b) == a[0] + "\n" + (Joined(a[1..]) + Joined(b));
    }
  }

  /** The section of a page: its number, subtitle and body. */
  ghost function SectionText(h: Hashes, number: nat, p: Page): string
    requires p.subtitle.Some? && p.body.Some?
  {
    "\n## " + Decimal(number) + ". " + (h.text)(p.subtitle.value) + "\n\n" + (h.text)(p.body.value) + "\n"
  }

  /** Every page from `index` on has what a section shows. */
  ghost predicate Sectioned(pages: seq<Page>, index: nat) {
    forall i | index <= i < |pages| :: pages[i].subtitle.Some? && pages[i].body.Some?
  }

  ghost function SectionTexts(h: Hashes, pages: seq<Page>, index: nat): string
    requires Sectioned(pages, index)
    decreases |pages| - index
  {
    if index >= |pages| then "" else SectionText(h, index + 1, pages[index]) + SectionTexts(h, pages, index + 1)
  }

  ghost function WarningTexts(h: Hashes, warnings: seq<nat>): string {
    if warnings == [] then "" else "- " + (h.text)(warnings[0]) + "\n" + WarningTexts(h, warnings[1..])
  }

  lemma SectionJoined(h: Hashes, number: nat, p: Page)
    requires p.subtitle.Some? && p.body.Some?
    ensures Joined(SectionLines(h, number, p.subtitle.value, p.body.value)) == SectionText(h, number, p)
  {
    var head, body := "## " + Decimal(number) + ". " + (h.text)(p.subtitle.value), (h.text)(p.body.value);
    FourJoined("", head, "", body);
    assert "" + "\n" + (head + "\n" + ("" + "\n" + (body + "\n"))) == SectionText(h, number, p);
  }

  lemma FourJoined(a: string, b: string, c: string, d: string)
    ensures Joined([a, b, c, d]) == a + "\n" + (b + "\n" + (c + "\n" + (d + "\n")))
  {
    TwoJoined(c, d);
    assert [a, b, c, d][1..] == [b, c, d] && [b, c, d][1..] == [c, d];
  }

  lemma TwoJoined(a: string, b: string)
    ensures Joined([a, b]) == a + "\n" + (b + "\n")
  {
    assert [a, b][1..] == [b] && [b][1..] == [];
    assert Joined([b]) == b + "\n" + "";
  }

  lemma {:induction false} SectionsJoined(h: Hashes, pages: seq<Page>, index: nat)
    ensures Sections(h, pages, index).Some? <==> Sectioned(pages, index)
    ensures Sectioned(pages, index) ==> Joined(Sections(h, pages, index).value) == SectionTexts(h, pages, index)
    decreases |pages| - index
  {
    if index < |pages| {
      SectionsJoined(h, pages, index + 1);
      var p := pages[index];
      if Sectioned(pages, index) {
        SectionJoined(h, index + 1, p);
        JoinedMore(SectionLines(h, index + 1, p.subtitle.value, p.body.value), Sections(h, pages, index + 1).value);
      }
    }
  }

  lemma {:induction false} WarningsJoined(h: Hashes, warnings: seq<nat>)
    ensures Joined(Map(w => WarningLine(h, w), warnings)) == WarningTexts(h, warnings)
  {
    if warnings != [] {
      var lines := Map(w => WarningLine(h, w), warnings);
      WarningsJoined(h, warnings[1..]);
      assert lines[1..] == Map(w => WarningLine(h, w), warnings[1..]);
    }
  }

  predicate IsDigit(c: char) { '0' <= c <= '9' }

  function ReadDecimal(s: string): nat
    requires forall c | c in s :: IsDigit(c)
  {
    if s == "" then 0
    else
      assert IsDigit(s[|s| - 1]);
      ReadDecimal(s[..|s| - 1]) * 10 + (s[|s| - 1] as int - '0' as int)
  }

  /** A section's number is written in digits that read as it, without leading zeros. */
  lemma {:induction false} DecimalReads(n: nat)
    ensures Decimal(n) != "" && (forall c | c in Decimal(n) :: IsDigit(c)) && ReadDecimal(Decimal(n)) == n
    ensures n > 0 ==> Decimal(n)[0] != '0'
  {
    var last := ('0' as int + n % 10) as char;
    if n < 10 {
      OneMoreDigit("", last, n % 10);
      assert Decimal(n) == "" + [last];
    } else {
      DecimalReads(n / 10);
      OneMoreDigit(Decimal(n / 10), last, n % 10);
    }
  }

  lemma OneMoreDigit(front: string, last: char, d: nat)
    requires (forall c | c in front :: IsDigit(c)) && d < 10 && last == ('0' as int + d) as char
    ensures (forall c | c in front + [last] :: IsDigit(c)) && ReadDecimal(front + [last]) == ReadDecimal(front) * 10 + d
  {
    assert (front + [last])[..|front|] == front;
  }

  /** What can be shown: pages, the first with a title, the others with subtitle and body, and a caption text. */
  ghost predicate Presentable(pages: seq<Page>, caption: Caption) {
    pages != [] && pages[0].title.Some? && Sectioned(pages, 1) && caption.text.Some?
  }

  /** Title, subtitle if there is one, the numbered sections, the caption, and the warnings if there are any. */
  ghost function Shown(h: Hashes, pages: seq<Page>, caption: Caption, warnings: seq<nat>): string
    requires Presentable(pages, caption)
  {
    var subtitle := if pages[0].subtitle.Some? then (h.text)(pages[0].subtitle.value) else "";
    (("# " + (h.text)(pages[0].title.value) + "\n" + (if subtitle == "" then "" else "\n" + subtitle + "\n"))
     + SectionTexts(h, pages, 1)
     + ("\n## Caption\n\n" + (h.text)(caption.text.value) + "\n"))
    + (if warnings == [] then "" else "\n## Warnings\n" + WarningTexts(h, warnings))
  }

  lemma HeadingJoined(h: Hashes, p: Page)
    requires p.title.Some?
    ensures var subtitle := if p.subtitle.Some? then (h.text)(p.subtitle.value) else "";
            Joined(Heading(h, p).value) == "# " + (h.text)(p.title.value) + "\n" + (if subtitle == "" then "" else "\n" + subtitle + "\n")
  {
    var title := "# " + (h.text)(p.title.value);
    if p.subtitle.Some? && (h.text)(p.subtitle.value) != "" {
      var subtitle := (h.text)(p.subtitle.value);
      JoinedMore([title], ["", subtitle]);
      TwoJoined("", subtitle);
      assert Joined([title]) == title + "\n" + "";
    } else {
      assert Heading(h, p).value == [title];
      assert Joined([title]) == title + "\n" + "";
    }
  }

  lemma CaptionJoined(h: Hashes, text: nat)
    ensures Joined(CaptionLines(h, text)) == "\n## Caption\n\n" + (h.text)(text) + "\n"
  {
    FourJoined("", "## Caption", "", (h.text)(text));
  }

  lemma WarningSectionJoined(h: Hashes, warnings: seq<nat>)
    ensures Joined(WarningLines(h, warnings)) == if warnings == [] then "" else "\n## Warnings\n" + WarningTexts(h, warnings)
  {
    if warnings != [] {
      WarningsJoined(h, warnings);
      JoinedMore(["", "## Warnings"], Map(w => WarningLine(h, w), warnings));
      WarningHead();
    }
  }

  lemma WarningHead()
    ensures Joined(["", "## Warnings"]) == "\n## Warnings\n"
  {
    TwoJoined("", "## Warnings");
  }

  lemma LinesShow(h: Hashes, pages: seq<Page>, caption: Caption, warnings: seq<nat>)
    ensures MarkdownLines(h, pages, caption, warnings).Some? <==> Presentable(pages, caption)
    ensures Presentable(pages, caption) ==> Joined(MarkdownLines(h, pages, caption, warnings).value) == Shown(h, pages, caption, warnings)
  {
    SectionsJoined(h, pages, 1);
    if Presentable(pages, caption) {
      var a, b, c, d := Heading(h, pages[0]).value, Sections(h, pages, 1).value, CaptionLines(h, caption.text.value), WarningLines(h, warnings);
      JoinedMore(a, b);
      JoinedMore(a + b, c);
      JoinedMore(a + b + c, d);
      HeadingJoined(h, pages[0]);
      CaptionJoined(h, caption.text.value);
      WarningSectionJoined(h, warnings);
    }
  }

  /** The export shows its payload, under its id. */
  ghost predicate ShowsPayload(h: Hashes, x: Export) {
    && x.id == (h.whole)(x.payload) && Presentable(x.payload.pages, x.payload.caption)
    && x.markdown == "<!-- export_id: " + (h.text)(x.id) + " -->\n" + Shown(h, x.payload.pages, x.payload.caption, x.payload.warnings)
  }

  lemma TextShows(h: Hashes, id: nat, p: Semantic)
    ensures MarkdownLines(h, p.pages, p.caption, p.warnings).Some? <==> Presentable(p.pages, p.caption)
    ensures Presentable(p.pages, p.caption) && id == (h.whole)(p) ==>
              ShowsPayload(h, Export(id, p, MarkdownText(h, id, MarkdownLines(h, p.pages, p.caption, p.warnings).value)))
  {
    LinesShow(h, p.pages, p.caption, p.warnings);
    if Presentable(p.pages, p.caption) {
      var head := "<!-- export_id: " + (h.text)(id) + " -->";
      JoinedMore([head], MarkdownLines(h, p.pages, p.caption, p.warnings).value);
      assert Joined([head]) == head + "\n" + "";
    }
  }

  /** An approval with a payload is exported if and only if that can be shown; id and Markdown are those of the payload. */
  lemma {:induction false} IntentMeans(h: Hashes, ids: RowIds, rows: seq<Source>, c: Content, warnings: seq<nat>, revision: nat, approval: nat)
    ensures var p := Payload(h, ids, rows, c, warnings, revision, approval);
            var x := Intent(h, ids, rows, c, warnings, revision, approval);
            && (x.Some? <==> p.Some? && Presentable(p.value.pages, p.value.caption))
            && (x.Some? ==> x.value.payload == p.value && ShowsPayload(h, x.value))
  {
    var p := Payload(h, ids, rows, c, warnings, revision, approval);
    if p.Some? { TextShows(h, (h.whole)(p.value), p.value); }
  }
}
