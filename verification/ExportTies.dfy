/** When the order of rows and manifest entries shows in an export: exactly when the sort keys leave ties between different entries. */
module ExportTies {
  import opened Common
  import opened Permutations
  import opened ExportModel
  import opened Exports
  import opened ExportOrder

  lemma ProvenancesOfTwo(h: Hashes, x: Source, y: Source, rest: seq<Source>, m: seq<Claim>)
    requires Provenances(h, [x, y] + rest, m).Some?
    ensures ClaimFor(m, x.id).Some? && ClaimFor(m, y.id).Some? && Provenances(h, rest, m).Some?
    ensures Provenances(h, [x, y] + rest, m).value
            == [ProvenanceOf(h, x, ClaimFor(m, x.id).value), ProvenanceOf(h, y, ClaimFor(m, y.id).value)] + Provenances(h, rest, m).value
  {
    assert ([x, y] + rest)[1..] == [y] + rest && ([y] + rest)[1..] == rest;
  }

  lemma {:induction false} ProvenanceAt(h: Hashes, s: seq<Source>, m: seq<Claim>, i: nat)
    requires Provenances(h, s, m).Some? && i < |s|
    ensures |Provenances(h, s, m).value| == |s| && ClaimFor(m, s[i].id).Some?
    ensures Provenances(h, s, m).value[i] == ProvenanceOf(h, s[i], ClaimFor(m, s[i].id).value)
  {
    if i > 0 { ProvenanceAt(h, s[1..], m, i - 1); }
    else if |s| > 1 { ProvenanceAt(h, s[1..], m, 0); }
  }

  /** Two rows with one version identity but different provenance: two orders of the same rows sort differently. */
  lemma ProvenanceOrderShows(h: Hashes, s: seq<Source>, m: seq<Claim>) returns (t: seq<Source>, u: seq<Source>)
    requires Provenances(h, s, m).Some? && !Decides((x: Provenance) => x.version, Provenances(h, s, m).value)
    ensures multiset(t) == multiset(s) == multiset(u)
    ensures Provenances(h, t, m).Some? && Provenances(h, u, m).Some?
    ensures SortBy((p: Provenance) => p.version, Provenances(h, t, m).value) != SortBy((p: Provenance) => p.version, Provenances(h, u, m).value)
  {
    var ps := Provenances(h, s, m).value;
    if s != [] { ProvenanceAt(h, s, m, 0); }
    var i, j :| 0 <= i < |ps| && 0 <= j < |ps| && ps[i].version == ps[j].version && ps[i] != ps[j];
    var a, b := if i < j then i else j, if i < j then j else i;
    ProvenanceAt(h, s, m, a);
    ProvenanceAt(h, s, m, b);
    var rest := TwoFirst(s, a, b);
    t, u := [s[a], s[b]] + rest, [s[b], s[a]] + rest;
    ProvenancesPermuted(h, s, t, m, m);
    ProvenancesPermuted(h, s, u, m, m);
    ProvenancesOfTwo(h, s[a], s[b], rest, m);
    ProvenancesOfTwo(h, s[b], s[a], rest, m);
    SortShows((p: Provenance) => p.version, ps[a], ps[b], Provenances(h, rest, m).value);
  }

  lemma TextsOfTwo(x: Claim, y: Claim, rest: seq<Claim>)
    ensures Texts([x, y] + rest) == [x.text, y.text] + Texts(rest)
  {
  }

  /** Two manifest entries with one claim id but different text: two orders of the manifest sort differently. */
  lemma ClaimOrderShows(m: seq<Claim>) returns (t: seq<Claim>, u: seq<Claim>)
    requires !Decides((x: PortableClaim) => x.claimId, Texts(m))
    ensures multiset(t) == multiset(m) == multiset(u)
    ensures SortBy((p: PortableClaim) => p.claimId, Texts(t)) != SortBy((p: PortableClaim) => p.claimId, Texts(u))
  {
    var i, j :| 0 <= i < |m| && 0 <= j < |m| && m[i].text.claimId == m[j].text.claimId && m[i].text != m[j].text;
    var a, b := if i < j then i else j, if i < j then j else i;
    var rest := TwoFirst(m, a, b);
    t, u := [m[a], m[b]] + rest, [m[b], m[a]] + rest;
    TextsOfTwo(m[a], m[b], rest);
    TextsOfTwo(m[b], m[a], rest);
    SortShows((p: PortableClaim) => p.claimId, m[a].text, m[b].text, Texts(rest));
  }

  /** The payload is that of the given order for every other order of rows and manifest. */
  ghost predicate OrderFree(h: Hashes, ids: RowIds, s: seq<Source>, c: Content, warnings: seq<nat>, revision: nat, approval: nat) {
    forall t: seq<Source>, n: seq<Claim> | multiset(t) == multiset(s) && multiset(n) == multiset(c.manifest) ::
      Payload(h, ids, t, c.(manifest := n), warnings, revision, approval) == Payload(h, ids, s, c, warnings, revision, approval)
  }

  /** Any other order is accepted too, and its payload holds its own rows and claims in sorted order. */
  lemma PayloadOfOrder(h: Hashes, ids: RowIds, s: seq<Source>, t: seq<Source>, c: Content, n: seq<Claim>, warnings: seq<nat>,
                       revision: nat, approval: nat)
    requires DistinctIds(s) && Payload(h, ids, s, c, warnings, revision, approval).Some?
    requires multiset(t) == multiset(s) && multiset(n) == multiset(c.manifest)
    ensures var p := Payload(h, ids, t, c.(manifest := n), warnings, revision, approval);
            && p.Some? && Provenances(h, t, n).Some?
            && p.value.sources == SortBy((x: Provenance) => x.version, Provenances(h, t, n).value)
            && p.value.claims == SortBy((x: PortableClaim) => x.claimId, Texts(n))
  {
    SourceIdsPermuted(s, t);
    ByIdOfDistinct(s);
    ByIdOfDistinct(t);
    GatherPermuted(h, ids.sourceVersions, ids.sourceVersions, s, t, c.manifest, n, c.layout);
    BindIsWhole(h, t, n);
  }

  lemma SourceOrderShows(h: Hashes, ids: RowIds, s: seq<Source>, c: Content, warnings: seq<nat>, revision: nat, approval: nat)
    requires DistinctIds(s) && Payload(h, ids, s, c, warnings, revision, approval).Some?
    requires Provenances(h, s, c.manifest).Some? && !Decides((x: Provenance) => x.version, Provenances(h, s, c.manifest).value)
    ensures !OrderFree(h, ids, s, c, warnings, revision, approval)
  {
    var t, u := ProvenanceOrderShows(h, s, c.manifest);
    PayloadOfOrder(h, ids, s, t, c, c.manifest, warnings, revision, approval);
    PayloadOfOrder(h, ids, s, u, c, c.manifest, warnings, revision, approval);
  }

  lemma ManifestOrderShows(h: Hashes, ids: RowIds, s: seq<Source>, c: Content, warnings: seq<nat>, revision: nat, approval: nat)
    requires DistinctIds(s) && Payload(h, ids, s, c, warnings, revision, approval).Some?
    requires !Decides((x: PortableClaim) => x.claimId, Texts(c.manifest))
    ensures !OrderFree(h, ids, s, c, warnings, revision, approval)
  {
    var m, n := ClaimOrderShows(c.manifest);
    PayloadOfOrder(h, ids, s, s, c, m, warnings, revision, approval);
    PayloadOfOrder(h, ids, s, s, c, n, warnings, revision, approval);
  }

  /** For accepted exports that is exact: the order of rows and manifest never shows if and only if the keys tell them apart. */
  lemma OrderShowsExactly(h: Hashes, ids: RowIds, s: seq<Source>, c: Content, warnings: seq<nat>, revision: nat, approval: nat)
    requires DistinctIds(s) && Payload(h, ids, s, c, warnings, revision, approval).Some?
    ensures OrderFree(h, ids, s, c, warnings, revision, approval)
            <==> Tellable(Gather(h, ids.sourceVersions, ById(s), c.manifest, c.layout).value)
  {
    ByIdOfDistinct(s);
    var parts := Gather(h, ids.sourceVersions, ById(s), c.manifest, c.layout).value;
    BindIsWhole(h, s, c.manifest);
    if !Decides((x: Provenance) => x.version, parts.provenance) {
      SourceOrderShows(h, ids, s, c, warnings, revision, approval);
    } else if !Decides((x: PortableClaim) => x.claimId, parts.claims) {
      ManifestOrderShows(h, ids, s, c, warnings, revision, approval);
    } else {
      TellableHidesOrder(h, ids, s, c, warnings, revision, approval);
    }
  }

  lemma TellableHidesOrder(h: Hashes, ids: RowIds, s: seq<Source>, c: Content, warnings: seq<nat>, revision: nat, approval: nat)
    requires DistinctIds(s)
    requires var parts := Gather(h, ids.sourceVersions, s, c.manifest, c.layout); parts.Some? ==> Tellable(parts.value)
    ensures OrderFree(h, ids, s, c, warnings, revision, approval)
  {
    forall t: seq<Source>, n: seq<Claim> | multiset(t) == multiset(s) && multiset(n) == multiset(c.manifest)
      ensures Payload(h, ids, t, c.(manifest := n), warnings, revision, approval) == Payload(h, ids, s, c, warnings, revision, approval)
    {
      SourceIdsPermuted(s, t);
      PayloadIgnoresRowOrder(h, ids, ids, s, t, c, n, warnings, warnings, revision, approval);
    }
  }

  // ---------------------------------------------------------------- the good side, on the inputs

  ghost predicate DistinctIdentities(h: Hashes, s: seq<Source>) {
    forall i, j | 0 <= i < j < |s| :: (h.version)(s[i].record) != (h.version)(s[j].record)
  }

  ghost predicate DistinctClaims(m: seq<Claim>) {
    forall i, j | 0 <= i < j < |m| :: m[i].text.claimId != m[j].text.claimId
  }

  lemma DistinctKeysTell(h: Hashes, ids: seq<nat>, s: seq<Source>, m: seq<Claim>, l: Layout)
    requires DistinctIdentities(h, s) && DistinctClaims(m) && Gather(h, ids, s, m, l).Some?
    ensures Tellable(Gather(h, ids, s, m, l).value)
  {
    BindIsWhole(h, s, m);
    var p := Gather(h, ids, s, m, l).value;
    forall i, j | 0 <= i < |p.provenance| && 0 <= j < |p.provenance| && p.provenance[i].version == p.provenance[j].version
      ensures i == j
    {
      if s != [] { ProvenanceAt(h, s, m, 0); }
      ProvenanceAt(h, s, m, i);
      ProvenanceAt(h, s, m, j);
      assert i < j || j < i || i == j;
    }
    forall i, j | 0 <= i < |p.claims| && 0 <= j < |p.claims| && p.claims[i].claimId == p.claims[j].claimId ensures i == j {
      assert i < j || j < i || i == j;
    }
  }

  /** With distinct row ids, distinct version identities and distinct claim ids, the order never shows. */
  lemma DistinctKeysHideOrder(h: Hashes, ids: RowIds, s: seq<Source>, c: Content, warnings: seq<nat>, revision: nat, approval: nat)
    requires DistinctIds(s) && DistinctIdentities(h, s) && DistinctClaims(c.manifest)
    ensures OrderFree(h, ids, s, c, warnings, revision, approval)
  {
    if Gather(h, ids.sourceVersions, s, c.manifest, c.layout).Some? {
      DistinctKeysTell(h, ids.sourceVersions, s, c.manifest, c.layout);
    }
    TellableHidesOrder(h, ids, s, c, warnings, revision, approval);
  }

  /** The hashes behind the identities have no collisions. */
  ghost predicate CollisionFree(h: Hashes) {
    && (forall a, b, c, d :: (h.source)(a, b) == (h.source)(c, d) ==> a == c && b == d)
    && (forall a, m, b, n :: (h.material)(a, m) == (h.material)(b, n) ==> a == b && m == n)
    && (forall r, q :: (h.version)(r) == (h.version)(q) ==> r == q)
    && (forall p, q :: (h.claim)(p) == (h.claim)(q) ==> p == q)
  }

  /** What the tables demand of version rows: the same channel, post and version key are the same row. */
  ghost predicate UniqueRows(s: seq<Source>) {
    && DistinctIds(s)
    && forall i, j | 0 <= i < j < |s| ::
         s[i].record.channel != s[j].record.channel || s[i].record.post != s[j].record.post
         || s[i].record.material.versionKey != s[j].record.material.versionKey
  }

  /** The claim ids are the ones that the program issues. */
  ghost predicate Issued(h: Hashes, m: seq<Claim>) {
    forall c | c in m :: c.text.claimId == ClaimIdentity(h, c.text)
  }

  /** Two issued claims with one id are of one source row. */
  lemma IssuedClaimsDiffer(h: Hashes, s: seq<Source>, m: seq<Claim>)
    requires CollisionFree(h) && UniqueRows(s) && Issued(h, m)
    requires DistinctVersions(m) && forall c | c in m :: Bound(h, s, c)
    ensures DistinctClaims(m)
  {
    forall i, j | 0 <= i < j < |m| ensures m[i].text.claimId != m[j].text.claimId {
      assert m[i] in m && m[j] in m;
      var x, y := Lookup(s, m[i].sourceVersion).value, Lookup(s, m[j].sourceVersion).value;
      LookupFinds(s, m[i].sourceVersion);
      LookupFinds(s, m[j].sourceVersion);
      var a :| 0 <= a < |s| && s[a] == x;
      var b :| 0 <= b < |s| && s[b] == y;
      assert a < b || b < a || x == y;
      MaterialsDiffer(h, x.record, y.record);
    }
  }

  lemma MaterialsDiffer(h: Hashes, r: Record, q: Record)
    requires CollisionFree(h)
    ensures MaterialIdentity(h, r) == MaterialIdentity(h, q) ==> r.channel == q.channel && r.post == q.post && r.material == q.material
  {
  }

  lemma IssuedPartsTell(h: Hashes, ids: seq<nat>, s: seq<Source>, m: seq<Claim>, l: Layout)
    requires CollisionFree(h) && UniqueRows(s) && Issued(h, m) && Gather(h, ids, s, m, l).Some?
    ensures Tellable(Gather(h, ids, s, m, l).value)
  {
    BindIsWhole(h, s, m);
    IssuedClaimsDiffer(h, s, m);
    DistinctKeysTell(h, ids, s, m, l);
  }

  /** So for the rows and manifests that the program writes, the order never shows, in payload, id or Markdown. */
  lemma IssuedExportIgnoresRowOrder(h: Hashes, ids: RowIds, other: RowIds, s: seq<Source>, t: seq<Source>, c: Content, n: seq<Claim>,
                                    warnings: seq<nat>, others: seq<nat>, revision: nat, approval: nat)
    requires CollisionFree(h) && UniqueRows(s) && Issued(h, c.manifest)
    requires multiset(s) == multiset(t) && multiset(c.manifest) == multiset(n) && multiset(warnings) == multiset(others)
    requires forall id :: id in ids.sourceVersions <==> id in other.sourceVersions
    ensures Intent(h, ids, s, c, warnings, revision, approval) == Intent(h, other, t, c.(manifest := n), others, revision, approval)
  {
    SourceIdsPermuted(s, t);
    if Gather(h, ids.sourceVersions, s, c.manifest, c.layout).Some? {
      IssuedPartsTell(h, ids.sourceVersions, s, c.manifest, c.layout);
    }
    ExportIgnoresRowOrder(h, ids, other, s, t, c, n, warnings, others, revision, approval);
  }

  // ---------------------------------------------------------------- the bad side

  const TWO_ROWS: seq<Source> :=
    [Source(1, Record(1, 0, 0, Material(0, 0, 0, 0, false, 0, 0))), Source(2, Record(2, 0, 0, Material(0, 0, 0, 0, false, 0, 0)))]

  /** A manifest entry bound to its row, with a claim id of its own making. */
  function TiedClaim(h: Hashes, i: nat): Claim
    requires i < 2
  {
    var r := TWO_ROWS[i].record;
    Claim(i + 1, true, true, PortableClaim(7, SourceIdentity(h, r), MaterialIdentity(h, r), 0, 0, 0, i, 0, 0, 0))
  }

  function TiedContent(h: Hashes): Content {
    Content([TiedClaim(h, 0), TiedClaim(h, 1)], OlderPages([RawPage(Some(1), None, None, 0, [])]), Caption(Some(1), 0), Absent, true, true)
  }

  lemma TiedParts(h: Hashes)
    ensures var parts := Gather(h, [1, 2], TWO_ROWS, TiedContent(h).manifest, TiedContent(h).layout);
            parts.Some? && parts.value.pages == [Page(Some(1), None, None, 0, [])]
  {
    var m := TiedContent(h).manifest;
    assert Lookup(TWO_ROWS[1..], 2) == Some(TWO_ROWS[1]);
    assert Lookup(TWO_ROWS, 1) == Some(TWO_ROWS[0]) && Lookup(TWO_ROWS, 2) == Some(TWO_ROWS[1]);
    forall c | c in m ensures Bound(h, TWO_ROWS, c) { assert c == m[0] || c == m[1]; }
    BindIsWhole(h, TWO_ROWS, m);
    assert ClaimFor(m[1..], 2) == Some(m[1]);
    assert ClaimFor(m, 1) == Some(m[0]) && ClaimFor(m, 2) == Some(m[1]);
    assert SameIds(m, [1, 2]);
    forall x | x in TWO_ROWS ensures ClaimFor(m, x.id).Some? { assert x == TWO_ROWS[0] || x == TWO_ROWS[1]; }
    ProvenancesAre(h, TWO_ROWS, m, ProvenanceOf(h, TWO_ROWS[0], m[0]));
    OnePage(x => Resolve(h, TWO_ROWS, m, x));
  }

  lemma OnePage(resolve: Reference -> Option<PortableReference>)
    ensures Pages(resolve, OlderPages([RawPage(Some(1), None, None, 0, [])])) == Some([Page(Some(1), None, None, 0, [])])
  {
    SequenceOfOne(p => ResolvePage(resolve, p), RawPage(Some(1), None, None, 0, []));
  }

  lemma SequenceOfOne<T, U>(f: T -> Option<U>, x: T)
    ensures Sequence(f, [x]) == if f(x).None? then None else Some([f(x).value])
  {
    assert [x][1..] == [];
    if f(x).Some? { assert [f(x).value] + [] == [f(x).value]; }
  }

  lemma TiedPayload(h: Hashes, ids: RowIds, approval: nat)
    requires ids.sourceVersions == [1, 2]
    ensures DistinctIds(TWO_ROWS)
    ensures var p := Payload(h, ids, TWO_ROWS, TiedContent(h), [], 1, approval);
            && p.Some? && p.value.pages == [Page(Some(1), None, None, 0, [])]
            && p.value.caption == Caption(Some(1), 0) && p.value.warnings == []
  {
    ByIdOfDistinct(TWO_ROWS);
    TiedParts(h);
  }

  lemma OnePageText(h: Hashes)
    ensures MarkdownLines(h, [Page(Some(1), None, None, 0, [])], Caption(Some(1), 0), []).Some?
  {
    assert Sections(h, [Page(Some(1), None, None, 0, [])], 1) == Some([]);
  }

  /**
    An accepted export whose order shows, whatever the hashes: two manifest entries that share a claim id, which
    nothing checks, and differ in evidence.
   */
  lemma OrderShowsExists(h: Hashes, approval: nat)
    ensures DistinctIds(TWO_ROWS)
    ensures Intent(h, RowIds(0, 0, 0, [1, 2]), TWO_ROWS, TiedContent(h), [], 1, approval).Some?
    ensures !OrderFree(h, RowIds(0, 0, 0, [1, 2]), TWO_ROWS, TiedContent(h), [], 1, approval)
  {
    var m := TiedContent(h).manifest;
    TiedPayload(h, RowIds(0, 0, 0, [1, 2]), approval);
    OnePageText(h);
    assert Texts(m)[0] != Texts(m)[1] && Texts(m)[0].claimId == Texts(m)[1].claimId;
    ManifestOrderShows(h, RowIds(0, 0, 0, [1, 2]), TWO_ROWS, TiedContent(h), [], 1, approval);
  }
}
