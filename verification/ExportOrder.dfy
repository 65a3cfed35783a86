/** The order in which rows come back, which row ids decide, leaves the export bytes alone. */
module ExportOrder {
  import opened Common
  import opened Permutations
  import opened ExportModel
  import opened Exports

  // ---------------------------------------------------------------- mapping

  lemma {:induction false} MapPermuted<T, U>(f: T -> U, a: seq<T>, b: seq<T>)
    requires multiset(a) == multiset(b)
    ensures multiset(Map(f, a)) == multiset(Map(f, b))
    decreases |a|
  {
    if a == [] {
      assert |b| == |multiset(b)| == |multiset(a)|;
    } else {
      var k := Without(a, b);
      MapPermuted(f, a[1..], b[..k] + b[k + 1..]);
      SplitAt(b, k);
      MapAppend(f, b[..k], [b[k]] + b[k + 1..]);
      MapAppend(f, [b[k]], b[k + 1..]);
      MapAppend(f, b[..k], b[k + 1..]);
      assert Map(f, [b[k]]) == [f(b[k])];
    }
  }

  // ---------------------------------------------------------------- sorting by a key that tells elements apart

  ghost predicate Ordered<T>(key: T -> nat, s: seq<T>) { forall i, j | 0 <= i < j < |s| :: key(s[i]) <= key(s[j]) }

  ghost predicate Decides<T>(key: T -> nat, s: seq<T>) {
    forall i, j | 0 <= i < |s| && 0 <= j < |s| && key(s[i]) == key(s[j]) :: s[i] == s[j]
  }

  lemma {:induction false} InsertOrders<T>(key: T -> nat, x: T, s: seq<T>)
    requires Ordered(key, s)
    ensures Ordered(key, InsertBy(key, x, s)) && multiset(InsertBy(key, x, s)) == multiset{x} + multiset(s)
  {
    if s == [] {
    } else if key(x) <= key(s[0]) {
      forall j | 0 <= j < |s| ensures key(x) <= key(s[j]) { if j > 0 { assert key(s[0]) <= key(s[j]); } }
    } else {
      TailOrdered(key, s);
      InsertOrders(key, x, s[1..]);
      assert s == [s[0]] + s[1..];
      HeadStaysLeast(key, x, s, InsertBy(key, x, s[1..]));
      PrependOrdered(key, s[0], InsertBy(key, x, s[1..]));
    }
  }

  lemma HeadStaysLeast<T>(key: T -> nat, x: T, s: seq<T>, r: seq<T>)
    requires s != [] && Ordered(key, s) && key(s[0]) <= key(x) && multiset(r) == multiset{x} + multiset(s[1..])
    ensures forall j | 0 <= j < |r| :: key(s[0]) <= key(r[j])
  {
    forall j | 0 <= j < |r| ensures key(s[0]) <= key(r[j]) {
      assert r[j] in multiset(r);
      if r[j] != x {
        assert r[j] in multiset(s[1..]);
        var k :| 0 <= k < |s[1..]| && s[1..][k] == r[j];
        assert s[k + 1] == r[j];
      }
    }
  }

  lemma PrependOrdered<T>(key: T -> nat, x: T, s: seq<T>)
    requires Ordered(key, s) && forall j | 0 <= j < |s| :: key(x) <= key(s[j])
    ensures Ordered(key, [x] + s)
  {
  }

  lemma {:induction false} SortOrders<T>(key: T -> nat, s: seq<T>)
    ensures Ordered(key, SortBy(key, s)) && multiset(SortBy(key, s)) == multiset(s)
  {
    if s != [] {
      SortOrders(key, s[1..]);
      InsertOrders(key, s[0], SortBy(key, s[1..]));
      assert s == [s[0]] + s[1..];
    }
  }

  lemma SmallestFirst<T>(key: T -> nat, a: seq<T>, b: seq<T>)
    requires a != [] && b != [] && Ordered(key, a) && multiset(a) == multiset(b)
    ensures key(a[0]) <= key(b[0])
  {
    assert b[0] in multiset(a);
    var j :| 0 <= j < |a| && a[j] == b[0];
  }

  lemma TailOrdered<T>(key: T -> nat, a: seq<T>)
    requires a != [] && Ordered(key, a)
    ensures Ordered(key, a[1..])
  {
  }

  lemma SameHead<T>(key: T -> nat, a: seq<T>, b: seq<T>)
    requires a != [] && b != [] && Ordered(key, a) && Ordered(key, b) && multiset(a) == multiset(b) && Decides(key, a)
    ensures a[0] == b[0] && multiset(a[1..]) == multiset(b[1..])
  {
    SmallestFirst(key, a, b);
    SmallestFirst(key, b, a);
    assert b[0] in multiset(a);
    var j :| 0 <= j < |a| && a[j] == b[0];
    assert key(a[0]) == key(a[j]);
    SplitAt(a, 0);
    SplitAt(b, 0);
    assert a[..0] + a[1..] == a[1..] && b[..0] + b[1..] == b[1..];
    Cancel(multiset(a[1..]), multiset(b[1..]), multiset{a[0]});
  }

  lemma {:induction false} OrderedIsUnique<T>(key: T -> nat, a: seq<T>, b: seq<T>)
    requires Ordered(key, a) && Ordered(key, b) && multiset(a) == multiset(b) && Decides(key, a)
    ensures a == b
    decreases |a|
  {
    assert |b| == |multiset(b)| == |multiset(a)| == |a|;
    if a != [] {
      SameHead(key, a, b);
      TailOrdered(key, a);
      TailOrdered(key, b);
      TailDecides(key, a);
      OrderedIsUnique(key, a[1..], b[1..]);
      assert a == [a[0]] + a[1..] && b == [b[0]] + b[1..];
    }
  }

  lemma TailDecides<T>(key: T -> nat, a: seq<T>)
    requires a != [] && Decides(key, a)
    ensures Decides(key, a[1..])
  {
  }

  lemma DecidesPermuted<T>(key: T -> nat, a: seq<T>, b: seq<T>)
    requires Decides(key, a) && multiset(a) == multiset(b)
    ensures Decides(key, b)
  {
    forall i, j | 0 <= i < |b| && 0 <= j < |b| && key(b[i]) == key(b[j]) ensures b[i] == b[j] {
      assert b[i] in multiset(a) && b[j] in multiset(a);
      var k :| 0 <= k < |a| && a[k] == b[i];
      var l :| 0 <= l < |a| && a[l] == b[j];
    }
  }

  /** Sorting forgets the order of arrival. */
  lemma SortPermuted<T>(key: T -> nat, a: seq<T>, b: seq<T>)
    requires multiset(a) == multiset(b) && Decides(key, a)
    ensures SortBy(key, a) == SortBy(key, b)
  {
    SortOrders(key, a);
    SortOrders(key, b);
    DecidesPermuted(key, a, SortBy(key, a));
    OrderedIsUnique(key, SortBy(key, a), SortBy(key, b));
  }

  /** Of two elements with one key, the one that arrives first comes out first. */
  lemma {:induction false} InsertTwice<T>(key: T -> nat, x: T, y: T, s: seq<T>)
    requires key(x) == key(y) && x != y
    ensures InsertBy(key, x, InsertBy(key, y, s)) != InsertBy(key, y, InsertBy(key, x, s))
  {
    if s == [] || key(x) <= key(s[0]) {
      assert InsertBy(key, x, InsertBy(key, y, s))[0] == x && InsertBy(key, y, InsertBy(key, x, s))[0] == y;
    } else {
      InsertTwice(key, x, y, s[1..]);
      var a, b := InsertBy(key, x, InsertBy(key, y, s[1..])), InsertBy(key, y, InsertBy(key, x, s[1..]));
      assert ([s[0]] + a)[1..] == a && ([s[0]] + b)[1..] == b;
    }
  }

  lemma SortShows<T>(key: T -> nat, x: T, y: T, rest: seq<T>)
    requires key(x) == key(y) && x != y
    ensures SortBy(key, [x, y] + rest) != SortBy(key, [y, x] + rest)
  {
    assert ([x, y] + rest)[1..] == [y] + rest && ([y] + rest)[1..] == rest;
    assert ([y, x] + rest)[1..] == [x] + rest && ([x] + rest)[1..] == rest;
    InsertTwice(key, x, y, SortBy(key, rest));
  }

  /** Two elements can be brought to the front. */
  lemma TwoFirst<T>(s: seq<T>, i: nat, j: nat) returns (rest: seq<T>)
    requires i < j < |s|
    ensures multiset([s[i], s[j]] + rest) == multiset(s) == multiset([s[j], s[i]] + rest)
  {
    var t := s[..j] + s[j + 1..];
    SplitAt(s, j);
    SplitAt(t, i);
    rest := t[..i] + t[i + 1..];
    PairFirst(s[i], s[j], rest);
    PairFirst(s[j], s[i], rest);
  }

  lemma PairFirst<T>(x: T, y: T, rest: seq<T>)
    ensures multiset([x, y] + rest) == multiset{x} + multiset{y} + multiset(rest)
  {
  }

  // ---------------------------------------------------------------- dictionaries

  ghost predicate DistinctIds(s: seq<Source>) { forall i, j | 0 <= i < j < |s| :: s[i].id != s[j].id }

  ghost predicate DistinctVersions(m: seq<Claim>) { forall i, j | 0 <= i < j < |m| :: m[i].sourceVersion != m[j].sourceVersion }

  lemma SourceIdsPermuted(a: seq<Source>, b: seq<Source>)
    requires DistinctIds(a) && multiset(a) == multiset(b)
    ensures DistinctIds(b)
  {
    forall i, j | 0 <= i < j < |b| ensures b[i].id != b[j].id {
      var rest := TwoFirst(b, i, j);
      OnceEach(a, b[i], b[j], rest);
    }
  }

  lemma {:induction false} OnceEach(a: seq<Source>, x: Source, y: Source, rest: seq<Source>)
    requires DistinctIds(a) && multiset([x, y] + rest) == multiset(a)
    ensures x.id != y.id
  {
    var k := Without([x, y] + rest, a);
    assert ([x, y] + rest)[1..] == [y] + rest;
    var others := a[..k] + a[k + 1..];
    SameMembers([y] + rest, others);
    assert ([y] + rest)[0] == y && y in [y] + rest && y in others;
    var l :| 0 <= l < |others| && others[l] == y;
    assert a[if l < k then l else l + 1] == y;
  }

  lemma {:induction false} PutNew(s: seq<Source>, x: Source)
    requires forall y | y in s :: y.id != x.id
    ensures Put(s, x) == s + [x]
  {
    if s != [] {
      assert s[0] in s;
      PutNew(s[1..], x);
      assert s + [x] == [s[0]] + (s[1..] + [x]);
    }
  }

  lemma {:induction false} ByIdOfDistinct(s: seq<Source>)
    requires DistinctIds(s)
    ensures ById(s) == s
  {
    if s != [] {
      ByIdOfDistinct(s[..|s| - 1]);
      PutNew(s[..|s| - 1], s[|s| - 1]);
      assert s == s[..|s| - 1] + [s[|s| - 1]];
    }
  }

  lemma {:induction false} LookupFinds(s: seq<Source>, id: nat)
    requires DistinctIds(s)
    ensures Lookup(s, id).Some? ==> Lookup(s, id).value in s && Lookup(s, id).value.id == id
    ensures forall x | x in s && x.id == id :: Lookup(s, id) == Some(x)
  {
    if s != [] {
      LookupFinds(s[1..], id);
      if s[0].id == id {
        forall k | 0 < k < |s| ensures s[k].id != id { assert s[0].id != s[k].id; }
      }
    }
  }

  lemma LookupPermuted(a: seq<Source>, b: seq<Source>, id: nat)
    requires DistinctIds(a) && DistinctIds(b) && multiset(a) == multiset(b)
    ensures Lookup(a, id) == Lookup(b, id)
  {
    LookupFinds(a, id);
    LookupFinds(b, id);
    SameMembers(a, b);
  }

  lemma {:induction false} ClaimFinds(m: seq<Claim>, id: nat)
    ensures ClaimFor(m, id).Some? ==> ClaimFor(m, id).value in m && ClaimFor(m, id).value.sourceVersion == id
    ensures ClaimFor(m, id).None? ==> forall c | c in m :: c.sourceVersion != id
    ensures DistinctVersions(m) ==> forall c | c in m && c.sourceVersion == id :: ClaimFor(m, id) == Some(c)
  {
    if m != [] {
      ClaimFinds(m[1..], id);
      if m[0].sourceVersion == id && DistinctVersions(m) {
        forall k | 0 < k < |m| ensures m[k].sourceVersion != id { assert m[0].sourceVersion != m[k].sourceVersion; }
      }
    }
  }

  lemma ClaimPermuted(a: seq<Claim>, b: seq<Claim>, id: nat)
    requires DistinctVersions(a) && DistinctVersions(b) && multiset(a) == multiset(b)
    ensures ClaimFor(a, id) == ClaimFor(b, id)
  {
    ClaimFinds(a, id);
    ClaimFinds(b, id);
    SameMembers(a, b);
  }

  // ---------------------------------------------------------------- binding

  /** Binding accepts a manifest whole or not at all. */
  lemma {:induction false} BindIsWhole(h: Hashes, s: seq<Source>, m: seq<Claim>)
    ensures Bind(h, s, m).Some? <==> DistinctVersions(m) && forall c | c in m :: Bound(h, s, c)
    ensures Bind(h, s, m).Some? ==> Bind(h, s, m).value == m
  {
    if m != [] {
      var front, c := m[..|m| - 1], m[|m| - 1];
      BindIsWhole(h, s, front);
      assert m == front + [c];
      OneMoreDistinct(front, c);
      OneMoreBound(h, s, front, c);
    }
  }

  lemma OneMoreBound(h: Hashes, s: seq<Source>, front: seq<Claim>, c: Claim)
    ensures (forall d | d in front + [c] :: Bound(h, s, d)) <==> (forall d | d in front :: Bound(h, s, d)) && Bound(h, s, c)
  {
    assert c in front + [c] && forall d | d in front :: d in front + [c];
  }

  lemma OneMoreDistinct(front: seq<Claim>, c: Claim)
    ensures DistinctVersions(front + [c]) <==> DistinctVersions(front) && ClaimFor(front, c.sourceVersion).None?
  {
    var m := front + [c];
    ClaimFinds(front, c.sourceVersion);
    if ClaimFor(front, c.sourceVersion).Some? {
      var k :| 0 <= k < |front| && front[k] == ClaimFor(front, c.sourceVersion).value;
      assert m[k].sourceVersion == m[|front|].sourceVersion;
    }
    if DistinctVersions(m) {
      forall i, j | 0 <= i < j < |front| ensures front[i].sourceVersion != front[j].sourceVersion {
        assert m[i].sourceVersion != m[j].sourceVersion;
      }
    }
  }

  lemma {:induction false} CountOnce(m: seq<Claim>, c: Claim)
    requires DistinctVersions(m)
    ensures multiset(m)[c] <= 1
  {
    if m != [] {
      CountOnce(m[1..], c);
      assert m == [m[0]] + m[1..];
      forall k | 0 <= k < |m[1..]| ensures m[1..][k] != m[0] { assert m[0].sourceVersion != m[k + 1].sourceVersion; }
    }
  }

  /** Distinctness does not depend on the order. */
  lemma DistinctPermuted(a: seq<Claim>, b: seq<Claim>)
    requires DistinctVersions(a) && multiset(a) == multiset(b)
    ensures DistinctVersions(b)
  {
    SameMembers(a, b);
    forall i, j | 0 <= i < j < |b| ensures b[i].sourceVersion != b[j].sourceVersion {
      assert b[i] in b && b[j] in b;
      ClaimFinds(a, b[i].sourceVersion);
      if b[i] == b[j] {
        assert b == b[..j] + b[j..];
        assert b[i] in b[..j] && b[j] in b[j..];
        assert multiset(b)[b[i]] >= 2;
        CountOnce(a, b[i]);
      }
    }
  }

  lemma BindPermuted(h: Hashes, s: seq<Source>, t: seq<Source>, m: seq<Claim>, n: seq<Claim>)
    requires DistinctIds(s) && DistinctIds(t) && multiset(s) == multiset(t) && multiset(m) == multiset(n)
    ensures Bind(h, s, m).Some? <==> Bind(h, t, n).Some?
    ensures Bind(h, s, m).Some? ==> Bind(h, s, m).value == m && Bind(h, t, n).value == n && DistinctVersions(m) && DistinctVersions(n)
  {
    BindIsWhole(h, s, m);
    BindIsWhole(h, t, n);
    SameMembers(m, n);
    forall c ensures Bound(h, s, c) == Bound(h, t, c) { LookupPermuted(s, t, c.sourceVersion); }
    if DistinctVersions(m) { DistinctPermuted(m, n); }
    if DistinctVersions(n) { DistinctPermuted(n, m); }
  }

  // ---------------------------------------------------------------- provenance and pages

  ghost function ProvenanceBy(h: Hashes, claims: seq<Claim>, s: Source): Option<Provenance> {
    var c := ClaimFor(claims, s.id);
    if c.None? then None else Some(ProvenanceOf(h, s, c.value))
  }

  /** The provenances are the sources, one by one. */
  lemma {:induction false} ProvenancesAre(h: Hashes, s: seq<Source>, claims: seq<Claim>, d: Provenance)
    ensures Provenances(h, s, claims).Some? <==> forall x | x in s :: ClaimFor(claims, x.id).Some?
    ensures Provenances(h, s, claims).Some? ==> Provenances(h, s, claims).value == Map(x => OrElse(ProvenanceBy(h, claims, x), d), s)
  {
    if s != [] {
      assert s[0] in s;
      ProvenancesAre(h, s[1..], claims, d);
      assert s == [s[0]] + s[1..];
    }
  }

  ghost function OrElse<T>(o: Option<T>, d: T): T { if o.Some? then o.value else d }

  lemma {:induction false} SequenceSame<T, U>(f: T -> Option<U>, g: T -> Option<U>, s: seq<T>)
    requires forall x | x in s :: f(x) == g(x)
    ensures Sequence(f, s) == Sequence(g, s)
  {
    if s != [] {
      assert s[0] in s;
      SequenceSame(f, g, s[1..]);
    }
  }

  lemma UnitsSame(f: Reference -> Option<PortableReference>, g: Reference -> Option<PortableReference>, us: seq<FactualUnit>)
    requires forall x :: f(x) == g(x)
    ensures Sequence(u => ResolveUnit(f, u), us) == Sequence(u => ResolveUnit(g, u), us)
  {
    forall u: FactualUnit ensures ResolveUnit(f, u) == ResolveUnit(g, u) { SequenceSame(f, g, u.references); }
    SequenceSame(u => ResolveUnit(f, u), u => ResolveUnit(g, u), us);
  }

  lemma PagesSame(f: Reference -> Option<PortableReference>, g: Reference -> Option<PortableReference>, l: Layout)
    requires forall x :: f(x) == g(x)
    ensures Pages(f, l) == Pages(g, l)
  {
    forall p: RawPage ensures ResolvePage(f, p) == ResolvePage(g, p) { UnitsSame(f, g, p.units); }
    SequenceSame(p => ResolvePage(f, p), p => ResolvePage(g, p), RawPages(l));
  }

  lemma SameIdsPermuted(m: seq<Claim>, n: seq<Claim>, ids: seq<nat>, other: seq<nat>)
    requires DistinctVersions(m) && DistinctVersions(n) && multiset(m) == multiset(n)
    requires forall id :: id in ids <==> id in other
    ensures SameIds(m, ids) == SameIds(n, other)
  {
    SameMembers(m, n);
    forall id ensures ClaimFor(m, id) == ClaimFor(n, id) { ClaimPermuted(m, n, id); }
  }

  lemma ProvenancesPermuted(h: Hashes, s: seq<Source>, t: seq<Source>, m: seq<Claim>, n: seq<Claim>)
    requires multiset(s) == multiset(t) && forall id :: ClaimFor(m, id) == ClaimFor(n, id)
    ensures Provenances(h, s, m).Some? <==> Provenances(h, t, n).Some?
    ensures Provenances(h, s, m).Some? ==> multiset(Provenances(h, s, m).value) == multiset(Provenances(h, t, n).value)
  {
    SameMembers(s, t);
    var d := ProvenanceOf(h, Source(0, Record(0, 0, 0, Material(0, 0, 0, 0, true, 0, 0))),
                          Claim(0, true, true, PortableClaim(0, 0, 0, 0, 0, 0, 0, 0, 0, 0)));
    var f := x => OrElse(ProvenanceBy(h, m, x), d);
    ProvenancesAre(h, s, m, d);
    ProvenancesAre(h, t, n, d);
    MapSame(f, x => OrElse(ProvenanceBy(h, n, x), d), t);
    MapPermuted(f, s, t);
  }

  lemma {:induction false} MapSame<T, U>(f: T -> U, g: T -> U, s: seq<T>)
    requires forall x :: f(x) == g(x)
    ensures Map(f, s) == Map(g, s)
  {
  }

  lemma TextsPermuted(m: seq<Claim>, n: seq<Claim>)
    requires multiset(m) == multiset(n)
    ensures multiset(Texts(m)) == multiset(Texts(n))
  {
    MapPermuted((c: Claim) => c.text, m, n);
    assert Texts(m) == Map((c: Claim) => c.text, m) && Texts(n) == Map((c: Claim) => c.text, n);
  }

  lemma PagesPermuted(h: Hashes, s: seq<Source>, t: seq<Source>, m: seq<Claim>, n: seq<Claim>, l: Layout)
    requires DistinctIds(s) && DistinctIds(t) && multiset(s) == multiset(t)
    requires DistinctVersions(m) && DistinctVersions(n) && multiset(m) == multiset(n)
    ensures ResolvedPages(h, s, m, l) == ResolvedPages(h, t, n, l)
  {
    forall x ensures Resolve(h, s, m, x) == Resolve(h, t, n, x) {
      LookupPermuted(s, t, x.sourceVersion);
      ClaimPermuted(m, n, x.sourceVersion);
    }
    PagesSame(x => Resolve(h, s, m, x), x => Resolve(h, t, n, x), l);
  }

  lemma PartsPermuted(h: Hashes, ids: seq<nat>, other: seq<nat>, s: seq<Source>, t: seq<Source>, m: seq<Claim>, n: seq<Claim>, l: Layout)
    requires DistinctIds(s) && DistinctIds(t) && multiset(s) == multiset(t)
    requires DistinctVersions(m) && DistinctVersions(n) && multiset(m) == multiset(n)
    requires forall id :: id in ids <==> id in other
    ensures SameIds(m, ids) == SameIds(n, other) && multiset(Texts(m)) == multiset(Texts(n))
    ensures Provenances(h, s, m).Some? <==> Provenances(h, t, n).Some?
    ensures Provenances(h, s, m).Some? ==> multiset(Provenances(h, s, m).value) == multiset(Provenances(h, t, n).value)
    ensures ResolvedPages(h, s, m, l) == ResolvedPages(h, t, n, l)
  {
    SameIdsPermuted(m, n, ids, other);
    forall id ensures ClaimFor(m, id) == ClaimFor(n, id) { ClaimPermuted(m, n, id); }
    ProvenancesPermuted(h, s, t, m, n);
    TextsPermuted(m, n);
    PagesPermuted(h, s, t, m, n, l);
  }

  /** Whatever the order of rows and manifest, the same parts are gathered, in some order. */
  lemma GatherPermuted(h: Hashes, ids: seq<nat>, other: seq<nat>, s: seq<Source>, t: seq<Source>, m: seq<Claim>, n: seq<Claim>, l: Layout)
    requires DistinctIds(s) && DistinctIds(t) && multiset(s) == multiset(t) && multiset(m) == multiset(n)
    requires forall id :: id in ids <==> id in other
    ensures var a, b := Gather(h, ids, s, m, l), Gather(h, other, t, n, l);
            && (a.Some? <==> b.Some?)
            && (a.Some? ==>
                  && multiset(a.value.provenance) == multiset(b.value.provenance)
                  && multiset(a.value.claims) == multiset(b.value.claims) && a.value.pages == b.value.pages)
  {
    BindPermuted(h, s, t, m, n);
    assert |m| == |multiset(m)| == |multiset(n)| == |n|;
    if m != [] && Bind(h, s, m).Some? {
      PartsPermuted(h, ids, other, s, t, m, n, l);
      GatherIs(h, ids, s, m, l);
      GatherIs(h, other, t, n, l);
    }
  }

  lemma GatherIs(h: Hashes, ids: seq<nat>, s: seq<Source>, m: seq<Claim>, l: Layout)
    requires m != [] && Bind(h, s, m) == Some(m)
    ensures Gather(h, ids, s, m, l)
            == if SameIds(m, ids) && Provenances(h, s, m).Some? && ResolvedPages(h, s, m, l).Some?
               then Some(Parts(Provenances(h, s, m).value, Texts(m), ResolvedPages(h, s, m, l).value)) else None
  {
  }

  /** Equal version identities mean equal provenance, and equal claim ids equal claims. */
  ghost predicate Tellable(p: Parts) {
    Decides((x: Provenance) => x.version, p.provenance) && Decides((x: PortableClaim) => x.claimId, p.claims)
  }

  lemma PayloadIgnoresRowOrder(h: Hashes, ids: RowIds, other: RowIds, s: seq<Source>, t: seq<Source>, c: Content, n: seq<Claim>,
                               warnings: seq<nat>, others: seq<nat>, revision: nat, approval: nat)
    requires DistinctIds(s) && DistinctIds(t) && multiset(s) == multiset(t)
    requires multiset(c.manifest) == multiset(n) && multiset(warnings) == multiset(others)
    requires forall id :: id in ids.sourceVersions <==> id in other.sourceVersions
    requires var parts := Gather(h, ids.sourceVersions, s, c.manifest, c.layout); parts.Some? ==> Tellable(parts.value)
    ensures Payload(h, ids, s, c, warnings, revision, approval) == Payload(h, other, t, c.(manifest := n), others, revision, approval)
  {
    ByIdOfDistinct(s);
    ByIdOfDistinct(t);
    GatherPermuted(h, ids.sourceVersions, other.sourceVersions, s, t, c.manifest, n, c.layout);
    var a := Gather(h, ids.sourceVersions, s, c.manifest, c.layout);
    var b := Gather(h, other.sourceVersions, t, n, c.layout);
    if a.Some? {
      SortPermuted((p: Provenance) => p.version, a.value.provenance, b.value.provenance);
      SortPermuted((p: PortableClaim) => p.claimId, a.value.claims, b.value.claims);
      SortPermuted((w: nat) => w, warnings, others);
    }
  }

  /**
    Source rows, manifest entries and warnings in any other order give the same export id, payload and Markdown, as
    long as row ids are unique, version identities tell provenances apart, and claim ids tell claims apart.
   */
  lemma ExportIgnoresRowOrder(h: Hashes, ids: RowIds, other: RowIds, s: seq<Source>, t: seq<Source>, c: Content, n: seq<Claim>,
                              warnings: seq<nat>, others: seq<nat>, revision: nat, approval: nat)
    requires DistinctIds(s) && DistinctIds(t) && multiset(s) == multiset(t)
    requires multiset(c.manifest) == multiset(n) && multiset(warnings) == multiset(others)
    requires forall id :: id in ids.sourceVersions <==> id in other.sourceVersions
    requires var parts := Gather(h, ids.sourceVersions, s, c.manifest, c.layout); parts.Some? ==> Tellable(parts.value)
    ensures Intent(h, ids, s, c, warnings, revision, approval) == Intent(h, other, t, c.(manifest := n), others, revision, approval)
  {
    PayloadIgnoresRowOrder(h, ids, other, s, t, c, n, warnings, others, revision, approval);
  }
}
