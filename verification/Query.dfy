/** What the query key preserves and what it ignores (section 6.2.2 of RFC 3986). */
module Query {
  import opened Common
  import opened Permutations
  import opened QueryModel

  /** _normalize_query_octets as it runs: an index loop that appends to a list of pieces. */
  method NormalizeQueryOctets(value: string) returns (r: Option<string>)
    ensures r == Octets(value)
  {
    var output := "";
    var index := 0;
    assert value[0..] == value;
    if Octets(value).Some? { assert "" + Octets(value).value == Octets(value).value; }
    while index < |value|
      invariant index <= |value|
      invariant Octets(value) == Prefixed(output, Octets(value[index..]))
    {
      var character := value[index];
      assert value[index..][0] == character;
      if character == '%' {
        if index + 2 >= |value| || !HexDigit(value[index + 1]) || !HexDigit(value[index + 2]) { return None; }
        assert value[index..][3..] == value[index + 3..];
        var b := Pair(value[index + 1], value[index + 2]);
        var decoded := b as char;
        var piece := if Unreserved(decoded) then [decoded] else Escape(b);
        PrefixedTwice(output, piece, Octets(value[index + 3..]));
        output := output + piece;
        index := index + 3;
      } else {
        assert value[index..][1..] == value[index + 1..];
        var piece := if QuerySafe(character) then [character]
                     else if character as int < 128 then Escape(character as int) else EscapeAll(Utf8(character));
        PrefixedTwice(output, piece, Octets(value[index + 1..]));
        output := output + piece;
        index := index + 1;
      }
    }
    assert value[index..] == "" && output + "" == output;
    return Some(output);
  }

  ghost function Prefixed(s: string, r: Option<string>): Option<string> {
    if r.None? then None else Some(s + r.value)
  }

  lemma PrefixedTwice(a: string, b: string, r: Option<string>)
    ensures Prefixed(a, Prefixed(b, r)) == Prefixed(a + b, r)
  {
    if r.Some? { assert a + (b + r.value) == (a + b) + r.value; }
  }

  // ---------------------------------------------------------------- octets

  /** Normalization keeps the bytes that the string stands for. */
  lemma {:induction false} OctetsKeepBytes(s: string)
    requires Octets(s).Some?
    ensures Bytes(Octets(s).value) == Bytes(s)
  {
    if s != "" {
      if s[0] == '%' {
        OctetsKeepBytes(s[3..]);
        RecodedBytes(Pair(s[1], s[2]), Octets(s[3..]).value);
      } else {
        OctetsKeepBytes(s[1..]);
        CodedBytes(s[0], Octets(s[1..]).value);
      }
    }
  }

  lemma RecodedBytes(b: byte, rest: string)
    ensures Bytes(Recoded(b) + rest) == [b] + Bytes(rest)
  {
    if Unreserved(b as char) { LiteralBytes(b as char, rest); } else { EscapeBytes(b, rest); }
  }

  lemma EscapeBytes(b: byte, rest: string)
    ensures Bytes(Escape(b) + rest) == [b] + Bytes(rest)
  {
    assert (Escape(b) + rest)[3..] == rest;
  }

  lemma LiteralBytes(c: char, rest: string)
    requires c != '%'
    ensures Bytes([c] + rest) == Utf8(c) + Bytes(rest)
  {
    assert ([c] + rest)[1..] == rest;
  }

  lemma {:induction false} EscapeAllBytes(bs: seq<byte>, rest: string)
    ensures Bytes(EscapeAll(bs) + rest) == bs + Bytes(rest)
  {
    if bs == [] {
      assert EscapeAll(bs) + rest == rest;
    } else {
      assert EscapeAll(bs) + rest == Escape(bs[0]) + (EscapeAll(bs[1..]) + rest);
      EscapeBytes(bs[0], EscapeAll(bs[1..]) + rest);
      EscapeAllBytes(bs[1..], rest);
    }
  }

  lemma CodedBytes(c: char, rest: string)
    requires c != '%'
    ensures Bytes(Coded(c) + rest) == Utf8(c) + Bytes(rest)
  {
    if QuerySafe(c) { LiteralBytes(c, rest); }
    else if c as int < 128 { EscapeBytes(c as int, rest); }
    else { EscapeAllBytes(Utf8(c), rest); }
  }

  /** Safe characters, and upper-case triplets of bytes that need one. */
  predicate Normal(s: string) {
    || s == ""
    || (QuerySafe(s[0]) && Normal(s[1..]))
    || (Triplet(s) && Escape(Pair(s[1], s[2])) == s[..3] && !Unreserved(Pair(s[1], s[2]) as char) && Normal(s[3..]))
  }

  lemma NormalTriplet(b: byte, rest: string)
    requires Normal(rest) && !Unreserved(b as char)
    ensures Normal(Escape(b) + rest)
  {
    var s := Escape(b) + rest;
    assert s[..3] == Escape(b) && s[3..] == rest;
  }

  lemma EscapeHead(bs: seq<byte>, rest: string)
    requires bs != []
    ensures EscapeAll(bs) + rest == Escape(bs[0]) + (EscapeAll(bs[1..]) + rest)
  {
  }

  lemma {:induction false} NormalTriplets(bs: seq<byte>, rest: string)
    requires Normal(rest) && forall i | 0 <= i < |bs| :: !Unreserved(bs[i] as char)
    ensures Normal(EscapeAll(bs) + rest)
  {
    if bs == [] {
      assert EscapeAll(bs) + rest == rest;
    } else {
      NormalTriplets(bs[1..], rest);
      EscapeHead(bs, rest);
      NormalTriplet(bs[0], EscapeAll(bs[1..]) + rest);
    }
  }

  lemma NormalCoded(c: char, rest: string)
    requires Normal(rest)
    ensures Normal(Coded(c) + rest)
  {
    if QuerySafe(c) { assert ([c] + rest)[1..] == rest; }
    else if c as int < 128 { NormalTriplet(c as int, rest); }
    else {
      forall b | b in Utf8(c) ensures !Unreserved(b as char) { assert b >= 128; }
      NormalTriplets(Utf8(c), rest);
    }
  }

  /** The output is normal. */
  lemma {:induction false} OctetsAreNormal(s: string)
    requires Octets(s).Some?
    ensures Normal(Octets(s).value)
  {
    if s != "" {
      if s[0] == '%' {
        var b := Pair(s[1], s[2]);
        OctetsAreNormal(s[3..]);
        if Unreserved(b as char) { NormalCoded(b as char, Octets(s[3..]).value); }
        else { NormalTriplet(b, Octets(s[3..]).value); }
      } else {
        OctetsAreNormal(s[1..]);
        NormalCoded(s[0], Octets(s[1..]).value);
      }
    }
  }

  /** And what is normal is left alone. */
  lemma {:induction false} NormalIsFixed(s: string)
    requires Normal(s)
    ensures Octets(s) == Some(s)
  {
    if s != "" {
      if QuerySafe(s[0]) {
        NormalIsFixed(s[1..]);
        assert s == [s[0]] + s[1..];
      } else {
        NormalIsFixed(s[3..]);
        assert s == s[..3] + s[3..];
      }
    }
  }

  lemma OctetsIdempotent(s: string)
    requires Octets(s).Some?
    ensures Octets(Octets(s).value) == Octets(s)
  {
    OctetsAreNormal(s);
    NormalIsFixed(Octets(s).value);
  }

  /** Characters of a normal string: no ampersand, nothing beyond ASCII. */
  lemma {:induction false} NormalCharacters(s: string, i: nat)
    requires Normal(s) && i < |s|
    ensures s[i] != '&' && s[i] as int < 128
  {
    if QuerySafe(s[0]) {
      if i > 0 { NormalCharacters(s[1..], i - 1); }
    } else if i >= 3 {
      NormalCharacters(s[3..], i - 3);
    } else {
      assert s[..3][i] == s[i];
    }
  }

  /** Normalization brings in no equals sign. */
  lemma {:induction false} NoNewEquals(s: string)
    requires Octets(s).Some? && '=' !in s
    ensures '=' !in Octets(s).value
  {
    if s != "" {
      if s[0] == '%' {
        NoNewEquals(s[3..]);
      } else {
        NoNewEquals(s[1..]);
        if !QuerySafe(s[0]) && s[0] as int >= 128 { NoEqualsInTriplets(Utf8(s[0])); }
      }
    }
  }

  lemma {:induction false} NoEqualsInTriplets(bs: seq<byte>)
    ensures '=' !in EscapeAll(bs)
  {
    if bs != [] { NoEqualsInTriplets(bs[1..]); }
  }

  // ---------------------------------------------------------------- components

  lemma {:induction false} FindAt(a: string, c: char, rest: string)
    requires c !in a && (rest == "" || rest[0] == c)
    ensures Find(a + rest, c) == |a|
  {
    if a == "" {
      assert a + rest == rest;
    } else {
      assert a[0] != c;
      assert (a + rest)[1..] == a[1..] + rest;
      FindAt(a[1..], c, rest);
    }
  }

  /** A kept component is normal on both sides of its first equals sign, and is kept as it is. */
  lemma KeptIsFixed(component: string)
    requires Normalize(component).Kept?
    ensures Normalize(Normalize(component).text) == Normalize(component) && '&' !in Normalize(component).text
  {
    var cut := Find(component, '=');
    var key := Octets(component[..cut]).value;
    OctetsAreNormal(component[..cut]);
    NormalIsFixed(key);
    NoNewEquals(component[..cut]);
    NoAmpersand(key);
    if cut == |component| {
      FindAt(key, '=', "");
      assert key + "" == key && key[..|key|] == key;
    } else {
      OctetsAreNormal(component[cut + 1..]);
      PairIsFixed(key, Octets(component[cut + 1..]).value);
    }
  }

  lemma PairIsFixed(key: string, value: string)
    requires Normal(key) && Normal(value) && '=' !in key && !Tracking(key)
    ensures Normalize(key + "=" + value) == Kept(key + "=" + value) && '&' !in key + "=" + value
  {
    NormalIsFixed(key);
    NormalIsFixed(value);
    NoAmpersand(key);
    NoAmpersand(value);
    CutPair(key, value);
    PartsAreKept(key + "=" + value, key, value);
  }

  lemma CutPair(key: string, value: string)
    requires '=' !in key
    ensures var text := key + "=" + value;
            Find(text, '=') == |key| < |text| && text[..|key|] == key && text[|key| + 1..] == value
  {
    FindAt(key, '=', "=" + value);
    assert key + "=" + value == key + ("=" + value);
  }

  lemma PartsAreKept(text: string, key: string, value: string)
    requires Find(text, '=') == |key| < |text| && text[..|key|] == key && text[|key| + 1..] == value
    requires Octets(key) == Some(key) && Octets(value) == Some(value) && !Tracking(key)
    ensures Normalize(text) == Kept(key + "=" + value)
  {
  }

  lemma NoAmpersand(s: string)
    requires Normal(s)
    ensures '&' !in s
  {
    forall i | 0 <= i < |s| ensures s[i] != '&' { NormalCharacters(s, i); }
  }

  // ---------------------------------------------------------------- order

  lemma {:induction false} LeqTotal(a: string, b: string)
    ensures Leq(a, b) || Leq(b, a)
    ensures Leq(a, b) && Leq(b, a) ==> a == b
  {
    if a != "" && b != "" && a[0] == b[0] {
      LeqTotal(a[1..], b[1..]);
      assert a == [a[0]] + a[1..] && b == [b[0]] + b[1..];
    }
  }

  lemma {:induction false} LeqTransitive(a: string, b: string, c: string)
    requires Leq(a, b) && Leq(b, c)
    ensures Leq(a, c)
  {
    if a != "" && a[0] == b[0] && b[0] == c[0] { LeqTransitive(a[1..], b[1..], c[1..]); }
  }

  ghost predicate Sorted(s: seq<string>) { forall i, j | 0 <= i < j < |s| :: Leq(s[i], s[j]) }

  lemma {:induction false} InsertSorts(x: string, s: seq<string>)
    requires Sorted(s)
    ensures Sorted(Insert(x, s)) && multiset(Insert(x, s)) == multiset{x} + multiset(s)
  {
    if s == [] {
    } else if Leq(x, s[0]) {
      forall j | 0 <= j < |s| ensures Leq(x, s[j]) { if j > 0 { LeqTransitive(x, s[0], s[j]); } }
    } else {
      InsertSorts(x, s[1..]);
      LeqTotal(x, s[0]);
      assert s == [s[0]] + s[1..];
      HeadStaysLeast(x, s, Insert(x, s[1..]));
    }
  }

  lemma HeadStaysLeast(x: string, s: seq<string>, r: seq<string>)
    requires s != [] && Sorted(s) && Leq(s[0], x) && multiset(r) == multiset{x} + multiset(s[1..])
    ensures forall j | 0 <= j < |r| :: Leq(s[0], r[j])
  {
    forall j | 0 <= j < |r| ensures Leq(s[0], r[j]) {
      assert r[j] in multiset(r);
      if r[j] != x {
        assert r[j] in multiset(s[1..]);
        var k :| 0 <= k < |s[1..]| && s[1..][k] == r[j];
        assert s[k + 1] == r[j];
      }
    }
  }

  lemma {:induction false} SortSorts(s: seq<string>)
    ensures Sorted(Sort(s)) && multiset(Sort(s)) == multiset(s)
  {
    if s != [] {
      SortSorts(s[1..]);
      InsertSorts(s[0], Sort(s[1..]));
      assert s == [s[0]] + s[1..];
    }
  }

  /** Code point order leaves one sorted arrangement. */
  lemma {:induction false} SortedIsUnique(a: seq<string>, b: seq<string>)
    requires Sorted(a) && Sorted(b) && multiset(a) == multiset(b)
    ensures a == b
  {
    if a == [] {
      assert |b| == |multiset(b)| == |multiset(a)|;
    } else {
      assert b != [] by { assert a[0] in multiset(b); }
      SmallestFirst(a, b);
      SmallestFirst(b, a);
      LeqTotal(a[0], b[0]);
      SplitAt(a, 0);
      SplitAt(b, 0);
      assert a[..0] + a[1..] == a[1..] && b[..0] + b[1..] == b[1..];
      Cancel(multiset(a[1..]), multiset(b[1..]), multiset{a[0]});
      TailSorted(a);
      TailSorted(b);
      SortedIsUnique(a[1..], b[1..]);
      assert a == [a[0]] + a[1..] && b == [b[0]] + b[1..];
    }
  }

  lemma TailSorted(a: seq<string>)
    requires a != [] && Sorted(a)
    ensures Sorted(a[1..])
  {
  }

  lemma SmallestFirst(a: seq<string>, b: seq<string>)
    requires a != [] && b != [] && Sorted(a) && multiset(a) == multiset(b)
    ensures Leq(a[0], b[0])
  {
    assert b[0] in multiset(a);
    var j :| 0 <= j < |a| && a[j] == b[0];
    LeqReflexive(a[0]);
  }

  lemma {:induction false} LeqReflexive(a: string)
    ensures Leq(a, a)
  {
    if a != "" { LeqReflexive(a[1..]); }
  }

  // ---------------------------------------------------------------- whole queries

  lemma {:induction false} SplitJoin(cs: seq<string>)
    requires cs != [] && forall c | c in cs :: '&' !in c
    ensures Split(Join(cs)) == cs
  {
    assert cs[0] in cs;
    if |cs| == 1 {
      FindAt(cs[0], '&', "");
      assert cs[0] + "" == cs[0];
    } else {
      var q := cs[0] + "&" + Join(cs[1..]);
      FindAt(cs[0], '&', "&" + Join(cs[1..]));
      assert q == cs[0] + ("&" + Join(cs[1..]));
      assert q[..|cs[0]|] == cs[0] && q[|cs[0]| + 1..] == Join(cs[1..]);
      forall c | c in cs[1..] ensures '&' !in c { assert c in cs; }
      SplitJoin(cs[1..]);
    }
  }

  ghost predicate AllValid(f: string -> Component, cs: seq<string>) { forall c | c in cs :: !f(c).Invalid? }

  lemma {:induction false} CollectValid(f: string -> Component, cs: seq<string>)
    ensures Collect(f, cs).Some? <==> AllValid(f, cs)
  {
    if cs != [] {
      CollectValid(f, cs[1..]);
      assert cs[0] in cs;
      assert cs == [cs[0]] + cs[1..];
    }
  }

  lemma {:induction false} CollectAppend(f: string -> Component, a: seq<string>, b: seq<string>)
    requires Collect(f, a).Some? && Collect(f, b).Some?
    ensures Collect(f, a + b) == Some(Collect(f, a).value + Collect(f, b).value)
  {
    if a == [] {
      assert a + b == b && [] + Collect(f, b).value == Collect(f, b).value;
    } else {
      assert (a + b)[0] == a[0] && (a + b)[1..] == a[1..] + b;
      CollectAppend(f, a[1..], b);
      if f(a[0]).Kept? {
        var x, y := Collect(f, a[1..]).value, Collect(f, b).value;
        assert [f(a[0]).text] + (x + y) == ([f(a[0]).text] + x) + y;
      }
    }
  }

  /** Reordered components leave the same bag. */
  lemma {:induction false} CollectPermuted(f: string -> Component, a: seq<string>, b: seq<string>)
    requires AllValid(f, a) && multiset(a) == multiset(b)
    ensures Collect(f, a).Some? && Collect(f, b).Some?
    ensures multiset(Collect(f, a).value) == multiset(Collect(f, b).value)
    decreases |a|
  {
    CollectValid(f, a);
    if a == [] {
      assert |b| == |multiset(b)| == |multiset(a)|;
    } else {
      var k := Without(a, b);
      var fewer := b[..k] + b[k + 1..];
      SplitAt(b, k);
      forall c | c in fewer ensures !f(c).Invalid? { assert c in multiset(fewer); assert c in multiset(a[1..]); }
      CollectOne(f, a);
      CollectPermuted(f, a[1..], fewer);
      forall c | c in b ensures !f(c).Invalid? { assert c in multiset(b); assert c in multiset(a); }
      CollectAround(f, b[..k], a[0], b[k + 1..]);
    }
  }

  lemma CollectOne(f: string -> Component, a: seq<string>)
    requires a != [] && AllValid(f, a)
    ensures Collect(f, [a[0]]).Some? && Collect(f, a[1..]).Some? && Collect(f, a).Some?
    ensures Collect(f, a).value == Collect(f, [a[0]]).value + Collect(f, a[1..]).value
  {
    CollectValid(f, [a[0]]);
    CollectValid(f, a[1..]);
    CollectAppend(f, [a[0]], a[1..]);
    assert a == [a[0]] + a[1..];
  }

  lemma CollectAround(f: string -> Component, a: seq<string>, c: string, b: seq<string>)
    requires AllValid(f, a + ([c] + b))
    ensures Collect(f, [c]).Some? && Collect(f, a + b).Some? && Collect(f, a + ([c] + b)).Some?
    ensures multiset(Collect(f, a + ([c] + b)).value) == multiset(Collect(f, [c]).value) + multiset(Collect(f, a + b).value)
  {
    forall x | x in a || x == c || x in b ensures x in a + ([c] + b) {}
    CollectValid(f, a);
    CollectValid(f, b);
    CollectValid(f, [c]);
    CollectAppend(f, [c], b);
    CollectAppend(f, a, [c] + b);
    CollectAppend(f, a, b);
  }

  lemma {:induction false} CollectKept(f: string -> Component, cs: seq<string>)
    requires forall c | c in cs :: f(c) == Kept(c)
    ensures Collect(f, cs) == Some(cs)
  {
    if cs != [] {
      assert cs[0] in cs;
      CollectKept(f, cs[1..]);
      assert cs == [cs[0]] + cs[1..];
    }
  }

  /** Whatever is collected is some component's kept text. */
  lemma {:induction false} CollectedFrom(f: string -> Component, cs: seq<string>, i: nat) returns (c: string)
    requires Collect(f, cs).Some? && i < |Collect(f, cs).value|
    ensures f(c) == Kept(Collect(f, cs).value[i])
  {
    if f(cs[0]).Kept? {
      if i == 0 { c := cs[0]; } else { c := CollectedFrom(f, cs[1..], i - 1); }
    } else {
      c := CollectedFrom(f, cs[1..], i);
    }
  }

  lemma RemainingIsFixed(cs: seq<string>, i: nat)
    requires Remaining(cs).Some? && i < |Remaining(cs).value|
    ensures var r := Remaining(cs).value[i]; Normalize(r) == Kept(r) && '&' !in r
  {
    var c := CollectedFrom(Normalize, cs, i);
    KeptIsFixed(c);
  }

  /** The canonical query of components that contain no ampersand. */
  lemma CanonicalJoin(cs: seq<string>)
    requires forall c | c in cs :: '&' !in c
    ensures Canonical(Join(cs)) == if Remaining(cs).None? then None else Some(Join(Sort(Remaining(cs).value)))
  {
    if cs != [] {
      SplitJoin(cs);
      if Join(cs) == "" {
        assert Split("") == [""];
        assert cs == [""];
        EmptyComponent();
      }
    }
  }

  lemma EmptyComponent()
    ensures Remaining([""]) == Some([""]) && Sort([""]) == [""] && Join([""]) == ""
  {
    assert Find("", '=') == 0 && ""[..0] == "";
    assert |Lower("")| == 0 && !Tracking("");
    assert Normalize("") == Kept("");
    forall c | c in [""] ensures Normalize(c) == Kept(c) {}
    CollectKept(Normalize, [""]);
  }

  /** The whole query form is idempotent. */
  lemma QueryIdempotent(q: string)
    requires Canonical(q).Some?
    ensures Canonical(Canonical(q).value) == Canonical(q)
  {
    var rest := (if q == "" then Some([]) else Remaining(Split(q))).value;
    var sorted := Sort(rest);
    SortSorts(rest);
    forall c | c in sorted ensures Normalize(c) == Kept(c) && '&' !in c {
      assert c in multiset(rest);
      var i :| 0 <= i < |rest| && rest[i] == c;
      RemainingIsFixed(Split(q), i);
    }
    CollectKept(Normalize, sorted);
    CanonicalJoin(sorted);
    SortSorts(sorted);
    SortedIsUnique(Sort(sorted), sorted);
  }

  /** Reordering components changes nothing. */
  lemma QueryIgnoresOrder(a: seq<string>, b: seq<string>)
    requires (forall c | c in a :: '&' !in c) && multiset(a) == multiset(b)
    ensures Canonical(Join(a)) == Canonical(Join(b))
  {
    SameMembers(a, b);
    CanonicalJoin(a);
    CanonicalJoin(b);
    CollectValid(Normalize, a);
    CollectValid(Normalize, b);
    if Remaining(a).Some? {
      CollectPermuted(Normalize, a, b);
      SortSorts(Remaining(a).value);
      SortSorts(Remaining(b).value);
      SortedIsUnique(Sort(Remaining(a).value), Sort(Remaining(b).value));
    }
  }

  /** A tracking component, wherever it stands and whatever its value, changes nothing. */
  lemma QueryIgnoresTracking(a: seq<string>, tracking: string, b: seq<string>)
    requires (forall c | c in a + b :: '&' !in c) && '&' !in tracking && Normalize(tracking) == Dropped
    ensures Canonical(Join(a + [tracking] + b)) == Canonical(Join(a + b))
  {
    var all := a + [tracking] + b;
    forall c | c in all ensures '&' !in c { if c != tracking { assert c in a + b; } }
    CanonicalJoin(all);
    CanonicalJoin(a + b);
    DroppedIsGone(Normalize, a, tracking, b);
  }

  lemma {:induction false} DroppedIsGone(f: string -> Component, a: seq<string>, tracking: string, b: seq<string>)
    requires f(tracking) == Dropped
    ensures Collect(f, a + [tracking] + b) == Collect(f, a + b)
  {
    if a == [] {
      assert a + [tracking] + b == [tracking] + b && a + b == b;
      assert ([tracking] + b)[1..] == b;
    } else {
      assert (a + [tracking] + b)[1..] == a[1..] + [tracking] + b;
      assert (a + b)[1..] == a[1..] + b;
      DroppedIsGone(f, a[1..], tracking, b);
    }
  }
}
