/** What the query key says: which queries it takes, and what it keeps of them, in both directions. */
module QueryMeaning {
  import opened Common
  import opened QueryModel
  import opened Query

  // ---------------------------------------------------------------- octets

  /** Every percent sign begins a triplet. */
  predicate WellEscaped(s: string) {
    forall i | 0 <= i < |s| && s[i] == '%' :: i + 2 < |s| && HexDigit(s[i + 1]) && HexDigit(s[i + 2])
  }

  /** A character that may stand for itself or delimit, or an octet of data. */
  datatype Token = Delimiter(c: char) | Data(b: byte)

  function DataOf(bs: seq<byte>): seq<Token> { seq(|bs|, i requires 0 <= i < |bs| => Data(bs[i])) }

  /** What a string says: triplets, unreserved and unsafe characters are data, the other safe ones delimiters. */
  function Said(s: string): seq<Token> {
    if s == "" then []
    else if Triplet(s) then [Data(Pair(s[1], s[2]))] + Said(s[3..])
    else if QuerySafe(s[0]) && !Unreserved(s[0]) then [Delimiter(s[0])] + Said(s[1..])
    else DataOf(Utf8(s[0])) + Said(s[1..])
  }

  lemma SaidTriplet(b: byte, rest: string)
    ensures Said(Escape(b) + rest) == [Data(b)] + Said(rest)
  {
    assert (Escape(b) + rest)[3..] == rest;
  }

  lemma SaidRecoded(b: byte, rest: string)
    ensures Said(Recoded(b) + rest) == [Data(b)] + Said(rest)
  {
    if Unreserved(b as char) {
      assert ([b as char] + rest)[1..] == rest;
      assert DataOf([b]) == [Data(b)];
    } else {
      SaidTriplet(b, rest);
    }
  }

  lemma {:induction false} SaidTriplets(bs: seq<byte>, rest: string)
    ensures Said(EscapeAll(bs) + rest) == DataOf(bs) + Said(rest)
  {
    if bs == [] {
      assert EscapeAll(bs) + rest == rest;
    } else {
      EscapeHead(bs, rest);
      SaidTriplet(bs[0], EscapeAll(bs[1..]) + rest);
      SaidTriplets(bs[1..], rest);
      DataHead(bs, Said(rest));
    }
  }

  lemma DataHead(bs: seq<byte>, more: seq<Token>)
    requires bs != []
    ensures DataOf(bs) + more == [Data(bs[0])] + (DataOf(bs[1..]) + more)
  {
  }

  lemma SaidCoded(s: string, rest: string)
    requires s != "" && s[0] != '%'
    ensures Said(Coded(s[0]) + rest) == (if QuerySafe(s[0]) && !Unreserved(s[0]) then [Delimiter(s[0])] else DataOf(Utf8(s[0]))) + Said(rest)
  {
    if QuerySafe(s[0]) {
      assert ([s[0]] + rest)[1..] == rest;
    } else if s[0] as int < 128 {
      SaidTriplet(s[0] as int, rest);
      assert DataOf(Utf8(s[0])) == [Data(s[0] as int)];
    } else {
      SaidTriplets(Utf8(s[0]), rest);
    }
  }

  lemma {:induction false} OctetsSaySame(s: string)
    ensures Octets(s).Some? <==> WellEscaped(s)
    ensures Octets(s).Some? ==> Said(Octets(s).value) == Said(s)
  {
    if s != "" {
      var k := if Triplet(s) then 3 else 1;
      OctetsSaySame(s[k..]);
      EscapedAfter(s, k);
      if s[0] == '%' {
        if Octets(s).Some? { SaidRecoded(Pair(s[1], s[2]), Octets(s[3..]).value); }
      } else if Octets(s).Some? {
        SaidCoded(s, Octets(s[1..]).value);
      }
    }
  }

  lemma EscapedAfter(s: string, k: nat)
    requires s != "" && k == if Triplet(s) then 3 else 1
    ensures WellEscaped(s) <==> WellEscaped(s[k..]) && (s[0] == '%' ==> Triplet(s))
  {
    var t := s[k..];
    if WellEscaped(s) {
      forall i | 0 <= i < |t| && t[i] == '%' ensures i + 2 < |t| && HexDigit(t[i + 1]) && HexDigit(t[i + 2]) {
        assert s[i + k] == '%';
      }
    }
    if WellEscaped(t) && (s[0] == '%' ==> Triplet(s)) {
      forall i | 0 <= i < |s| && s[i] == '%' ensures i + 2 < |s| && HexDigit(s[i + 1]) && HexDigit(s[i + 2]) {
        if i >= k { assert t[i - k] == '%'; }
      }
    }
  }

  /** What is normal is determined by what it says. */
  lemma {:induction false} NormalIsUnique(a: string, b: string)
    requires Normal(a) && Normal(b) && Said(a) == Said(b)
    ensures a == b
    decreases |a|
  {
    if a == "" || b == "" {
      if a != "" { var _ := NormalSaysFirst(a); }
      if b != "" { var _ := NormalSaysFirst(b); }
    } else {
      var k := NormalSaysFirst(a);
      var l := NormalSaysFirst(b);
      assert Said(a)[0] == Said(b)[0];
      assert k == l && a[..k] == b[..l];
      assert Said(a)[1..] == Said(a[k..]) && Said(b)[1..] == Said(b[l..]);
      NormalIsUnique(a[k..], b[l..]);
      assert a == a[..k] + a[k..] && b == b[..l] + b[l..];
    }
  }

  /** The first token of a normal string, and how it is written. */
  lemma NormalSaysFirst(a: string) returns (k: nat)
    requires Normal(a) && a != ""
    ensures 1 <= k <= |a| && Normal(a[k..]) && Said(a) != [] && Said(a) == [Said(a)[0]] + Said(a[k..])
    ensures a[..k] == match Said(a)[0] case Delimiter(c) => [c] case Data(b) => Recoded(b)
  {
    if QuerySafe(a[0]) {
      k := 1;
      if Unreserved(a[0]) { assert DataOf(Utf8(a[0])) == [Data(a[0] as int)]; }
    } else {
      k := 3;
    }
  }

  /** The normal form is the one normal string that says the same, and exists exactly for what is well escaped. */
  lemma OctetsExactly(s: string, r: string)
    ensures Octets(s) == Some(r) <==> WellEscaped(s) && Normal(r) && Said(r) == Said(s)
  {
    OctetsSaySame(s);
    if Octets(s).Some? {
      OctetsAreNormal(s);
      if Normal(r) && Said(r) == Said(s) { NormalIsUnique(r, Octets(s).value); }
    }
  }

  // ---------------------------------------------------------------- components

  /** The same letters, in either case; `b` is in lower case. */
  predicate SameLetters(a: string, b: string) {
    |a| == |b| && forall i | 0 <= i < |a| :: a[i] == b[i] || ('a' <= b[i] <= 'z' && a[i] as int == b[i] as int - 32)
  }

  /** A key that only tells where a visitor came from. */
  predicate TellsOrigin(key: string) {
    || (|key| >= 4 && SameLetters(key[..4], "utm_"))
    || SameLetters(key, "fbclid") || SameLetters(key, "gclid") || SameLetters(key, "mc_cid") || SameLetters(key, "mc_eid")
  }

  lemma LowerLetters(a: string, b: string)
    requires forall i | 0 <= i < |b| :: 'a' <= b[i] <= 'z' || b[i] == '_'
    ensures Lower(a) == b <==> SameLetters(a, b)
  {
    if SameLetters(a, b) {
      forall i | 0 <= i < |a| ensures Lower(a)[i] == b[i] {}
    }
    if Lower(a) == b {
      forall i | 0 <= i < |a| ensures a[i] == b[i] || ('a' <= b[i] <= 'z' && a[i] as int == b[i] as int - 32) {
        assert Lower(a)[i] == b[i];
      }
    }
  }

  lemma TrackingExactly(key: string)
    ensures Tracking(key) <==> TellsOrigin(key)
  {
    LowerLetters(key, "fbclid");
    LowerLetters(key, "gclid");
    LowerLetters(key, "mc_cid");
    LowerLetters(key, "mc_eid");
    if |key| >= 4 {
      LowerLetters(key[..4], "utm_");
      assert Lower(key)[..4] == Lower(key[..4]);
    }
  }

  /** A component with or without an equals sign. */
  function Written(key: string, value: Option<string>): string { if value.None? then key else key + "=" + value.value }

  predicate NormalOf(r: string, s: string) { WellEscaped(s) && Normal(r) && Said(r) == Said(s) }

  /** A component goes if and only if its key tells the origin, whatever its value; it is refused if what counts is ill escaped. */
  lemma ComponentMeans(key: string, value: Option<string>)
    requires '=' !in key
    ensures var c := Normalize(Written(key, value));
            && (c == Dropped <==> exists k :: NormalOf(k, key) && TellsOrigin(k))
            && (c == Invalid <==> !WellEscaped(key) || (c != Dropped && value.Some? && !WellEscaped(value.value)))
  {
    ComponentParts(key, value);
    if Octets(key).Some? { KeyMeans(key); } else { OctetsSaySame(key); }
    if value.Some? { OctetsSaySame(value.value); }
  }

  lemma KeyMeans(key: string)
    requires Octets(key).Some?
    ensures WellEscaped(key) && (Tracking(Octets(key).value) <==> exists k :: NormalOf(k, key) && TellsOrigin(k))
  {
    var k := Octets(key).value;
    OctetsExactly(key, k);
    TrackingExactly(k);
    if j :| NormalOf(j, key) && TellsOrigin(j) { OctetsExactly(key, j); }
    assert NormalOf(k, key);
  }

  lemma ComponentParts(key: string, value: Option<string>)
    requires '=' !in key
    ensures Normalize(Written(key, value)) ==
            if Octets(key).None? then Invalid
            else if Tracking(Octets(key).value) then Dropped
            else if value.None? then Kept(Octets(key).value)
            else if Octets(value.value).None? then Invalid
            else Kept(Octets(key).value + "=" + Octets(value.value).value)
  {
    var text := Written(key, value);
    if value.None? {
      FindAt(key, '=', "");
      assert key + "" == key && key[..|key|] == key;
    } else {
      CutPair(key, value.value);
    }
  }

  /** What is kept of a component: the normal forms of its key and of its value, and the equals sign if it had one. */
  lemma KeptMeans(key: string, value: Option<string>, text: string)
    requires '=' !in key
    ensures Normalize(Written(key, value)) == Kept(text) <==>
            exists k, v :: NormalOf(k, key) && !TellsOrigin(k) && text == Written(k, v)
                           && (match value case None => v.None? case Some(w) => v.Some? && NormalOf(v.value, w))
  {
    ComponentParts(key, value);
    OctetsSaySame(key);
    if Octets(key).Some? {
      var k := Octets(key).value;
      OctetsExactly(key, k);
      TrackingExactly(k);
      if value.Some? && Octets(value.value).Some? { OctetsExactly(value.value, Octets(value.value).value); }
    }
    if Normalize(Written(key, value)) == Kept(text) {
      var k, v := Octets(key).value, if value.None? then None else Octets(value.value);
      assert NormalOf(k, key) && !TellsOrigin(k) && text == Written(k, v);
    }
    if k, v :| NormalOf(k, key) && !TellsOrigin(k) && text == Written(k, v)
               && (match value case None => v.None? case Some(w) => v.Some? && NormalOf(v.value, w)) {
      OctetsExactly(key, k);
      if value.Some? { OctetsExactly(value.value, v.value); }
    }
  }

  // ---------------------------------------------------------------- whole queries

  /** How many components are kept as this text. */
  function Times(cs: seq<string>, text: string): nat {
    if cs == [] then 0 else (if Normalize(cs[0]) == Kept(text) then 1 else 0) + Times(cs[1..], text)
  }

  lemma {:induction false} RemainingCounts(cs: seq<string>, text: string)
    requires Remaining(cs).Some?
    ensures multiset(Remaining(cs).value)[text] == Times(cs, text)
  {
    if cs != [] {
      RemainingCounts(cs[1..], text);
      if Normalize(cs[0]).Kept? {
        assert Remaining(cs).value == [Normalize(cs[0]).text] + Remaining(cs[1..]).value;
      }
    }
  }

  /** The components are those of the query, sorted: each text as often as the query has components that are kept as it. */
  ghost predicate Tells(cs: seq<string>, kept: seq<string>) {
    Sorted(kept) && forall text :: multiset(kept)[text] == Times(cs, text)
  }

  /** A query is refused if and only if a component is; otherwise its key joins exactly the kept components, in order. */
  lemma {:induction false} CanonicalExactly(cs: seq<string>, r: string)
    requires cs != [] && (forall c | c in cs :: '&' !in c)
    ensures Canonical(Join(cs)) == Some(r) <==>
            (forall c | c in cs :: !Normalize(c).Invalid?) && exists kept :: Tells(cs, kept) && r == Join(kept)
  {
    CanonicalJoin(cs);
    CollectValid(Normalize, cs);
    if Remaining(cs).Some? {
      var rest := Remaining(cs).value;
      SortSorts(rest);
      forall text ensures multiset(rest)[text] == Times(cs, text) { RemainingCounts(cs, text); }
      assert Tells(cs, Sort(rest));
      if kept :| Tells(cs, kept) && r == Join(kept) {
        assert multiset(kept) == multiset(rest);
        SortedIsUnique(kept, Sort(rest));
      }
    }
  }

  /** Every query is the join of components without ampersand. */
  lemma {:induction false} EveryQueryIsJoined(q: string)
    ensures Join(Split(q)) == q && Split(q) != [] && forall c | c in Split(q) :: '&' !in c
    decreases |q|
  {
    var cut := Find(q, '&');
    if cut < |q| {
      EveryQueryIsJoined(q[cut + 1..]);
      assert q == q[..cut] + "&" + q[cut + 1..];
    }
  }
}
