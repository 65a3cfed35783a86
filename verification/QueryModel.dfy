/** The query part of the URL key: percent-encoding of octets, components, tracking keys and their order. */
module QueryModel {
  import opened Common

  // ---------------------------------------------------------------- octets

  predicate Unreserved(c: char) {
    'A' <= c <= 'Z' || 'a' <= c <= 'z' || '0' <= c <= '9' || c == '-' || c == '.' || c == '_' || c == '~'
  }

  predicate QuerySafe(c: char) { Unreserved(c) || c in "!$'()*+,;:@/?=" }

  predicate HexDigit(c: char) { '0' <= c <= '9' || 'A' <= c <= 'F' || 'a' <= c <= 'f' }

  function HexValue(c: char): (v: nat)
    requires HexDigit(c)
    ensures v < 16
  {
    if c <= '9' then c as int - 48 else if c <= 'F' then c as int - 55 else c as int - 87
  }

  function UpperHex(v: nat): (c: char)
    requires v < 16
    ensures HexDigit(c) && !('a' <= c <= 'f') && HexValue(c) == v
  {
    if v < 10 then (48 + v) as char else (55 + v) as char
  }

  function Pair(a: char, b: char): byte
    requires HexDigit(a) && HexDigit(b)
  {
    16 * HexValue(a) + HexValue(b)
  }

  function Escape(b: byte): (s: string)
    ensures |s| == 3 && s[0] == '%' && HexDigit(s[1]) && HexDigit(s[2]) && Pair(s[1], s[2]) == b
  {
    ['%', UpperHex(b / 16), UpperHex(b % 16)]
  }

  function EscapeAll(bs: seq<byte>): string { if bs == [] then "" else Escape(bs[0]) + EscapeAll(bs[1..]) }

  /** The UTF-8 encoding of a scalar value. */
  function Utf8(c: char): (bs: seq<byte>)
    ensures bs != []
  {
    var n := c as int;
    if n < 0x80 then [n]
    else if n < 0x800 then [0xC0 + n / 64, 0x80 + n % 64]
    else if n < 0x10000 then [0xE0 + n / 4096, 0x80 + n / 64 % 64, 0x80 + n % 64]
    else [0xF0 + n / 262144, 0x80 + n / 4096 % 64, 0x80 + n / 64 % 64, 0x80 + n % 64]
  }

  /** A well-formed percent triplet at the front. */
  predicate Triplet(s: string) { |s| >= 3 && s[0] == '%' && HexDigit(s[1]) && HexDigit(s[2]) }

  function Recoded(b: byte): string { if Unreserved(b as char) then [b as char] else Escape(b) }

  function Coded(c: char): string {
    if QuerySafe(c) then [c] else if c as int < 128 then Escape(c as int) else EscapeAll(Utf8(c))
  }

  /** _normalize_query_octets; None is its refusal of a malformed escape. */
  function Octets(s: string): Option<string> {
    if s == "" then Some("")
    else if s[0] == '%' then
      if !Triplet(s) then None
      else
        var rest := Octets(s[3..]);
        if rest.None? then None else Some(Recoded(Pair(s[1], s[2])) + rest.value)
    else
      var rest := Octets(s[1..]);
      if rest.None? then None else Some(Coded(s[0]) + rest.value)
  }

  /** The bytes that a string stands for (section 2 of RFC 3986): triplets decoded, everything else in UTF-8. */
  function Bytes(s: string): seq<byte> {
    if s == "" then []
    else if Triplet(s) then [Pair(s[1], s[2])] + Bytes(s[3..])
    else Utf8(s[0]) + Bytes(s[1..])
  }

  // ---------------------------------------------------------------- components

  datatype Component = Invalid | Dropped | Kept(text: string)

  function Lower(s: string): string {
    seq(|s|, i requires 0 <= i < |s| => if 'A' <= s[i] <= 'Z' then (s[i] as int + 32) as char else s[i])
  }

  predicate Tracking(key: string) {
    "utm_" <= Lower(key) || Lower(key) in ["fbclid", "gclid", "mc_cid", "mc_eid"]
  }

  /** Index of the first such character, or the length. */
  function Find(s: string, c: char): (i: nat)
    ensures i <= |s| && (i < |s| ==> s[i] == c) && forall k | 0 <= k < i :: s[k] != c
  {
    if s == "" || s[0] == c then 0 else 1 + Find(s[1..], c)
  }

  /** _normalize_query_component; the value of a tracking key is not looked at. */
  function Normalize(component: string): Component {
    var cut := Find(component, '=');
    var key := Octets(component[..cut]);
    if key.None? then Invalid
    else if Tracking(key.value) then Dropped
    else if cut == |component| then Kept(key.value)
    else
      var value := Octets(component[cut + 1..]);
      if value.None? then Invalid else Kept(key.value + "=" + value.value)
  }

  function Split(q: string): (cs: seq<string>)
    ensures cs != []
    decreases |q|
  {
    var cut := Find(q, '&');
    if cut == |q| then [q] else [q[..cut]] + Split(q[cut + 1..])
  }

  function Join(cs: seq<string>): string {
    if cs == [] then "" else if |cs| == 1 then cs[0] else cs[0] + "&" + Join(cs[1..])
  }

  /** What a classification keeps of the components, in order; None when one is invalid. */
  function Collect(f: string -> Component, cs: seq<string>): Option<seq<string>> {
    if cs == [] then Some([])
    else
      var rest := Collect(f, cs[1..]);
      match f(cs[0])
      case Invalid => None
      case Dropped => rest
      case Kept(text) => if rest.None? then None else Some([text] + rest.value)
  }

  function Remaining(cs: seq<string>): Option<seq<string>> { Collect(Normalize, cs) }

  // ---------------------------------------------------------------- order

  /** Code point order. */
  predicate Leq(a: string, b: string) {
    a == "" || (b != "" && (a[0] < b[0] || (a[0] == b[0] && Leq(a[1..], b[1..]))))
  }

  function Insert(x: string, s: seq<string>): seq<string> {
    if s == [] then [x] else if Leq(x, s[0]) then [x] + s else [s[0]] + Insert(x, s[1..])
  }

  function Sort(s: seq<string>): seq<string> { if s == [] then [] else Insert(s[0], Sort(s[1..])) }

  /** The query of canonicalize_url. */
  function Canonical(q: string): Option<string> {
    var rest := if q == "" then Some([]) else Remaining(Split(q));
    if rest.None? then None else Some(Join(Sort(rest.value)))
  }
}
