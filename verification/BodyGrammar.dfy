/** Which bytes are a body: the message format of section 7.1 of RFC 9112, as this reader takes it, in both directions. */
module BodyGrammar {
  import opened Common
  import opened BodyModel
  import opened BodyRoundTrip

  /** A size line, the data that it announces, and the line end after the data. */
  datatype Part = Part(line: seq<byte>, data: seq<byte>, close: seq<byte>)

  /** The parts, the size line of zero, the trailer lines and the blank line. */
  datatype Message = Message(parts: seq<Part>, last: seq<byte>, trailers: seq<seq<byte>>, blank: seq<byte>)

  /** A line with its line feed, not too long. */
  predicate WholeLine(l: seq<byte>) { l != [] && l[|l| - 1] == LF && LF !in l[..|l| - 1] && |l| <= MAX_HEADER_LINE }

  predicate PartOk(p: Part) {
    WholeLine(p.line) && p.data != [] && ChunkSize(p.line) == Some(|p.data|) && p.close in {[LF], [CR, LF]}
  }

  predicate TrailerOk(t: seq<byte>) { WholeLine(t) && COLON in t }

  /** The parts, and then `end`. */
  function Lay(parts: seq<Part>, end: seq<byte>): seq<byte> {
    if parts == [] then end else parts[0].line + (parts[0].data + (parts[0].close + Lay(parts[1..], end)))
  }

  /** The lines, and then `end`. */
  function LayLines(ts: seq<seq<byte>>, end: seq<byte>): seq<byte> { if ts == [] then end else ts[0] + LayLines(ts[1..], end) }

  function Lengths(ts: seq<seq<byte>>): nat { if ts == [] then 0 else |ts[0]| + Lengths(ts[1..]) }

  function Payload(parts: seq<Part>): seq<byte> { if parts == [] then [] else parts[0].data + Payload(parts[1..]) }

  ghost predicate EndOk(ts: seq<seq<byte>>, blank: seq<byte>, total: nat, count: nat) {
    && (forall i | 0 <= i < |ts| :: TrailerOk(ts[i])) && blank in {[LF], [CR, LF]}
    && (ts != [] ==> count + |ts| <= MAX_HEADER_FIELDS) && total + Lengths(ts) + |blank| <= MAX_HEADER_BYTES
  }

  ghost predicate PartsOk(parts: seq<Part>) { forall i | 0 <= i < |parts| :: PartOk(parts[i]) }

  /** Every line is whole, sizes are true, and the limits are kept, after so many bytes of body. */
  ghost predicate MessageOk(m: Message, before: nat) {
    && PartsOk(m.parts) && before + |Payload(m.parts)| <= MAX_WIRE_BYTES
    && WholeLine(m.last) && ChunkSize(m.last) == Some(0) && EndOk(m.trailers, m.blank, 0, 0)
  }

  /** The message, and then `rest`. */
  function Bytes(m: Message, rest: seq<byte>): seq<byte> { Lay(m.parts, m.last + LayLines(m.trailers, m.blank + rest)) }

  // ---------------------------------------------------------------- lines

  /** A whole line is read as it is, whatever follows; and what is read is a whole line unless the peer closed in it. */
  lemma WholeLineReads(l: seq<byte>, w: seq<byte>)
    requires WholeLine(l)
    ensures Line(l + w) == l && LineOk(l) && (l + w)[|l|..] == w
  {
    var a := l[..|l| - 1];
    assert l + w == a + ([LF] + w);
    FindAfter(a, [LF] + w);
  }

  lemma ReadLineIsWhole(w: seq<byte>)
    requires LineOk(Line(w))
    ensures WholeLine(Line(w)) || Line(w) == w
    ensures Blank(Line(w)) ==> WholeLine(Line(w)) && Line(w) in {[LF], [CR, LF]}
    ensures w == Line(w) + w[|Line(w)|..]
  {
  }

  // ---------------------------------------------------------------- trailers

  lemma BlankReads(blank: seq<byte>, rest: seq<byte>, total: nat, count: nat)
    requires blank in {[LF], [CR, LF]} && total + |blank| <= MAX_HEADER_BYTES
    ensures Trailers(blank + rest, total, count) == Ok([], rest)
  {
    WholeLineReads(blank, rest);
  }

  lemma TrailerGoesOn(t: seq<byte>, w: seq<byte>, total: nat, count: nat)
    requires TrailerOk(t) && count + 1 <= MAX_HEADER_FIELDS && total + |t| <= MAX_HEADER_BYTES
    ensures Trailers(t + w, total, count) == Trailers(w, total + |t|, count + 1)
  {
    WholeLineReads(t, w);
    assert !Blank(t);
  }

  lemma EndTail(ts: seq<seq<byte>>, blank: seq<byte>, total: nat, count: nat)
    requires EndOk(ts, blank, total, count) && ts != []
    ensures TrailerOk(ts[0]) && count + 1 <= MAX_HEADER_FIELDS && total + |ts[0]| <= MAX_HEADER_BYTES
    ensures EndOk(ts[1..], blank, total + |ts[0]|, count + 1)
  {
  }

  lemma {:induction false} EndReads(ts: seq<seq<byte>>, blank: seq<byte>, rest: seq<byte>, total: nat, count: nat, p: Parse)
    requires EndOk(ts, blank, total, count) && p == Ok([], rest)
    ensures Trailers(LayLines(ts, blank + rest), total, count) == p
    decreases |ts|
  {
    if ts == [] {
      BlankReads(blank, rest, total, count);
    } else {
      EndTail(ts, blank, total, count);
      EndReads(ts[1..], blank, rest, total + |ts[0]|, count + 1, p);
      TrailerGoesOn(ts[0], LayLines(ts[1..], blank + rest), total, count);
    }
  }

  lemma {:induction false} EndIsRead(w: seq<byte>, total: nat, count: nat) returns (ts: seq<seq<byte>>, blank: seq<byte>)
    requires Trailers(w, total, count).Ok?
    ensures EndOk(ts, blank, total, count) && w == LayLines(ts, blank + Trailers(w, total, count).rest)
    decreases |w|
  {
    var l := Line(w);
    ReadLineIsWhole(w);
    if Blank(l) {
      ts, blank := [], l;
    } else {
      ts, blank := EndIsRead(w[|l|..], total + |l|, count + 1);
      assert ([l] + ts)[1..] == ts;
      ts := [l] + ts;
    }
  }

  // ---------------------------------------------------------------- parts

  lemma PartReads(p: Part, w: seq<byte>, before: nat)
    requires PartOk(p) && before + |p.data| <= MAX_WIRE_BYTES
    ensures OneChunk(p.line + (p.data + (p.close + w)), before) == Next(p.data, w)
  {
    var rest := p.data + (p.close + w);
    WholeLineReads(p.line, rest);
    WholeLineReads(p.close, w);
    assert rest[..|p.data|] == p.data && rest[|p.data|..] == p.close + w;
  }

  lemma LastReads(m: Message, rest: seq<byte>, before: nat)
    requires WholeLine(m.last) && ChunkSize(m.last) == Some(0) && EndOk(m.trailers, m.blank, 0, 0)
    ensures OneChunk(m.last + LayLines(m.trailers, m.blank + rest), before) == Finished(rest)
  {
    WholeLineReads(m.last, LayLines(m.trailers, m.blank + rest));
    EndReads(m.trailers, m.blank, rest, 0, 0, Ok([], rest));
  }

  lemma PartIsRead(w: seq<byte>, before: nat) returns (p: Part)
    requires before <= MAX_WIRE_BYTES && OneChunk(w, before).Next?
    ensures var s := OneChunk(w, before);
            PartOk(p) && p.data == s.data && w == p.line + (p.data + (p.close + s.rest)) && before + |p.data| <= MAX_WIRE_BYTES
  {
    p := PartOf(w, ChunkSize(Line(w)).value);
  }

  lemma PartOf(w: seq<byte>, size: nat) returns (p: Part)
    requires LineOk(Line(w)) && ChunkSize(Line(w)) == Some(size) && 0 < size && |Line(w)| + size <= |w|
    requires var close := Line(w[|Line(w)|..][size..]); LineOk(close) && Blank(close)
    ensures var rest := w[|Line(w)|..];
            PartOk(p) && p.data == rest[..size] && w == p.line + (p.data + (p.close + rest[size..][|Line(rest[size..])|..]))
  {
    var line := Line(w);
    ReadLineIsWhole(w);
    var rest := w[|line|..];
    var close := Line(rest[size..]);
    ReadLineIsWhole(rest[size..]);
    p := Part(line, rest[..size], close);
    Glue(w, |line|, size, |close|);
  }

  lemma Glue(w: seq<byte>, a: nat, b: nat, c: nat)
    requires a + b + c <= |w|
    ensures w == w[..a] + (w[a..][..b] + (w[a..][b..][..c] + w[a..][b..][c..]))
  {
  }

  lemma LastIsRead(w: seq<byte>, before: nat) returns (last: seq<byte>, ts: seq<seq<byte>>, blank: seq<byte>)
    requires OneChunk(w, before).Finished?
    ensures WholeLine(last) && ChunkSize(last) == Some(0) && EndOk(ts, blank, 0, 0)
    ensures w == last + LayLines(ts, blank + OneChunk(w, before).rest)
  {
    last := Line(w);
    ReadLineIsWhole(w);
    assert w[|last|..] != [] by { if w[|last|..] == [] { assert Trailers([], 0, 0).Err?; } }
    ts, blank := EndIsRead(w[|last|..], 0, 0);
  }

  // ---------------------------------------------------------------- messages

  lemma GoesOn(w: seq<byte>, acc: seq<byte>, data: seq<byte>, rest: seq<byte>)
    requires OneChunk(w, |acc|) == Next(data, rest)
    ensures Chunks(w, acc) == Chunks(rest, acc + data)
  {
  }

  lemma EndsHere(w: seq<byte>, acc: seq<byte>, rest: seq<byte>)
    requires OneChunk(w, |acc|) == Finished(rest)
    ensures Chunks(w, acc) == Ok(acc, rest)
  {
  }

  lemma FirstPartReads(parts: seq<Part>, end: seq<byte>, acc: seq<byte>)
    requires parts != [] && PartOk(parts[0]) && |acc| + |parts[0].data| <= MAX_WIRE_BYTES
    ensures Chunks(Lay(parts, end), acc) == Chunks(Lay(parts[1..], end), acc + parts[0].data)
  {
    PartReads(parts[0], Lay(parts[1..], end), |acc|);
  }

  lemma {:induction false} PartsRead(parts: seq<Part>, end: seq<byte>, acc: seq<byte>, p: Parse)
    requires PartsOk(parts) && |acc| + |Payload(parts)| <= MAX_WIRE_BYTES && Chunks(end, acc + Payload(parts)) == p
    ensures Chunks(Lay(parts, end), acc) == p
    decreases |parts|
  {
    if parts == [] {
      assert acc + Payload(parts) == acc;
    } else {
      var more := acc + parts[0].data;
      assert PartOk(parts[0]) && PartsOk(parts[1..]);
      assert acc + Payload(parts) == more + Payload(parts[1..]);
      PartsRead(parts[1..], end, more, p);
      FirstPartReads(parts, end, acc);
    }
  }

  lemma MessageReads(m: Message, rest: seq<byte>)
    requires MessageOk(m, 0)
    ensures Chunks(Bytes(m, rest), []) == Ok(Payload(m.parts), rest)
  {
    LastReads(m, rest, |Payload(m.parts)|);
    EndsHere(m.last + LayLines(m.trailers, m.blank + rest), Payload(m.parts), rest);
    assert [] + Payload(m.parts) == Payload(m.parts);
    PartsRead(m.parts, m.last + LayLines(m.trailers, m.blank + rest), [], Ok(Payload(m.parts), rest));
  }

  /** The part is the beginning of w, and `rest` what follows it. */
  ghost predicate PartAt(w: seq<byte>, p: Part, rest: seq<byte>) {
    var a, b, c := |p.line|, |p.line| + |p.data|, |p.line| + |p.data| + |p.close|;
    c <= |w| && w[..a] == p.line && w[a..b] == p.data && w[b..c] == p.close && w[c..] == rest
  }

  /** The parts are the beginning of w, and `end` what follows them. */
  ghost predicate Laid(w: seq<byte>, parts: seq<Part>, end: seq<byte>) {
    if parts == [] then w == end else exists rest :: PartAt(w, parts[0], rest) && Laid(rest, parts[1..], end)
  }

  lemma {:induction false} LaidIsLay(w: seq<byte>, parts: seq<Part>, end: seq<byte>)
    requires Laid(w, parts, end)
    ensures w == Lay(parts, end)
  {
    if parts != [] {
      var rest :| PartAt(w, parts[0], rest) && Laid(rest, parts[1..], end);
      LaidIsLay(rest, parts[1..], end);
    }
  }

  lemma LaidBefore(w: seq<byte>, p: Part, rest: seq<byte>, parts: seq<Part>, end: seq<byte>)
    requires PartAt(w, p, rest) && Laid(rest, parts, end)
    ensures Laid(w, [p] + parts, end) && Payload([p] + parts) == p.data + Payload(parts)
  {
    assert ([p] + parts)[1..] == parts;
  }

  lemma Sliced(w: seq<byte>, p: Part, rest: seq<byte>)
    requires w == p.line + (p.data + (p.close + rest))
    ensures PartAt(w, p, rest)
  {
  }

  lemma PartIsAt(w: seq<byte>, before: nat, data: seq<byte>, rest: seq<byte>) returns (p: Part)
    requires before <= MAX_WIRE_BYTES && OneChunk(w, before) == Next(data, rest)
    ensures PartOk(p) && p.data == data && PartAt(w, p, rest) && before + |data| <= MAX_WIRE_BYTES
  {
    p := PartIsRead(w, before);
    Sliced(w, p, rest);
  }

  lemma {:induction false} PartsAreRead(w: seq<byte>, acc: seq<byte>, p: Parse) returns (parts: seq<Part>, end: seq<byte>)
    requires |acc| <= MAX_WIRE_BYTES && Chunks(w, acc) == p && p.Ok?
    ensures Laid(w, parts, end) && PartsOk(parts) && p.body == acc + Payload(parts) && |p.body| <= MAX_WIRE_BYTES
    ensures OneChunk(end, |p.body|) == Finished(p.rest)
    decreases |w|
  {
    match OneChunk(w, |acc|)
    case Finished(rest) =>
      parts, end := [], w;
      assert acc + Payload([]) == acc;
    case Next(data, rest) =>
      GoesOn(w, acc, data, rest);
      var part := PartIsAt(w, |acc|, data, rest);
      var more, last := PartsAreRead(rest, acc + data, p);
      LaidBefore(w, part, rest, more, last);
      Associates(acc, data, Payload(more));
      parts, end := [part] + more, last;
  }

  lemma MessageIsRead(w: seq<byte>, body: seq<byte>, rest: seq<byte>) returns (m: Message)
    requires Chunks(w, []) == Ok(body, rest)
    ensures MessageOk(m, 0) && w == Bytes(m, rest) && body == Payload(m.parts)
  {
    var parts, end := PartsAreRead(w, [], Ok(body, rest));
    assert [] + Payload(parts) == Payload(parts);
    LaidIsLay(w, parts, end);
    m := EndOfMessage(parts, end, rest, body);
  }

  lemma EndOfMessage(parts: seq<Part>, end: seq<byte>, rest: seq<byte>, body: seq<byte>) returns (m: Message)
    requires PartsOk(parts) && body == Payload(parts) && |body| <= MAX_WIRE_BYTES && OneChunk(end, |body|) == Finished(rest)
    ensures MessageOk(m, 0) && Lay(parts, end) == Bytes(m, rest) && m.parts == parts
  {
    var last, ts, blank := LastIsRead(end, |body|);
    m := Message(parts, last, ts, blank);
  }

  /** Exactly the messages in order are accepted, with exactly their data, and reading stops right behind them. */
  lemma {:induction false} AcceptedExactly(w: seq<byte>, body: seq<byte>, rest: seq<byte>)
    ensures Body(ChunkedBody, w) == Ok(body, rest) <==>
            exists m :: MessageOk(m, 0) && Payload(m.parts) == body && w == Bytes(m, rest)
  {
    if Body(ChunkedBody, w) == Ok(body, rest) {
      var m := MessageIsRead(w, body, rest);
    }
    if m :| MessageOk(m, 0) && Payload(m.parts) == body && w == Bytes(m, rest) {
      MessageReads(m, rest);
    }
  }

  lemma {:induction false} LinesThen(ts: seq<seq<byte>>, a: seq<byte>, b: seq<byte>)
    ensures LayLines(ts, a + b) == LayLines(ts, a) + b
  {
    if ts != [] {
      LinesThen(ts[1..], a, b);
      assert ts[0] + (LayLines(ts[1..], a) + b) == (ts[0] + LayLines(ts[1..], a)) + b;
    }
  }

  lemma {:induction false} PartsThen(parts: seq<Part>, a: seq<byte>, b: seq<byte>)
    ensures Lay(parts, a + b) == Lay(parts, a) + b
  {
    if parts != [] {
      PartsThen(parts[1..], a, b);
      var p, more := parts[0], Lay(parts[1..], a);
      assert p.close + (more + b) == (p.close + more) + b;
      assert p.data + ((p.close + more) + b) == (p.data + (p.close + more)) + b;
      assert p.line + ((p.data + (p.close + more)) + b) == (p.line + (p.data + (p.close + more))) + b;
    }
  }

  lemma BytesThen(m: Message, a: seq<byte>, b: seq<byte>)
    ensures Bytes(m, a + b) == Bytes(m, a) + b
  {
    assert m.blank + (a + b) == (m.blank + a) + b;
    LinesThen(m.trailers, m.blank + a, b);
    var end := LayLines(m.trailers, m.blank + a);
    assert m.last + (end + b) == (m.last + end) + b;
    PartsThen(m.parts, m.last + end, b);
  }

  /** A message cut short anywhere is refused. */
  lemma {:induction false} TruncatedIsRefused(m: Message, cut: nat)
    requires MessageOk(m, 0) && cut < |Bytes(m, [])|
    ensures Body(ChunkedBody, Bytes(m, [])[..cut]).Err?
  {
    var p := Body(ChunkedBody, Bytes(m, [])[..cut]);
    if p.Ok? {
      AcceptedExactly(Bytes(m, [])[..cut], p.body, p.rest);
      var n :| MessageOk(n, 0) && Payload(n.parts) == p.body && Bytes(m, [])[..cut] == Bytes(n, p.rest);
      NotCut(m, n, cut, p.rest);
      assert false;
    }
  }

  lemma NotCut(m: Message, n: Message, cut: nat, rest: seq<byte>)
    requires MessageOk(m, 0) && MessageOk(n, 0) && cut < |Bytes(m, [])|
    ensures Bytes(m, [])[..cut] != Bytes(n, rest)
  {
    if Bytes(m, [])[..cut] == Bytes(n, rest) {
      Extends(n, rest, Bytes(m, []), cut);
      OneMessage(m, n, [], rest + Bytes(m, [])[cut..]);
      assert false;
    }
  }

  lemma Extends(n: Message, rest: seq<byte>, all: seq<byte>, cut: nat)
    requires cut <= |all| && all[..cut] == Bytes(n, rest)
    ensures all == Bytes(n, rest + all[cut..])
  {
    BytesThen(n, rest, all[cut..]);
    assert all == all[..cut] + all[cut..];
  }

  /** Bytes begin with one message at the most. */
  lemma OneMessage(m: Message, n: Message, a: seq<byte>, b: seq<byte>)
    requires MessageOk(m, 0) && MessageOk(n, 0) && Bytes(m, a) == Bytes(n, b)
    ensures a == b && Payload(m.parts) == Payload(n.parts)
  {
    AcceptedExactly(Bytes(m, a), Payload(m.parts), a);
    AcceptedExactly(Bytes(n, b), Payload(n.parts), b);
  }

  // ---------------------------------------------------------------- bodies of known length

  /** A declared length is read exactly: that many bytes or none at all, and nothing more than the limit. */
  lemma LengthReadsExactly(n: int, w: seq<byte>, body: seq<byte>, rest: seq<byte>)
    ensures Body(LengthBody(Some(n)), w) == Ok(body, rest) <==> 0 <= n <= MAX_WIRE_BYTES && |body| == n && w == body + rest
    ensures Body(LengthBody(Some(n)), w) == Err(TruncatedResponse) <==> |w| < n <= MAX_WIRE_BYTES && 0 <= n
    ensures Body(LengthBody(Some(n)), w) == Err(WireLimit) <==> n < 0 || n > MAX_WIRE_BYTES
  {
    if 0 <= n <= |w| { assert w == w[..n] + w[n..]; }
  }

  /** Without a length the body is all there is, if it fits. */
  lemma UntilCloseReadsAll(w: seq<byte>, body: seq<byte>, rest: seq<byte>)
    ensures Body(UntilClose, w) == Ok(body, rest) <==> w == body && rest == [] && |w| <= MAX_WIRE_BYTES
    ensures |w| > MAX_WIRE_BYTES ==> Body(UntilClose, w) == Err(WireLimit)
  {
  }

  // ---------------------------------------------------------------- what a size line says

  /** Digits, with single underscores between them. */
  predicate Grouped(s: seq<byte>) {
    && s != [] && Digit(s[0]).Some? && Digit(s[|s| - 1]).Some?
    && forall i | 0 <= i < |s| :: Digit(s[i]).Some? || (s[i] == UNDERSCORE && 0 < i && s[i - 1] != UNDERSCORE)
  }

  function Ungrouped(s: seq<byte>): seq<byte> {
    if s == [] then [] else (if s[0] == UNDERSCORE then [] else [s[0]]) + Ungrouped(s[1..])
  }

  lemma {:induction false} DigitsAreGrouped(s: seq<byte>, before: nat)
    ensures Digits(s, before).Some? <==> Grouped(s)
    ensures Grouped(s) ==> HexDigits(Ungrouped(s)) && Digits(s, before) == Some(Value(Ungrouped(s), before))
    decreases |s|
  {
    if |s| == 1 && Digit(s[0]).Some? {
      assert Ungrouped(s) == [s[0]] + Ungrouped([]);
      assert Ungrouped(s)[1..] == [];
    } else if |s| >= 2 && Digit(s[0]).Some? {
      var v := before * 16 + Digit(s[0]).value;
      var k := if s[1] == UNDERSCORE then 2 else 1;
      DigitsAreGrouped(s[k..], v);
      GroupedAfter(s, k);
      UngroupedAfter(s, k);
      DigitsAfter(s, k, before, Digits(s[k..], v));
      if Grouped(s) { ValueAfter(s[0], Ungrouped(s[k..]), before); }
    }
  }

  lemma DigitsAfter(s: seq<byte>, k: nat, before: nat, d: Option<nat>)
    requires |s| >= 2 && Digit(s[0]).Some? && k == if s[1] == UNDERSCORE then 2 else 1
    requires d == Digits(s[k..], before * 16 + Digit(s[0]).value)
    ensures Digits(s, before) == d
  {
  }

  lemma ValueAfter(d: byte, s: seq<byte>, before: nat)
    requires Digit(d).Some? && HexDigits(s)
    ensures HexDigits([d] + s) && Value([d] + s, before) == Value(s, before * 16 + Digit(d).value)
  {
    assert ([d] + s)[1..] == s;
  }

  lemma UngroupedAfter(s: seq<byte>, k: nat)
    requires |s| >= 2 && Digit(s[0]).Some? && k == if s[1] == UNDERSCORE then 2 else 1
    ensures Ungrouped(s) == [s[0]] + Ungrouped(s[k..])
  {
    if k == 2 { assert s[1..][1..] == s[2..]; }
  }

  lemma GroupedAfter(s: seq<byte>, k: nat)
    requires |s| >= 2 && Digit(s[0]).Some? && k == if s[1] == UNDERSCORE then 2 else 1
    ensures Grouped(s) <==> Grouped(s[k..])
  {
    var t := s[k..];
    if Grouped(s) {
      assert |s| > k && t[0] == s[k] && Digit(s[k]).Some?;
      assert t[|t| - 1] == s[|s| - 1];
      forall i | 0 <= i < |t| ensures Digit(t[i]).Some? || (t[i] == UNDERSCORE && 0 < i && t[i - 1] != UNDERSCORE) {
        assert t[i] == s[i + k];
      }
    }
    if Grouped(t) {
      forall i | 0 <= i < |s| ensures Digit(s[i]).Some? || (s[i] == UNDERSCORE && 0 < i && s[i - 1] != UNDERSCORE) {
        if i >= k { assert s[i] == t[i - k]; }
      }
      assert s[|s| - 1] == t[|t| - 1];
    }
  }

  /** The digits are the sixteen, in either case. */
  lemma DigitValues(b: byte, n: nat)
    ensures Digit(b) == Some(n) <==> n < 16 && (b == HexDigit(n) || (n >= 10 && b == HexDigit(n) - 32))
  {
  }

  /** How a size may be written: white space around it, a sign, a prefix, and what stands after a semicolon. */
  datatype SizeText = SizeText(left: seq<byte>, sign: seq<byte>, prefix: seq<byte>, digits: seq<byte>, right: seq<byte>, tail: seq<byte>)

  const PLUS: seq<byte> := [43]
  const MINUS: seq<byte> := [45]

  predicate IsPrefix(s: seq<byte>) {
    || s == []
    || (2 <= |s| <= 3 && s[0] == ZERO && (s[1] == 120 || s[1] == 88) && (|s| == 3 ==> s[2] == UNDERSCORE))
  }

  predicate SizeTextOk(t: SizeText) {
    && (forall b | b in t.left :: Space(b)) && (forall b | b in t.right :: Space(b))
    && (t.sign == [] || t.sign == PLUS || t.sign == MINUS) && IsPrefix(t.prefix) && Grouped(t.digits)
    && (t.tail == [] || t.tail[0] == SEMICOLON)
  }

  function Numeral(t: SizeText): seq<byte> { t.sign + (t.prefix + t.digits) }

  function Spelled(t: SizeText): seq<byte> { t.left + (Numeral(t) + (t.right + t.tail)) }

  /** The number that the digits spell in base 16, with its sign. */
  ghost predicate Amounts(t: SizeText, n: int) {
    && HexDigits(Ungrouped(t.digits))
    && (t.sign == MINUS ==> -n == Value(Ungrouped(t.digits), 0)) && (t.sign != MINUS ==> n == Value(Ungrouped(t.digits), 0))
  }

  /** A line says a size if and only if it is written like this, and then says that number. */
  lemma {:induction false} SizeMeans(line: seq<byte>, n: int)
    ensures ChunkSize(line) == Some(n) <==> exists t :: SizeTextOk(t) && line == Spelled(t) && Amounts(t, n)
  {
    if ChunkSize(line) == Some(n) {
      var t := SizeIsSpelled(line, n);
      assert SizeTextOk(t) && line == Spelled(t) && Amounts(t, n);
    }
    if t :| SizeTextOk(t) && line == Spelled(t) && Amounts(t, n) { SpelledReads(t, n); }
  }

  // ---------------------------------------------------------------- numerals

  lemma UnprefixedReads(prefix: seq<byte>, digits: seq<byte>)
    requires IsPrefix(prefix) && Grouped(digits)
    ensures Unprefixed(prefix + digits) == digits
  {
    var s := prefix + digits;
    assert s[|prefix|..] == digits;
    if prefix == [] {
      assert s == digits;
    } else {
      assert s[0] == prefix[0] && s[1] == prefix[1] && s[|prefix|] == digits[0];
    }
  }

  lemma NumeralReads(t: SizeText, n: int)
    requires SizeTextOk(t) && Amounts(t, n)
    ensures Integer16(Numeral(t)) == Some(n)
  {
    var u := t.prefix + t.digits;
    UnprefixedReads(t.prefix, t.digits);
    DigitsAreGrouped(t.digits, 0);
    assert Digit(u[0]).Some? by { if t.prefix == [] { assert u == t.digits; } else { assert u[0] == ZERO; } }
    SignReads(t.sign, u, Value(Ungrouped(t.digits), 0));
  }

  lemma SignReads(sign: seq<byte>, u: seq<byte>, m: nat)
    requires (sign == [] || sign == PLUS || sign == MINUS) && u != [] && Digit(u[0]).Some? && Digits(Unprefixed(u), 0) == Some(m)
    ensures Integer16(sign + u) == Some(if sign == MINUS then 0 - m else m)
  {
    if sign == [] {
      assert sign + u == u;
    } else {
      assert (sign + u)[1..] == u && (sign + u)[0] == sign[0];
    }
  }

  lemma NumeralIsRead(s: seq<byte>, n: int) returns (sign: seq<byte>, prefix: seq<byte>, digits: seq<byte>)
    requires Integer16(s) == Some(n)
    ensures SizeTextOk(SizeText([], sign, prefix, digits, [], [])) && s == sign + (prefix + digits)
    ensures Amounts(SizeText([], sign, prefix, digits, [], []), n)
  {
    var signed := s[0] == 43 || s[0] == 45;
    sign := if signed then [s[0]] else [];
    var u := if signed then s[1..] else s;
    assert s == sign + u;
    prefix := PrefixWent(u);
    digits := Unprefixed(u);
    DigitsAreGrouped(digits, 0);
  }

  lemma PrefixWent(u: seq<byte>) returns (prefix: seq<byte>)
    ensures IsPrefix(prefix) && u == prefix + Unprefixed(u)
  {
    prefix := u[..|u| - |Unprefixed(u)|];
  }

  // ---------------------------------------------------------------- white space and semicolons

  lemma {:induction false} LeftGoes(left: seq<byte>, s: seq<byte>)
    requires (forall b | b in left :: Space(b)) && s != [] && !Space(s[0])
    ensures StripLeft(left + s) == s
  {
    if left == [] {
      assert left + s == s;
    } else {
      assert left[0] in left;
      assert (left + s)[1..] == left[1..] + s;
      LeftGoes(left[1..], s);
    }
  }

  lemma {:induction false} LeftWent(s: seq<byte>) returns (left: seq<byte>)
    ensures (forall b | b in left :: Space(b)) && s == left + StripLeft(s)
  {
    if s != [] && Space(s[0]) {
      left := LeftWent(s[1..]);
      assert s == [s[0]] + s[1..];
      Associates([s[0]], left, StripLeft(s));
      left := [s[0]] + left;
    } else {
      left := [];
    }
  }

  lemma {:induction false} RightWent(s: seq<byte>) returns (right: seq<byte>)
    ensures (forall b | b in right :: Space(b)) && s == StripRight(s) + right
  {
    if s != [] && Space(s[|s| - 1]) {
      right := RightWent(s[..|s| - 1]);
      assert s == s[..|s| - 1] + [s[|s| - 1]];
      Associates(StripRight(s), right, [s[|s| - 1]]);
      right := right + [s[|s| - 1]];
    } else {
      right := [];
    }
  }

  lemma {:induction false} TailWent(s: seq<byte>) returns (tail: seq<byte>)
    ensures (tail == [] || tail[0] == SEMICOLON) && s == BeforeSemicolon(s) + tail
  {
    if s == [] || s[0] == SEMICOLON {
      tail := s;
      assert s == [] + tail;
    } else {
      tail := TailWent(s[1..]);
      assert s == [s[0]] + s[1..];
      Associates([s[0]], BeforeSemicolon(s[1..]), tail);
    }
  }

  /** First and last byte of a numeral are no white space, and no byte of it is a semicolon. */
  lemma NumeralIsClean(t: SizeText)
    requires SizeTextOk(t)
    ensures var s := Numeral(t); s != [] && !Space(s[0]) && !Space(s[|s| - 1]) && SEMICOLON !in s
  {
    var s, d := Numeral(t), t.digits;
    assert s[|s| - 1] == d[|d| - 1];
    assert Digit(d[0]).Some?;
    forall i | 0 <= i < |d| ensures d[i] != SEMICOLON { assert Digit(d[i]).Some? || d[i] == UNDERSCORE; }
    assert SEMICOLON !in t.prefix && SEMICOLON !in t.sign;
  }

  lemma SpelledReads(t: SizeText, n: int)
    requires SizeTextOk(t) && Amounts(t, n)
    ensures ChunkSize(Spelled(t)) == Some(n)
  {
    var s := Numeral(t);
    NumeralIsClean(t);
    NumeralReads(t, n);
    var b := t.left + (s + t.right);
    assert SEMICOLON !in b;
    assert Spelled(t) == b + t.tail by { Associates3(t.left, s, t.right, t.tail); }
    BeforeAppend(b, t.tail);
    assert BeforeSemicolon(t.tail) == [];
    assert BeforeSemicolon(Spelled(t)) == b;
    LeftGoes(t.left, s + t.right);
    StripSpaces(s, t.right);
  }

  lemma Associates3(a: seq<byte>, b: seq<byte>, c: seq<byte>, d: seq<byte>)
    ensures a + (b + (c + d)) == (a + (b + c)) + d
  {
  }

  lemma SizeIsSpelled(line: seq<byte>, n: int) returns (t: SizeText)
    requires ChunkSize(line) == Some(n)
    ensures SizeTextOk(t) && line == Spelled(t) && Amounts(t, n)
  {
    var tail := TailWent(line);
    var left := LeftWent(BeforeSemicolon(line));
    var right := RightWent(StripLeft(BeforeSemicolon(line)));
    var s := StripRight(StripLeft(BeforeSemicolon(line)));
    var sign, prefix, digits := NumeralIsRead(s, n);
    t := SizeText(left, sign, prefix, digits, right, tail);
    Associates3(left, s, right, tail);
  }
}
