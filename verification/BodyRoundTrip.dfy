/** Encoding a body in chunks (section 7.1 of RFC 9112) and reading it back. */
module BodyRoundTrip {
  import opened Common
  import opened BodyModel

  /** A chunk as a sender may write it: hexadecimal size in either case with leading zeros, white space, an extension. */
  datatype Chunk = Chunk(size: seq<byte>, pad: seq<byte>, extension: seq<byte>, data: seq<byte>)

  predicate HexDigits(s: seq<byte>) { forall b | b in s :: Digit(b).Some? }

  function Value(s: seq<byte>, before: nat): nat
    requires HexDigits(s)
  {
    if s == [] then before else Value(s[1..], before * 16 + Digit(s[0]).value)
  }

  function SizeLine(c: Chunk): seq<byte> { c.size + (c.pad + (c.extension + CRLF)) }

  predicate WellFormed(c: Chunk) {
    && c.size != [] && HexDigits(c.size) && Value(c.size, 0) == |c.data|
    && (forall b | b in c.pad :: b == 32 || b == 9)
    && (c.extension == [] || c.extension[0] == SEMICOLON) && LF !in c.extension
    && |SizeLine(c)| <= MAX_HEADER_LINE
  }

  /** The chunks, and then `end`. */
  function Encode(chunks: seq<Chunk>, end: seq<byte>): seq<byte> {
    if chunks == [] then end else SizeLine(chunks[0]) + (chunks[0].data + (CRLF + Encode(chunks[1..], end)))
  }

  function Data(chunks: seq<Chunk>): seq<byte> {
    if chunks == [] then [] else chunks[0].data + Data(chunks[1..])
  }

  predicate TrailerLine(t: seq<byte>) { COLON in t && LF !in t && |t| + 2 <= MAX_HEADER_LINE }

  function EncodeTrailers(ts: seq<seq<byte>>): seq<byte> {
    if ts == [] then CRLF else (ts[0] + CRLF) + EncodeTrailers(ts[1..])
  }

  // ---------------------------------------------------------------- lines

  lemma {:induction false} FindAfter(a: seq<byte>, w: seq<byte>)
    requires LF !in a
    ensures FindLF(a + w) == |a| + FindLF(w)
  {
    if a == [] {
      assert a + w == w;
    } else {
      assert a[0] != LF;
      assert (a + w)[1..] == a[1..] + w;
      FindAfter(a[1..], w);
    }
  }

  /** A line that ends in CRLF is read whole, whatever follows it. */
  lemma LineEnds(a: seq<byte>, w: seq<byte>)
    requires LF !in a && |a| + 2 <= MAX_HEADER_LINE
    ensures Line(a + CRLF + w) == a + CRLF && (a + CRLF + w)[|a + CRLF|..] == w
  {
    FindAfter(a + [CR], [LF] + w);
    assert a + CRLF + w == (a + [CR]) + ([LF] + w);
  }

  lemma BlankLineReads(w: seq<byte>)
    ensures Line(CRLF + w) == CRLF && (CRLF + w)[2..] == w && Blank(CRLF) && LineOk(CRLF)
  {
    LineEnds([], w);
    assert [] + CRLF + w == CRLF + w && [] + CRLF == CRLF;
  }

  // ---------------------------------------------------------------- sizes

  lemma {:induction false} DigitsValue(s: seq<byte>, before: nat)
    requires s != [] && HexDigits(s)
    ensures Digits(s, before) == Some(Value(s, before))
  {
    var v := before * 16 + Digit(s[0]).value;
    if |s| == 1 {
      assert s[1..] == [];
    } else {
      assert s[1] in s;
      DigitsValue(s[1..], v);
    }
  }

  lemma {:induction false} BeforeAppend(a: seq<byte>, w: seq<byte>)
    requires SEMICOLON !in a
    ensures BeforeSemicolon(a + w) == a + BeforeSemicolon(w)
  {
    if a == [] {
      assert a + w == w;
    } else {
      assert (a + w)[1..] == a[1..] + w;
      BeforeAppend(a[1..], w);
    }
  }

  lemma {:induction false} StripSpaces(a: seq<byte>, w: seq<byte>)
    requires a != [] && !Space(a[|a| - 1]) && forall b | b in w :: Space(b)
    ensures StripRight(a + w) == a
  {
    if w == [] {
      assert a + w == a;
    } else {
      assert (a + w)[..|a + w| - 1] == a + w[..|w| - 1];
      StripSpaces(a, w[..|w| - 1]);
    }
  }

  /** The size line of a chunk reads as the length of its data. */
  lemma SizeReads(c: Chunk)
    requires WellFormed(c)
    ensures ChunkSize(SizeLine(c)) == Some(|c.data|)
  {
    var tail := c.extension + CRLF;
    var pad := c.pad + BeforeSemicolon(tail);
    forall b | b in c.size ensures b != SEMICOLON && !Space(b) && b != 43 && b != 45 && b != 120 && b != 88 && b != UNDERSCORE {
      assert Digit(b).Some?;
    }
    assert c.size[0] in c.size && c.size[|c.size| - 1] in c.size;
    BeforeAppend(c.pad, tail);
    BeforeAppend(c.size, c.pad + tail);
    forall b | b in BeforeSemicolon(tail) ensures Space(b) {
      if c.extension == [] {
        assert tail == CRLF;
        assert CRLF[1..] == [LF] && CRLF[1..][1..] == [];
        assert BeforeSemicolon(CRLF) == [CR] + ([LF] + []);
      }
    }
    StripSpaces(c.size, pad);
    assert StripLeft(c.size + pad) == c.size + pad;
    if |c.size| >= 2 { assert c.size[1] in c.size; }
    assert Unprefixed(c.size) == c.size;
    DigitsValue(c.size, 0);
  }

  // ---------------------------------------------------------------- the round trip

  lemma {:induction false} TrailersRead(ts: seq<seq<byte>>, tail: seq<byte>, total: nat, count: nat)
    requires forall t | t in ts :: TrailerLine(t)
    requires count + |ts| <= MAX_HEADER_FIELDS && total + |EncodeTrailers(ts)| <= MAX_HEADER_BYTES
    ensures Trailers(EncodeTrailers(ts) + tail, total, count) == Ok([], tail)
  {
    if ts == [] {
      NoTrailersRead(tail, total, count);
    } else {
      var t, more := ts[0], EncodeTrailers(ts[1..]) + tail;
      assert t in ts;
      assert EncodeTrailers(ts) + tail == t + CRLF + more;
      TrailerReads(t, more, total, count);
      TrailersRead(ts[1..], tail, total + |t| + 2, count + 1);
    }
  }

  lemma NoTrailersRead(tail: seq<byte>, total: nat, count: nat)
    requires total + 2 <= MAX_HEADER_BYTES
    ensures Trailers(CRLF + tail, total, count) == Ok([], tail)
  {
    BlankLineReads(tail);
  }

  lemma TrailerReads(t: seq<byte>, more: seq<byte>, total: nat, count: nat)
    requires TrailerLine(t) && count + 1 <= MAX_HEADER_FIELDS && total + |t| + 2 <= MAX_HEADER_BYTES
    ensures Trailers(t + CRLF + more, total, count) == Trailers(more, total + |t| + 2, count + 1)
  {
    LineEnds(t, more);
    var k :| 0 <= k < |t| && t[k] == COLON;
    assert (t + CRLF)[k] == COLON;
    assert !Blank(t + CRLF);
  }

  /** The size line of a well-formed chunk is one line. */
  lemma SizeLineReads(c: Chunk, rest: seq<byte>)
    requires WellFormed(c)
    ensures Line(SizeLine(c) + rest) == SizeLine(c) && (SizeLine(c) + rest)[|SizeLine(c)|..] == rest
    ensures LineOk(SizeLine(c)) && ChunkSize(SizeLine(c)) == Some(|c.data|)
  {
    var head := c.size + (c.pad + c.extension);
    forall b | b in c.size ensures b != LF { assert Digit(b).Some?; }
    assert SizeLine(c) == head + CRLF;
    LineEnds(head, rest);
    SizeReads(c);
  }

  /** One well-formed chunk is consumed whole. */
  lemma ChunkReads(c: Chunk, w: seq<byte>, before: nat)
    requires WellFormed(c) && c.data != [] && before + |c.data| <= MAX_WIRE_BYTES
    ensures OneChunk(SizeLine(c) + (c.data + (CRLF + w)), before) == Next(c.data, w)
  {
    var rest := c.data + (CRLF + w);
    SizeLineReads(c, rest);
    assert rest[..|c.data|] == c.data && rest[|c.data|..] == CRLF + w;
    BlankLineReads(w);
  }

  lemma LastChunkReads(last: Chunk, ts: seq<seq<byte>>, tail: seq<byte>, before: nat)
    requires WellFormed(last) && last.data == [] && (forall t | t in ts :: TrailerLine(t))
    requires |ts| <= MAX_HEADER_FIELDS && |EncodeTrailers(ts)| <= MAX_HEADER_BYTES
    ensures OneChunk(SizeLine(last) + (EncodeTrailers(ts) + tail), before) == Finished(tail)
  {
    SizeLineReads(last, EncodeTrailers(ts) + tail);
    TrailersRead(ts, tail, 0, 0);
  }

  lemma FirstChunkReads(chunks: seq<Chunk>, end: seq<byte>, acc: seq<byte>)
    requires chunks != [] && WellFormed(chunks[0]) && chunks[0].data != [] && |acc| + |chunks[0].data| <= MAX_WIRE_BYTES
    ensures Chunks(Encode(chunks, end), acc) == Chunks(Encode(chunks[1..], end), acc + chunks[0].data)
  {
    ChunkReads(chunks[0], Encode(chunks[1..], end), |acc|);
  }

  ghost predicate Sendable(chunks: seq<Chunk>) { forall i | 0 <= i < |chunks| :: WellFormed(chunks[i]) && chunks[i].data != [] }

  /** Reading the chunks collects their data and goes on with what follows them. */
  lemma {:induction false} ChunksRead(chunks: seq<Chunk>, end: seq<byte>, acc: seq<byte>, p: Parse)
    requires Sendable(chunks) && |acc| + |Data(chunks)| <= MAX_WIRE_BYTES
    requires Chunks(end, acc + Data(chunks)) == p
    ensures Chunks(Encode(chunks, end), acc) == p
    decreases |chunks|
  {
    if chunks == [] {
      assert acc + Data(chunks) == acc;
    } else {
      var more := acc + chunks[0].data;
      TailSendable(chunks);
      assert acc + Data(chunks) == more + Data(chunks[1..]);
      ChunksRead(chunks[1..], end, more, p);
      FirstChunkReads(chunks, end, acc);
    }
  }

  lemma TailSendable(chunks: seq<Chunk>)
    requires chunks != [] && Sendable(chunks)
    ensures Sendable(chunks[1..]) && WellFormed(chunks[0]) && chunks[0].data != []
  {
  }

  /**
    However a body is cut into chunks, spelled and extended, within the limits: what is read is
    exactly the concatenated data, and reading stops right after the trailers.
   */
  lemma ChunkedRoundTrip(chunks: seq<Chunk>, last: Chunk, ts: seq<seq<byte>>, tail: seq<byte>)
    requires Sendable(chunks) && |Data(chunks)| <= MAX_WIRE_BYTES
    requires WellFormed(last) && last.data == [] && (forall t | t in ts :: TrailerLine(t))
    requires |ts| <= MAX_HEADER_FIELDS && |EncodeTrailers(ts)| <= MAX_HEADER_BYTES
    ensures Body(ChunkedBody, Encode(chunks, SizeLine(last) + (EncodeTrailers(ts) + tail))) == Ok(Data(chunks), tail)
  {
    var end := SizeLine(last) + (EncodeTrailers(ts) + tail);
    LastChunkReads(last, ts, tail, |Data(chunks)|);
    assert [] + Data(chunks) == Data(chunks);
    ChunksRead(chunks, end, [], Ok(Data(chunks), tail));
  }

  // ---------------------------------------------------------------- every split of every body

  function HexDigit(n: nat): byte
    requires n < 16
  {
    if n < 10 then 48 + n else 87 + n
  }

  function Hex(n: nat): seq<byte> { if n < 16 then [HexDigit(n)] else Hex(n / 16) + [HexDigit(n % 16)] }

  lemma {:induction false} ValueAppend(s: seq<byte>, d: byte, before: nat)
    requires HexDigits(s) && Digit(d).Some?
    ensures HexDigits(s + [d]) && Value(s + [d], before) == Value(s, before) * 16 + Digit(d).value
  {
    forall b | b in s + [d] ensures Digit(b).Some? {}
    if s == [] {
      assert s + [d] == [d];
      assert Value([d][1..], before * 16 + Digit(d).value) == before * 16 + Digit(d).value;
    } else {
      assert s[0] in s;
      assert (s + [d])[1..] == s[1..] + [d];
      ValueAppend(s[1..], d, before * 16 + Digit(s[0]).value);
    }
  }

  /** The plain spelling of a number reads back as that number, in at most six digits below 16^6. */
  lemma {:induction false} HexSpells(n: nat, digits: nat)
    requires 1 <= digits <= 6 && n < (if digits == 1 then 16 else if digits == 2 then 256 else if digits == 3 then 4_096
                                      else if digits == 4 then 65_536 else if digits == 5 then 1_048_576 else 16_777_216)
    ensures Hex(n) != [] && HexDigits(Hex(n)) && Value(Hex(n), 0) == n && |Hex(n)| <= digits
  {
    if n < 16 {
      assert Value(Hex(n)[1..], n) == n;
    } else {
      HexSpells(n / 16, digits - 1);
      ValueAppend(Hex(n / 16), HexDigit(n % 16), 0);
    }
  }

  function Plain(piece: seq<byte>): Chunk { Chunk(Hex(|piece|), [], [], piece) }

  lemma PlainIsWellFormed(piece: seq<byte>)
    requires |piece| <= MAX_WIRE_BYTES
    ensures WellFormed(Plain(piece))
  {
    HexSpells(|piece|, 6);
  }

  function Concat(pieces: seq<seq<byte>>): seq<byte> { if pieces == [] then [] else pieces[0] + Concat(pieces[1..]) }

  function Plains(pieces: seq<seq<byte>>): (chunks: seq<Chunk>)
    ensures |chunks| == |pieces| && forall i | 0 <= i < |pieces| :: chunks[i] == Plain(pieces[i])
  {
    if pieces == [] then [] else [Plain(pieces[0])] + Plains(pieces[1..])
  }

  lemma {:induction false} PlainData(pieces: seq<seq<byte>>)
    ensures Data(Plains(pieces)) == Concat(pieces)
  {
    if pieces != [] {
      assert Plains(pieces)[1..] == Plains(pieces[1..]);
      PlainData(pieces[1..]);
    }
  }

  lemma {:induction false} PieceFits(pieces: seq<seq<byte>>, i: nat)
    requires i < |pieces|
    ensures |pieces[i]| <= |Concat(pieces)|
  {
    if i > 0 { PieceFits(pieces[1..], i - 1); }
  }

  /** Any body, cut into any non-empty pieces and sent plainly, is read back whole. */
  lemma AnySplitReads(pieces: seq<seq<byte>>, tail: seq<byte>)
    requires |Concat(pieces)| <= MAX_WIRE_BYTES && forall i | 0 <= i < |pieces| :: pieces[i] != []
    ensures Body(ChunkedBody, Encode(Plains(pieces), SizeLine(Plain([])) + (CRLF + tail))) == Ok(Concat(pieces), tail)
  {
    forall i | 0 <= i < |pieces| ensures WellFormed(Plains(pieces)[i]) && Plains(pieces)[i].data != [] {
      PieceFits(pieces, i);
      PlainIsWellFormed(pieces[i]);
    }
    PlainData(pieces);
    PlainIsWellFormed([]);
    ChunkedRoundTrip(Plains(pieces), Plain([]), [], tail);
  }

  // ---------------------------------------------------------------- what any accepted body satisfies

  lemma {:induction false} TrailersStop(w: seq<byte>, total: nat, count: nat)
    ensures var p := Trailers(w, total, count);
            p.Ok? ==> |p.rest| < |w| && p.rest == w[|w| - |p.rest|..]
    decreases |w|
  {
    var line := Line(w);
    if LineOk(line) && total + |line| <= MAX_HEADER_BYTES && !Blank(line) && count + 1 <= MAX_HEADER_FIELDS && COLON in line {
      TrailersStop(w[|line|..], total + |line|, count + 1);
    }
  }

  lemma FinishedStops(w: seq<byte>, before: nat)
    requires OneChunk(w, before).Finished?
    ensures var s := OneChunk(w, before); |s.rest| < |w| && s.rest == w[|w| - |s.rest|..]
  {
    var line := Line(w);
    TrailersStop(w[|line|..], 0, 0);
    SuffixOfSuffix(w, |line|, |OneChunk(w, before).rest|);
  }

  lemma NextStops(w: seq<byte>, before: nat)
    requires before <= MAX_WIRE_BYTES && OneChunk(w, before).Next?
    ensures var s := OneChunk(w, before);
            before + |s.data| <= MAX_WIRE_BYTES && |s.data| + |s.rest| < |w| && s.rest == w[|w| - |s.rest|..]
  {
    var line := Line(w);
    var rest := w[|line|..];
    var size: nat := ChunkSize(line).value;
    assert Exactly(rest, size, before).Ok?;
    SuffixOfSuffix(w, |line|, |rest[size..]|);
    SuffixOfSuffix(w, |w| - |rest[size..]|, |rest[size..]| - |Line(rest[size..])|);
  }

  /** The last k bytes of a suffix are the last k bytes. */
  lemma SuffixOfSuffix(w: seq<byte>, from: nat, k: nat)
    requires from + k <= |w|
    ensures w[from..][|w| - from - k..] == w[|w| - k..]
  {
  }

  /** Whatever the peer sends: an accepted body extends what was read, fits the wire limit, and leaves a suffix. */
  lemma {:induction false} AcceptedWithinLimits(w: seq<byte>, acc: seq<byte>)
    requires |acc| <= MAX_WIRE_BYTES
    ensures Chunks(w, acc).Ok? ==> WithinLimits(w, acc, Chunks(w, acc))
    decreases |w|
  {
    var s := OneChunk(w, |acc|);
    if s.Finished? {
      FinishedStops(w, |acc|);
    } else if s.Next? {
      NextStops(w, |acc|);
      AcceptedWithinLimits(s.rest, acc + s.data);
      if Chunks(s.rest, acc + s.data).Ok? { LimitsCompose(w, acc, s.data, s.rest, Chunks(s.rest, acc + s.data)); }
    }
  }

  ghost predicate WithinLimits(w: seq<byte>, acc: seq<byte>, p: Parse)
    requires p.Ok?
  {
    && acc <= p.body && |p.body| <= MAX_WIRE_BYTES && |p.body| - |acc| + |p.rest| < |w|
    && p.rest == w[|w| - |p.rest|..]
  }

  lemma LimitsCompose(w: seq<byte>, acc: seq<byte>, data: seq<byte>, rest: seq<byte>, p: Parse)
    requires p.Ok? && WithinLimits(rest, acc + data, p)
    requires |data| + |rest| < |w| && rest == w[|w| - |rest|..]
    ensures WithinLimits(w, acc, p)
  {
    assert rest[|rest| - |p.rest|..] == w[|w| - |p.rest|..];
  }
}
