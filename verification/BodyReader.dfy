/** The incremental reader: a buffer over a socket that delivers bytes in pieces of its own choosing. */
module BodyReader {
  import opened Common
  import opened BodyModel

  /** A deadline or socket failure, or the answer. */
  datatype Outcome<T> = Interrupted | Done(value: T)

  class DeadlineReader {
    // whether the n-th look at the clock and the socket finds the deadline over or the socket broken
    const late: nat -> bool
    var looks: nat
    var buffer: seq<byte>
    // what the peer has yet to deliver before it closes
    var wire: seq<byte>

    constructor (sent: seq<byte>, fails: nat -> bool)
      ensures Rest() == sent && late == fails && looks == 0 && buffer == []
    {
      late, looks := fails, 0;
      buffer, wire := [], sent;
    }

    /** Some look since then came too late. */
    ghost predicate Late(since: nat)
      reads this
    {
      exists n :: since <= n < looks && late(n)
    }

    method Look() returns (r: bool)
      modifies this`looks
      ensures looks == old(looks) + 1 && r == late(old(looks))
    {
      r := late(looks);
      looks := looks + 1;
    }

    function Rest(): seq<byte>
      reads this
    {
      buffer + wire
    }

    /** recv: at least one byte while there are any, at most `size`, cut anywhere. */
    method Receive(size: nat) returns (r: Outcome<seq<byte>>)
      modifies this`wire, this`looks
      ensures looks >= old(looks) && (r.Interrupted? <==> Late(old(looks)))
      ensures r.Interrupted? ==> wire == old(wire)
      ensures r.Done? ==> r.value + wire == old(wire) && |r.value| <= (if size < 1 then 1 else size)
      ensures r.Done? ==> (r.value == [] <==> old(wire) == [])
    {
      var over := Look();
      if over { return Interrupted; }
      if wire == [] { return Done([]); }
      var most := Min(if size < 1 then 1 else size, |wire|);
      var n: nat :| 1 <= n <= most;
      r := Done(wire[..n]);
      wire := wire[n..];
    }

    method Read(size: nat) returns (r: Outcome<seq<byte>>)
      requires size >= 1
      modifies this
      ensures |buffer| <= |old(buffer)|
      ensures looks >= old(looks) && (r.Interrupted? <==> Late(old(looks)))
      ensures r.Interrupted? ==> Rest() == old(Rest())
      ensures r.Done? ==> r.value + Rest() == old(Rest()) && |r.value| <= size
      ensures r.Done? ==> (r.value == [] <==> old(Rest()) == [])
    {
      if buffer != [] {
        var n := Min(size, |buffer|);
        r := Done(buffer[..n]);
        buffer := buffer[n..];
        return;
      }
      r := Receive(size);
    }

    /** readline(MAX_HEADER_LINE + 1): the next line of everything still to come, however it arrives. */
    method ReadLine() returns (r: Outcome<seq<byte>>)
      requires |buffer| <= MAX_HEADER_LINE + 1
      modifies this
      ensures |buffer| <= MAX_HEADER_LINE + 1
      ensures looks >= old(looks) && (r.Interrupted? <==> Late(old(looks)))
      ensures r.Interrupted? ==> Rest() == old(Rest())
      ensures r.Done? ==> r.value == Line(old(Rest())) && r.value + Rest() == old(Rest())
    {
      var limit := MAX_HEADER_LINE + 1;
      ghost var all := Rest();
      while true
        invariant Rest() == all && |buffer| <= limit
        invariant looks >= old(looks) && !Late(old(looks))
        decreases |wire|
      {
        var newline := FindLF(buffer);
        if newline < |buffer| {
          LineInBuffer(buffer, wire);
          r := Done(buffer[..newline + 1]);
          buffer := buffer[newline + 1..];
          return;
        }
        if |buffer| >= limit {
          LongLine(buffer, wire);
          r := Done(buffer);
          buffer := [];
          return;
        }
        var chunk := Receive(Min(4_096, limit - |buffer|));
        if chunk.Interrupted? { return Interrupted; }
        if chunk.value == [] {
          LastLine(buffer);
          assert wire == [] && all == buffer;
          r := Done(buffer);
          buffer := [];
          return;
        }
        buffer := buffer + chunk.value;
      }
    }
  }

  /** A line feed in the buffer ends the line, whatever follows. */
  lemma {:induction false} FindInPrefix(b: seq<byte>, w: seq<byte>)
    ensures FindLF(b + w) == if FindLF(b) < |b| then FindLF(b) else |b| + FindLF(w)
  {
    if b == [] {
      assert b + w == w;
    } else if b[0] != LF {
      assert (b + w)[1..] == b[1..] + w;
      FindInPrefix(b[1..], w);
    }
  }

  lemma LineInBuffer(b: seq<byte>, w: seq<byte>)
    requires FindLF(b) < |b| <= MAX_HEADER_LINE + 1
    ensures Line(b + w) == b[..FindLF(b) + 1]
  {
    FindInPrefix(b, w);
  }

  lemma LongLine(b: seq<byte>, w: seq<byte>)
    requires FindLF(b) == |b| == MAX_HEADER_LINE + 1
    ensures Line(b + w) == b
  {
    FindInPrefix(b, w);
  }

  lemma LastLine(b: seq<byte>)
    requires FindLF(b) == |b| < MAX_HEADER_LINE + 1
    ensures Line(b) == b
  {
  }

  /** _StreamingDecoder for the identity encoding: counters, and the pieces fed so far. */
  class StreamingDecoder {
    var wireBytes: nat
    var decodedBytes: nat
    var parts: seq<seq<byte>>

    constructor ()
      ensures Valid() && Joined() == []
    {
      wireBytes, decodedBytes, parts := 0, 0, [];
    }

    function Joined(): seq<byte>
      reads this
    {
      Join(parts)
    }

    ghost predicate Valid()
      reads this
    {
      wireBytes == decodedBytes == |Joined()| && wireBytes <= MAX_WIRE_BYTES
    }

    /** The decoded limits cannot be the first to break without compression. */
    method Feed(data: seq<byte>) returns (error: Option<Error>)
      requires Valid()
      modifies this
      ensures error == if old(wireBytes) + |data| > MAX_WIRE_BYTES then Some(WireLimit) else None
      ensures error.None? ==> Valid() && Joined() == old(Joined()) + data
    {
      wireBytes := wireBytes + |data|;
      if wireBytes > MAX_WIRE_BYTES { return Some(WireLimit); }
      decodedBytes := decodedBytes + |data|;
      if decodedBytes > MAX_HTML_BYTES { return Some(DecodedLimit); }
      if wireBytes != 0 && decodedBytes > wireBytes * 20 { return Some(CompressionRatio); }
      if data != [] {
        JoinMore(parts, data);
        parts := parts + [data];
      }
      return None;
    }
  }

  function Join(parts: seq<seq<byte>>): seq<byte> { if parts == [] then [] else parts[0] + Join(parts[1..]) }

  lemma {:induction false} JoinMore(parts: seq<seq<byte>>, data: seq<byte>)
    ensures Join(parts + [data]) == Join(parts) + data
  {
    if parts == [] {
      assert parts + [data] == [data];
      assert Join([data]) == data + Join([]);
    } else {
      assert (parts + [data])[1..] == parts[1..] + [data];
      JoinMore(parts[1..], data);
    }
  }

  // ---------------------------------------------------------------- the body

  /** _read_body_line */
  method ReadBodyLine(s: DeadlineReader) returns (r: Outcome<Option<seq<byte>>>)
    requires |s.buffer| <= MAX_HEADER_LINE + 1
    modifies s
    ensures |s.buffer| <= MAX_HEADER_LINE + 1
    ensures s.looks >= old(s.looks) && (r.Interrupted? <==> s.Late(old(s.looks)))
    ensures r.Done? ==> (r.value.Some? <==> LineOk(Line(old(s.Rest()))))
    ensures r.Done? && r.value.Some? ==> r.value.value == Line(old(s.Rest())) && s.Rest() == old(s.Rest())[|r.value.value|..]
  {
    var over := s.Look();
    if over { return Interrupted; }
    var line := s.ReadLine();
    if line.Interrupted? { return Interrupted; }
    if line.value == [] || |line.value| > MAX_HEADER_LINE { return Done(None); }
    return Done(Some(line.value));
  }

  /** The error of a parse, or None. */
  function ErrorOf(p: Parse): Option<Error> { if p.Err? then Some(p.error) else None }

  /** _read_trailers; None is success. */
  method ReadTrailers(s: DeadlineReader) returns (r: Outcome<Option<Error>>)
    requires |s.buffer| <= MAX_HEADER_LINE + 1
    modifies s
    ensures s.looks >= old(s.looks) && (r.Interrupted? <==> s.Late(old(s.looks)))
    ensures r.Done? ==> r.value == ErrorOf(Trailers(old(s.Rest()), 0, 0))
    ensures r.Done? && r.value.None? ==> s.Rest() == Trailers(old(s.Rest()), 0, 0).rest
  {
    var total: nat, count: nat := 0, 0;
    ghost var p := Trailers(s.Rest(), 0, 0);
    ghost var w := s.Rest();
    while true
      invariant |s.buffer| <= MAX_HEADER_LINE + 1 && w == s.Rest()
      invariant Trailers(w, total, count) == p
      invariant s.looks >= old(s.looks) && !s.Late(old(s.looks))
      decreases |w|
    {
      var line := ReadBodyLine(s);
      if line.Interrupted? { return Interrupted; }
      if line.value.None? { return Done(Some(ChunkLineLimit)); }
      total := total + |line.value.value|;
      if total > MAX_HEADER_BYTES { return Done(Some(TrailerLimit)); }
      w := w[|line.value.value|..];
      if Blank(line.value.value) { return Done(None); }
      count := count + 1;
      if count > MAX_HEADER_FIELDS || COLON !in line.value.value { return Done(Some(TrailerLimit)); }
    }
  }

  /** _read_exact_into; None is success. */
  method ReadExactInto(s: DeadlineReader, d: StreamingDecoder, size: nat) returns (r: Outcome<Option<Error>>)
    requires |s.buffer| <= MAX_HEADER_LINE + 1 && d.Valid()
    modifies s, d
    ensures |s.buffer| <= MAX_HEADER_LINE + 1
    ensures s.looks >= old(s.looks) && (r.Interrupted? <==> s.Late(old(s.looks)))
    ensures r.Done? ==> var p := Exactly(old(s.Rest()), size, |old(d.Joined())|);
                        if p.Err? then r.value == Some(p.error)
                        else r.value.None? && d.Valid() && d.Joined() == old(d.Joined()) + p.body && s.Rest() == p.rest
  {
    var left := size;
    ghost var all, read: seq<byte> := s.Rest(), [];
    while left > 0
      invariant 0 <= left <= size && |read| == size - left && all == read + s.Rest()
      invariant d.Valid() && d.Joined() == old(d.Joined()) + read
      invariant |s.buffer| <= MAX_HEADER_LINE + 1
      invariant s.looks >= old(s.looks) && !s.Late(old(s.looks))
      decreases left
    {
      var over := s.Look();
      if over { return Interrupted; }
      var chunk := s.Read(Min(65_536, left));
      if chunk.Interrupted? { return Interrupted; }
      if chunk.value == [] { return Done(Some(TruncatedResponse)); }
      var error := d.Feed(chunk.value);
      if error.Some? { return Done(error); }
      Associates(read, chunk.value, s.Rest());
      Associates(old(d.Joined()), read, chunk.value);
      left := left - |chunk.value|;
      read := read + chunk.value;
    }
    return Done(None);
  }

  /** The chunk loop of _read_response_body: the chunked body, or its first error; None is success. */
  method ReadChunks(s: DeadlineReader, d: StreamingDecoder) returns (r: Outcome<Option<Error>>)
    requires |s.buffer| <= MAX_HEADER_LINE + 1 && d.Valid() && d.Joined() == []
    modifies s, d
    ensures s.looks >= old(s.looks) && (r.Interrupted? <==> s.Late(old(s.looks)))
    ensures r.Done? ==> r.value == ErrorOf(Chunks(old(s.Rest()), []))
    ensures r.Done? && r.value.None? ==> Chunks(old(s.Rest()), []) == Ok(d.Joined(), s.Rest())
  {
    ghost var p := Chunks(s.Rest(), []);
    while true
      invariant |s.buffer| <= MAX_HEADER_LINE + 1 && d.Valid()
      invariant Chunks(s.Rest(), d.Joined()) == p
      invariant s.looks >= old(s.looks) && !s.Late(old(s.looks))
      decreases |s.Rest()|
    {
      var line := ReadBodyLine(s);
      if line.Interrupted? { return Interrupted; }
      if line.value.None? { return Done(Some(ChunkLineLimit)); }
      var size := ChunkSize(line.value.value);
      if size.None? || size.value < 0 { return Done(Some(InvalidChunk)); }
      if size.value == 0 {
        r := ReadTrailers(s);
        return;
      }
      var data := ReadExactInto(s, d, size.value);
      if data.Interrupted? { return Interrupted; }
      if data.value.Some? { return data; }
      var close := ReadBodyLine(s);
      if close.Interrupted? { return Interrupted; }
      if close.value.None? { return Done(Some(ChunkLineLimit)); }
      if !Blank(close.value.value) { return Done(Some(InvalidChunk)); }
    }
  }

  /** The loop that reads until the peer closes. */
  method ReadUntilClose(s: DeadlineReader, d: StreamingDecoder) returns (r: Outcome<Option<Error>>)
    requires d.Valid() && d.Joined() == []
    modifies s, d
    ensures s.looks >= old(s.looks) && (r.Interrupted? <==> s.Late(old(s.looks)))
    ensures r.Done? ==> (r.value == if |old(s.Rest())| > MAX_WIRE_BYTES then Some(WireLimit) else None)
    ensures r.Done? && r.value.None? ==> d.Joined() == old(s.Rest()) && s.Rest() == []
  {
    ghost var all := s.Rest();
    while true
      invariant d.Valid() && all == d.Joined() + s.Rest()
      invariant s.looks >= old(s.looks) && !s.Late(old(s.looks))
      decreases |s.Rest()|
    {
      var over := s.Look();
      if over { return Interrupted; }
      var chunk := s.Read(Min(65_536, MAX_WIRE_BYTES - d.wireBytes + 1));
      if chunk.Interrupted? { return Interrupted; }
      if chunk.value == [] { return Done(None); }
      var error := d.Feed(chunk.value);
      if error.Some? { return Done(error); }
    }
  }

  /**
    _read_response_body: unless a look at clock and socket comes too late, the answer is the one that the framing
    gives to the whole of what the peer sends, for every way its bytes can arrive.
   */
  method ReadResponseBody(s: DeadlineReader, f: Framing) returns (r: Outcome<Parse>)
    requires |s.buffer| <= MAX_HEADER_LINE + 1
    modifies s
    ensures s.looks >= old(s.looks) && (r.Interrupted? <==> s.Late(old(s.looks)))
    ensures r.Done? ==> r.value == Body(f, old(s.Rest()))
    ensures r.Done? && r.value.Ok? ==> s.Rest() == r.value.rest
  {
    var d := new StreamingDecoder();
    var e: Outcome<Option<Error>>;
    match f {
      case OtherTransfer => return Done(Err(UnsupportedTransferEncoding));
      case ChunkedBody => e := ReadChunks(s, d);
      case UntilClose => e := ReadUntilClose(s, d);
      case LengthBody(expected) =>
        if expected.None? { return Done(Err(InvalidContentLength)); }
        if expected.value < 0 || expected.value > MAX_WIRE_BYTES { return Done(Err(WireLimit)); }
        e := ReadExactInto(s, d, expected.value);
    }
    if e.Interrupted? { return Interrupted; }
    if e.value.Some? { return Done(Err(e.value.value)); }
    return Done(Ok(d.Joined(), s.Rest()));
  }
}
