/**
  Body framing as a function of all the bytes the peer will ever send, with the limits of the
  fetcher: the meaning that the incremental reader must agree with.
 */
module BodyModel {
  import opened Common

  const MAX_HEADER_LINE: nat := 8_192
  const MAX_HEADER_BYTES: nat := 65_536
  const MAX_HEADER_FIELDS: nat := 100
  const MAX_WIRE_BYTES: nat := 2_097_152
  const MAX_HTML_BYTES: nat := 4_194_304

  const LF: byte := 10
  const CR: byte := 13
  const CRLF: seq<byte> := [13, 10]
  const SEMICOLON: byte := 59
  const COLON: byte := 58
  const ZERO: byte := 48

  datatype Error =
    | ChunkLineLimit | InvalidChunk | TruncatedResponse | WireLimit | DecodedLimit | CompressionRatio | TrailerLimit
    | InvalidContentLength | UnsupportedTransferEncoding

  datatype Parse = Ok(body: seq<byte>, rest: seq<byte>) | Err(error: Error)

  /** What the headers say about the body; a length is None when its text is no integer. */
  datatype Framing = ChunkedBody | LengthBody(expected: Option<int>) | UntilClose | OtherTransfer

  // ---------------------------------------------------------------- lines

  /** Index of the first line feed, or the length. */
  function FindLF(w: seq<byte>): (i: nat)
    ensures i <= |w| && (i < |w| ==> w[i] == LF) && forall k | 0 <= k < i :: w[k] != LF
  {
    if w == [] || w[0] == LF then 0 else 1 + FindLF(w[1..])
  }

  /** The next line with its line feed, cut one byte past the longest line that is allowed. */
  function Line(w: seq<byte>): (l: seq<byte>)
    ensures |l| <= |w| && l == w[..|l|] && |l| <= MAX_HEADER_LINE + 1 && (l == [] <==> w == [])
  {
    w[..Min(Min(FindLF(w) + 1, |w|), MAX_HEADER_LINE + 1)]
  }

  predicate LineOk(l: seq<byte>) { l != [] && |l| <= MAX_HEADER_LINE }

  predicate Blank(l: seq<byte>) { l == CRLF || l == [LF] }

  // ---------------------------------------------------------------- chunk sizes

  predicate Space(b: byte) { b == 32 || 9 <= b <= 13 }

  function StripLeft(s: seq<byte>): seq<byte> { if s != [] && Space(s[0]) then StripLeft(s[1..]) else s }

  function StripRight(s: seq<byte>): seq<byte> {
    if s != [] && Space(s[|s| - 1]) then StripRight(s[..|s| - 1]) else s
  }

  function BeforeSemicolon(s: seq<byte>): seq<byte> {
    if s == [] || s[0] == SEMICOLON then [] else [s[0]] + BeforeSemicolon(s[1..])
  }

  function Digit(b: byte): Option<nat> {
    if 48 <= b <= 57 then Some(b - 48)
    else if 97 <= b <= 102 then Some(b - 87)
    else if 65 <= b <= 70 then Some(b - 55)
    else None
  }

  const UNDERSCORE: byte := 95

  /** Hexadecimal digits, where single underscores may stand between two digits. */
  function Digits(s: seq<byte>, value: nat): Option<nat> {
    if s == [] then None
    else if Digit(s[0]).None? then None
    else
      var v := value * 16 + Digit(s[0]).value;
      if |s| == 1 then Some(v)
      else if s[1] == UNDERSCORE then Digits(s[2..], v)
      else Digits(s[1..], v)
  }

  /** The "0x" prefix, and one underscore after it, are optional. */
  function Unprefixed(s: seq<byte>): seq<byte> {
    if |s| >= 2 && s[0] == ZERO && (s[1] == 120 || s[1] == 88)
    then (if |s| >= 3 && s[2] == UNDERSCORE then s[3..] else s[2..])
    else s
  }

  /** int(text, 16): an optional sign, then the magnitude. */
  function Integer16(s: seq<byte>): Option<int> {
    if s == [] then None
    else
      var signed := s[0] == 43 || s[0] == 45;
      var magnitude := Digits(Unprefixed(if signed then s[1..] else s), 0);
      if magnitude.None? then None
      else
        var m: int := magnitude.value;
        Some(if s[0] == 45 then -m else m)
  }

  function ChunkSize(line: seq<byte>): Option<int> { Integer16(StripRight(StripLeft(BeforeSemicolon(line)))) }

  // ---------------------------------------------------------------- bodies

  /** What remains after the trailer section, or why it is refused. */
  function Trailers(w: seq<byte>, total: nat, count: nat): Parse
    decreases |w|
  {
    var line := Line(w);
    if !LineOk(line) then Err(ChunkLineLimit)
    else if total + |line| > MAX_HEADER_BYTES then Err(TrailerLimit)
    else if Blank(line) then Ok([], w[|line|..])
    else if count + 1 > MAX_HEADER_FIELDS || COLON !in line then Err(TrailerLimit)
    else Trailers(w[|line|..], total + |line|, count + 1)
  }

  /** The next `size` bytes after `before` bytes of body. */
  function Exactly(w: seq<byte>, size: nat, before: nat): Parse {
    var got := Min(size, |w|);
    if before + got > MAX_WIRE_BYTES then Err(WireLimit)
    else if got < size then Err(TruncatedResponse)
    else Ok(w[..size], w[size..])
  }

  datatype Step = Refused(error: Error) | Finished(rest: seq<byte>) | Next(data: seq<byte>, rest: seq<byte>)

  /** One size line with what belongs to it: data and its line end, or the trailers after a size of zero. */
  function OneChunk(w: seq<byte>, before: nat): (s: Step)
    ensures s.Next? ==> |s.rest| < |w|
  {
    var line := Line(w);
    if !LineOk(line) then Refused(ChunkLineLimit)
    else
      var size := ChunkSize(line);
      var rest := w[|line|..];
      if size.None? || size.value < 0 then Refused(InvalidChunk)
      else if size.value == 0 then
        var end := Trailers(rest, 0, 0);
        if end.Err? then Refused(end.error) else Finished(end.rest)
      else
        var data := Exactly(rest, size.value, before);
        if data.Err? then Refused(data.error)
        else
          var close := Line(data.rest);
          if !LineOk(close) then Refused(ChunkLineLimit)
          else if !Blank(close) then Refused(InvalidChunk)
          else Next(data.body, data.rest[|close|..])
  }

  /** The chunks from here on, after the body bytes in `acc`. */
  function Chunks(w: seq<byte>, acc: seq<byte>): Parse
    decreases |w|
  {
    match OneChunk(w, |acc|)
    case Refused(e) => Err(e)
    case Finished(rest) => Ok(acc, rest)
    case Next(data, rest) => Chunks(rest, acc + data)
  }

  function Body(f: Framing, w: seq<byte>): Parse {
    match f
    case ChunkedBody => Chunks(w, [])
    case LengthBody(None) => Err(InvalidContentLength)
    case LengthBody(Some(n)) =>
      if n < 0 || n > MAX_WIRE_BYTES then Err(WireLimit) else Exactly(w, n, 0)
    case UntilClose => if |w| > MAX_WIRE_BYTES then Err(WireLimit) else Ok(w, [])
    case OtherTransfer => Err(UnsupportedTransferEncoding)
  }
}
