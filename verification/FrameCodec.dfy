/** Frames: the unit on the wire, a fixed header followed by a payload. */
module FrameCodec {
  import opened Basics

  type byte = n: int | 0 <= n < 256

  const MAGIC: seq<byte> := [0x4B, 0x56, 0x4D, 0x31]   // "KVM1"
  const HEADER_LEN := 10
  const LEN_OFFSET := 6
  const MAX_PAYLOAD := 8 * 1024 * 1024
  const U32 := 0x1_0000_0000

  datatype Frame = Frame(msgType: byte, flags: byte, payload: seq<byte>)

  datatype FrameError = BadMagic | UnknownFlags | TooLarge | PartialHeader | PartialPayload

  /** A frame every decoder accepts: no flag bit is known today. */
  predicate Decodable(f: Frame) {
    f.flags == 0 && |f.payload| <= MAX_PAYLOAD
  }

  function BigEndian(n: int): (b: seq<byte>)
    requires 0 <= n < U32
    ensures |b| == 4
  {
    [n / 0x100_0000, n / 0x1_0000 % 256, n / 256 % 256, n % 256]
  }

  function FromBigEndian(b: seq<byte>): (n: int)
    requires |b| == 4
    ensures 0 <= n < U32
  {
    (b[0] as int) * 0x100_0000 + (b[1] as int) * 0x1_0000 + (b[2] as int) * 256 + b[3] as int
  }

  lemma NumberSurvives(n: int)
    requires 0 <= n < U32
    ensures FromBigEndian(BigEndian(n)) == n
  {
    var q := n / 256;
    var r := q / 256;
    assert n == 256 * q + n % 256 && q == 256 * r + q % 256 && r == 256 * (r / 256) + r % 256;
    assert n / 0x1_0000 == r && n / 0x100_0000 == r / 256;
  }

  lemma BytesSurvive(b: seq<byte>)
    requires |b| == 4
    ensures BigEndian(FromBigEndian(b)) == b
  {
    var n := FromBigEndian(b);
    assert n / 256 == 0x1_0000 * (b[0] as int) + 256 * (b[1] as int) + b[2] as int;
    assert n / 0x1_0000 == 256 * (b[0] as int) + b[1] as int;
    assert n / 0x100_0000 == b[0] as int;
  }

  /** Most significant byte first: numbers compare as their bytes do from left to right. */
  lemma BytesCompareLikeNumbers(b: seq<byte>, c: seq<byte>, i: nat)
    requires |b| == |c| == 4 && i < 4 && b[..i] == c[..i] && b[i] < c[i]
    ensures FromBigEndian(b) < FromBigEndian(c)
  {
    assert forall j | 0 <= j < i :: b[j] == b[..i][j] && c[j] == c[..i][j];
  }

  function Header(msgType: byte, flags: byte, len: int): (h: seq<byte>)
    requires 0 <= len < U32
    ensures |h| == HEADER_LEN
  {
    MAGIC + [msgType, flags] + BigEndian(len)
  }

  /** The wire bytes; the length field is the low 32 bits of the payload length. */
  function Encode(f: Frame): (b: seq<byte>)
    ensures |b| == HEADER_LEN + |f.payload|
  {
    Header(f.msgType, f.flags, |f.payload| % U32) + f.payload
  }

  /** The frame byte by byte: where each field stands on the wire, and what the length field weighs. */
  lemma WireLayout(f: Frame, i: nat)
    ensures var b := Encode(f);
            && b[0] == 0x4B && b[1] == 0x56 && b[2] == 0x4D && b[3] == 0x31
            && b[4] == f.msgType && b[5] == f.flags
            && 0x100_0000 * b[6] as int + 0x1_0000 * b[7] as int + 0x100 * b[8] as int + b[9] as int
               == |f.payload| % 0x1_0000_0000
            && |b| == 10 + |f.payload| && (i < |f.payload| ==> b[10 + i] == f.payload[i])
  {
    var len := |f.payload| % U32;
    HeaderFields(f.msgType, f.flags, len, f.payload);
    assert Encode(f)[..HEADER_LEN] == Header(f.msgType, f.flags, len);
    assert Encode(f)[LEN_OFFSET..HEADER_LEN] == BigEndian(len);
  }

  datatype HeaderResult = HeaderOk(msgType: byte, flags: byte, len: nat) | HeaderErr(error: FrameError)

  function DecodeHeader(h: seq<byte>): HeaderResult
    requires |h| == HEADER_LEN
  {
    if h[..4] != MAGIC then HeaderErr(BadMagic)
    else if h[5] != 0 then HeaderErr(UnknownFlags)
    else
      var len := FromBigEndian(h[LEN_OFFSET..HEADER_LEN]);
      if len > MAX_PAYLOAD then HeaderErr(TooLarge) else HeaderOk(h[4], h[5], len)
  }

  /** What one strict decode makes of the bytes ahead, and the bytes it leaves. */
  datatype Decoded = NoFrame | Whole(frame: Frame, rest: seq<byte>) | Bad(error: FrameError)

  function Decode(bytes: seq<byte>): Decoded {
    if bytes == [] then NoFrame
    else if |bytes| < HEADER_LEN then Bad(PartialHeader)
    else
      match DecodeHeader(bytes[..HEADER_LEN])
      case HeaderErr(e) => Bad(e)
      case HeaderOk(t, fl, len) =>
        if |bytes| < HEADER_LEN + len then Bad(PartialPayload)
        else Whole(Frame(t, fl, bytes[HEADER_LEN..HEADER_LEN + len]), bytes[HEADER_LEN + len..])
  }

  lemma HeaderFields(msgType: byte, flags: byte, len: int, tail: seq<byte>)
    requires 0 <= len < U32
    ensures var h := (Header(msgType, flags, len) + tail)[..HEADER_LEN];
            && h == Header(msgType, flags, len)
            && h[..4] == MAGIC && h[4] == msgType && h[5] == flags
            && h[LEN_OFFSET..HEADER_LEN] == BigEndian(len) && FromBigEndian(h[LEN_OFFSET..HEADER_LEN]) == len
  {
    NumberSurvives(len);
    assert Header(msgType, flags, len)[LEN_OFFSET..HEADER_LEN] == BigEndian(len);
  }

  /**
   Round trip, with anything following on the wire: a frame comes back whole exactly when it
   carries no flag and fits the payload cap.
   */
  lemma RoundTrip(f: Frame, tail: seq<byte>)
    ensures Decode(Encode(f) + tail) == Whole(f, tail) <==> Decodable(f)
  {
    var bytes := Encode(f) + tail;
    var len := |f.payload| % U32;
    assert bytes == Header(f.msgType, f.flags, len) + (f.payload + tail);
    HeaderFields(f.msgType, f.flags, len, f.payload + tail);
    if Decodable(f) {
      assert len == |f.payload|;
      assert bytes[HEADER_LEN..HEADER_LEN + len] == f.payload;
      assert bytes[HEADER_LEN + len..] == tail;
    }
  }

  /**
   What a strict decode makes of a complete header and what follows it: an unknown flag is refused
   first, then a length over the cap, then a payload cut short.
   */
  lemma HeaderDecodes(msgType: byte, flags: byte, len: int, tail: seq<byte>)
    requires 0 <= len < U32
    ensures Decode(Header(msgType, flags, len) + tail) ==
            if flags != 0 then Bad(UnknownFlags)
            else if len > MAX_PAYLOAD then Bad(TooLarge)
            else if |tail| < len then Bad(PartialPayload)
            else Whole(Frame(msgType, 0, tail[..len]), tail[len..])
  {
    var bytes := Header(msgType, flags, len) + tail;
    HeaderFields(msgType, flags, len, tail);
    hide Header, BigEndian, FromBigEndian;
    if len <= |tail| {
      assert bytes[HEADER_LEN..HEADER_LEN + len] == tail[..len];
      assert bytes[HEADER_LEN + len..] == tail[len..];
    }
  }

  /** Bytes that are no complete header, or one that does not start with MAGIC, are refused as what they are. */
  lemma NoHeaderIsRefused(bytes: seq<byte>)
    ensures Decode(bytes) == NoFrame <==> |bytes| == 0
    ensures Decode(bytes) == Bad(PartialHeader) <==> 0 < |bytes| < HEADER_LEN
    ensures Decode(bytes) == Bad(BadMagic) <==> |bytes| >= HEADER_LEN && !(MAGIC <= bytes)
  {
    if |bytes| >= HEADER_LEN {
      assert MAGIC <= bytes <==> bytes[..HEADER_LEN][..4] == MAGIC;
    }
  }

  lemma HeaderIsExact(h: seq<byte>)
    requires |h| == HEADER_LEN
    ensures var k := DecodeHeader(h);
            k.HeaderOk? ==> k.flags == 0 && k.len <= MAX_PAYLOAD && h == Header(k.msgType, k.flags, k.len)
  {
    BytesSurvive(h[LEN_OFFSET..HEADER_LEN]);
    hide BigEndian, FromBigEndian;
    assert h == h[..4] + [h[4], h[5]] + h[LEN_OFFSET..HEADER_LEN];
  }

  /** Nothing but an exact encoding decodes: what is accepted is what some peer encoded. */
  lemma DecodeIsExact(bytes: seq<byte>)
    ensures var d := Decode(bytes);
            d.Whole? ==> Decodable(d.frame) && bytes == Encode(d.frame) + d.rest
  {
    hide DecodeHeader, Header;
    var d := Decode(bytes);
    if d.Whole? {
      HeaderIsExact(bytes[..HEADER_LEN]);
      assert bytes == bytes[..HEADER_LEN] + d.frame.payload + d.rest;
    }
  }

  // ---------------------------------------------------------------------------
  // Decoding from a reader that delivers its bytes in arbitrary pieces
  // ---------------------------------------------------------------------------

  /** A byte source; every read delivers at least one byte until the end, and as few as it likes. */
  class ByteReader {
    var rest: seq<byte>

    constructor (bytes: seq<byte>)
      ensures rest == bytes
    {
      rest := bytes;
    }

    method Read(buf: array<byte>, from: nat) returns (n: nat)
      requires from <= buf.Length
      modifies this, buf
      ensures from + n <= buf.Length && n <= |old(rest)|
      ensures n == 0 <==> from == buf.Length || old(rest) == []
      ensures buf[..from + n] == old(buf[..from]) + old(rest)[..n]
      ensures rest == old(rest)[n..]
    {
      if from == buf.Length || rest == [] {
        return 0;
      }
      n :| 1 <= n <= |rest| && from + n <= buf.Length;
      forall i | 0 <= i < n {
        buf[from + i] := rest[i];
      }
      assert buf[..from + n] == old(buf[..from]) + old(rest)[..n];
      rest := rest[n..];
    }
  }

  datatype ReadStatus = AtEof | Partial | Full

  /** Fill `buf` however the reader cuts its bytes; the outcome depends on the bytes alone. */
  method ReadFull(reader: ByteReader, buf: array<byte>) returns (status: ReadStatus)
    modifies reader, buf
    ensures var avail := old(reader.rest); var want := buf.Length;
            if |avail| >= want then
              status == Full && buf[..] == avail[..want] && reader.rest == avail[want..]
            else
              status == (if avail == [] then AtEof else Partial) && reader.rest == []
  {
    var filled := 0;
    ghost var avail := reader.rest;
    while filled < buf.Length
      invariant filled <= buf.Length && filled <= |avail|
      invariant buf[..filled] == avail[..filled]
      invariant reader.rest == avail[filled..]
      decreases buf.Length - filled
    {
      var n := reader.Read(buf, filled);
      if n == 0 {
        return if filled == 0 then AtEof else Partial;
      }
      filled := filled + n;
    }
    assert buf[..] == buf[..filled];
    return Full;
  }

  /** The strict decoder over a reader computes `Decode` of the bytes, for every way they are cut. */
  method DecodeFrom(reader: ByteReader) returns (d: Decoded)
    modifies reader
    ensures d == Decode(old(reader.rest))
    ensures d.Whole? ==> reader.rest == d.rest
  {
    ghost var bytes := reader.rest;
    var header := new byte[HEADER_LEN];
    var status := ReadFull(reader, header);
    if status == AtEof {
      return NoFrame;
    } else if status == Partial {
      return Bad(PartialHeader);
    }
    assert header[..] == bytes[..HEADER_LEN];
    var h := DecodeHeader(header[..]);
    if h.HeaderErr? {
      return Bad(h.error);
    }
    var payload := new byte[h.len];
    status := ReadFull(reader, payload);
    assert |bytes[HEADER_LEN..]| == |bytes| - HEADER_LEN;
    if status != Full {
      return Bad(PartialPayload);
    }
    assert payload[..] == bytes[HEADER_LEN..][..h.len] == bytes[HEADER_LEN..HEADER_LEN + h.len];
    assert reader.rest == bytes[HEADER_LEN..][h.len..] == bytes[HEADER_LEN + h.len..];
    return Whole(Frame(h.msgType, h.flags, payload[..]), reader.rest);
  }
}
