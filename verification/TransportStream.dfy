/**
 The incremental decoder of the reliable control channel: buffering, resynchronisation and
 the payload cap. Messages are opaque here: the transport yields frames.
 */
module TransportStream {
  import opened Basics
  import opened FrameCodec

  const SCRATCH := 512   // bytes asked for by one socket read

  // ---------------------------------------------------------------------------
  // The socket
  // ---------------------------------------------------------------------------

  /** What one socket read returns. */
  datatype ReadEvent =
    | Data(bytes: seq<byte>)
    | TimedOut
    | Closed
    | Reset
    | Broken

  predicate ReadSized(e: ReadEvent) {
    e.Data? ==> 1 <= |e.bytes| <= SCRATCH
  }

  predicate AllReadSized(events: seq<ReadEvent>) {
    forall e <- events :: ReadSized(e)
  }

  /** The reads still to come; a stream with none left has been closed by its peer. */
  class Socket {
    var events: seq<ReadEvent>

    constructor (events: seq<ReadEvent>)
      ensures this.events == events
    {
      this.events := events;
    }

    method Read() returns (e: ReadEvent)
      modifies this
      ensures e == NextEvent(old(events)) && events == LaterEvents(old(events))
    {
      e, events := NextEvent(events), LaterEvents(events);
    }
  }

  function NextEvent(events: seq<ReadEvent>): ReadEvent {
    if events == [] then Closed else events[0]
  }

  function LaterEvents(events: seq<ReadEvent>): seq<ReadEvent> {
    if events == [] then [] else events[1..]
  }

  // ---------------------------------------------------------------------------
  // One decode attempt
  // ---------------------------------------------------------------------------

  predicate MagicAt(buf: seq<byte>, i: nat) {
    i + 4 <= |buf| && buf[i..i + 4] == MAGIC
  }

  /** Position of the first MAGIC in the buffer. */
  function FindMagic(buf: seq<byte>): (r: Option<nat>)
    ensures r.Some? ==> MagicAt(buf, r.value) && forall j: nat :: j < r.value ==> !MagicAt(buf, j)
    ensures r.None? ==> forall j: nat :: !MagicAt(buf, j)
    decreases |buf|
  {
    if |buf| < 4 then None
    else if buf[..4] == MAGIC then Some(0)
    else
      var tail := FindMagic(buf[1..]);
      assert forall j: nat :: MagicAt(buf, j) ==> j >= 1 && MagicAt(buf[1..], j - 1) by {
        forall j: nat | MagicAt(buf, j) ensures j >= 1 && MagicAt(buf[1..], j - 1) {
          assert j != 0;
          MagicInTail(buf, j - 1);
        }
      }
      if tail.Some? then
        MagicInTail(buf, tail.value);
        Some(tail.value + 1)
      else None
  }

  lemma MagicInTail(buf: seq<byte>, i: nat)
    requires buf != []
    ensures MagicAt(buf[1..], i) <==> MagicAt(buf, i + 1)
  {
    if i + 5 <= |buf| { assert buf[1..][i..i + 4] == buf[i + 1..i + 5]; }
  }

  datatype Attempt =
    | Nothing(buf: seq<byte>)
    | Got(frame: Frame, buf: seq<byte>)
    | Failed(error: FrameError, buf: seq<byte>)

  /** The length a buffered header declares. */
  function DeclaredLength(buf: seq<byte>): nat
    requires |buf| >= HEADER_LEN
  {
    FromBigEndian(buf[LEN_OFFSET..HEADER_LEN])
  }

  function TryDecode(buf: seq<byte>): Attempt {
    if |buf| < HEADER_LEN then Nothing(buf)
    else if buf[..4] != MAGIC then
      var pos := FindMagic(buf);
      Nothing(if pos.Some? then buf[pos.value..] else [])
    else if DeclaredLength(buf) > MAX_PAYLOAD then Failed(TooLarge, buf)
    else
      var total := HEADER_LEN + DeclaredLength(buf);
      if |buf| < total then Nothing(buf)
      else
        match Decode(buf[..total])
        case Whole(frame, _) => Got(frame, buf[total..])
        case Bad(e) => Failed(e, buf)
        case NoFrame => Failed(PartialHeader, buf)
  }

  // ---------------------------------------------------------------------------
  // Receiving
  // ---------------------------------------------------------------------------

  datatype Failure = EofMidFrame | BadFrame(error: FrameError) | Io

  datatype RecvResult =
    | Msg(frame: Frame)
    | NoData
    | Eof
    | Err(failure: Failure)

  /** One receive: its result, the bytes left buffered and the reads left on the socket. */
  datatype Received = Received(result: RecvResult, buf: seq<byte>, events: seq<ReadEvent>)

  function Recv(buf: seq<byte>, events: seq<ReadEvent>): (r: Received)
    ensures |r.events| <= |events|
    ensures r.result.Msg? && |r.events| == |events| ==> |r.buf| < |buf|
    ensures r.result.NoData? ==> |r.events| < |events|
    decreases |events|
  {
    match TryDecode(buf)
    case Got(frame, b) => Received(Msg(frame), b, events)
    case Failed(e, b) => Received(Err(BadFrame(e)), b, events)
    case Nothing(b) =>
      match NextEvent(events)
      case Closed => Received(if b == [] then Eof else Err(EofMidFrame), b, LaterEvents(events))
      case TimedOut => Received(NoData, b, LaterEvents(events))
      case Reset => Received(Eof, b, LaterEvents(events))
      case Broken => Received(Err(Io), b, LaterEvents(events))
      case Data(bytes) => Recv(b + bytes, LaterEvents(events))
  }

  class Transport {
    const stream: Socket
    var readBuf: seq<byte>

    constructor (stream: Socket)
      ensures this.stream == stream && readBuf == []
    {
      this.stream := stream;
      readBuf := [];
    }

    method TryDecodeBuffer() returns (frame: Option<Frame>, error: Option<FrameError>)
      modifies this
      ensures match TryDecode(old(readBuf))
              case Nothing(b) => frame == None && error == None && readBuf == b
              case Got(f, b) => frame == Some(f) && error == None && readBuf == b
              case Failed(e, b) => frame == None && error == Some(e) && readBuf == b
    {
      if |readBuf| < HEADER_LEN {
        return None, None;
      }
      if readBuf[..4] != MAGIC {
        var pos := FindMagic(readBuf);
        if pos.Some? {
          readBuf := readBuf[pos.value..];
        } else {
          readBuf := [];
        }
        return None, None;
      }
      var len := FromBigEndian(readBuf[LEN_OFFSET..HEADER_LEN]);
      if len > MAX_PAYLOAD {
        return None, Some(TooLarge);
      }
      var total := HEADER_LEN + len;
      if |readBuf| < total {
        return None, None;
      }
      var reader := new ByteReader(readBuf[..total]);
      var d := DecodeFrom(reader);
      match d {
        case Whole(f, _) =>
          readBuf := readBuf[total..];
          return Some(f), None;
        case Bad(e) =>
          return None, Some(e);
        case NoFrame =>
          return None, Some(PartialHeader);
      }
    }

    /** The receive loop: buffer, decode, read, until something can be reported. */
    method ReceiveNext() returns (result: RecvResult)
      modifies this, stream
      ensures Received(result, readBuf, stream.events) == Recv(old(readBuf), old(stream.events))
    {
      while true
        invariant Recv(readBuf, stream.events) == Recv(old(readBuf), old(stream.events))
        decreases |stream.events|
      {
        var frame, error := TryDecodeBuffer();
        if frame.Some? {
          return Msg(frame.value);
        }
        if error.Some? {
          return Err(BadFrame(error.value));
        }
        var e := stream.Read();
        match e {
          case Closed => return if readBuf == [] then Eof else Err(EofMidFrame);
          case TimedOut => return NoData;
          case Reset => return Eof;
          case Broken => return Err(Io);
          case Data(bytes) => readBuf := readBuf + bytes;
        }
      }
    }
  }

  // ---------------------------------------------------------------------------
  // Chunking independence
  // ---------------------------------------------------------------------------

  function EncodeAll(frames: seq<Frame>): seq<byte> {
    if frames == [] then [] else Encode(frames[0]) + EncodeAll(frames[1..])
  }

  /** The bytes a list of reads delivers. */
  function Payload(events: seq<ReadEvent>): seq<byte> {
    if events == [] then []
    else (if events[0].Data? then events[0].bytes else []) + Payload(events[1..])
  }

  /** Reads of a healthy peer: pieces of at most one scratch buffer, with time-outs between. */
  predicate Healthy(events: seq<ReadEvent>) {
    forall e <- events :: ReadSized(e) && (e.Data? || e.TimedOut?)
  }

  /** Everything receiving over and over yields, up to the end of the stream or an error. */
  function Drain(buf: seq<byte>, events: seq<ReadEvent>): seq<RecvResult>
    decreases |events|, |buf|
  {
    var r := Recv(buf, events);
    if r.result.Eof? || r.result.Err? then [r.result] else [r.result] + Drain(r.buf, r.events)
  }

  /** The results without the idle wake-ups. */
  function Substance(results: seq<RecvResult>): seq<RecvResult> {
    if results == [] then []
    else (if results[0].NoData? then [] else [results[0]]) + Substance(results[1..])
  }

  function IdleWakes(results: seq<RecvResult>): nat {
    if results == [] then 0 else (if results[0].NoData? then 1 else 0) + IdleWakes(results[1..])
  }

  function TimeOuts(events: seq<ReadEvent>): nat {
    if events == [] then 0 else (if events[0].TimedOut? then 1 else 0) + TimeOuts(events[1..])
  }

  function AsMessages(frames: seq<Frame>): seq<RecvResult> {
    if frames == [] then [] else [Msg(frames[0])] + AsMessages(frames[1..])
  }

  predicate AllDecodable(frames: seq<Frame>) {
    forall f <- frames :: Decodable(f)
  }

  /** The header of an encoding, as the decoder sees it in a buffer that starts with it. */
  lemma FrameHeader(f: Frame, buf: seq<byte>)
    requires |f.payload| < U32 && |buf| >= HEADER_LEN && buf[..HEADER_LEN] == Encode(f)[..HEADER_LEN]
    ensures buf[..4] == MAGIC && DeclaredLength(buf) == |f.payload|
  {
    HeaderFields(f.msgType, f.flags, |f.payload|, f.payload);
    assert |f.payload| % U32 == |f.payload|;
    assert buf[..HEADER_LEN] == Header(f.msgType, f.flags, |f.payload|);
    assert buf[..4] == buf[..HEADER_LEN][..4];
    assert buf[LEN_OFFSET..HEADER_LEN] == buf[..HEADER_LEN][LEN_OFFSET..HEADER_LEN];
  }

  lemma HeaderInFront(t: byte, fl: byte, len: int, tail: seq<byte>)
    requires 0 <= len < U32
    ensures var buf := Header(t, fl, len) + tail;
            && |buf| >= HEADER_LEN && buf[..4] == MAGIC && DeclaredLength(buf) == len
            && (len <= |tail| ==>
                  var whole := buf[..HEADER_LEN + len];
                  && buf[HEADER_LEN + len..] == tail[len..]
                  && whole == Header(t, fl, len) + tail[..len])
  {
    var buf := Header(t, fl, len) + tail;
    HeaderFields(t, fl, len, tail);
    hide Header, BigEndian, FromBigEndian;
    assert buf[..4] == buf[..HEADER_LEN][..4];
    assert buf[LEN_OFFSET..HEADER_LEN] == buf[..HEADER_LEN][LEN_OFFSET..HEADER_LEN];
  }

  /**
   What an attempt makes of any buffer that starts with a header is decided by the header and by how
   much follows it: too large a length is refused before the payload is there, an unknown flag once
   it is, a payload that is not there yet is waited for, and otherwise the frame is taken off. What
   is refused or waited for stays in the buffer.
   */
  lemma HeaderDecides(t: byte, fl: byte, len: int, tail: seq<byte>)
    requires 0 <= len < U32
    ensures var buf := Header(t, fl, len) + tail; var attempt := TryDecode(buf);
            && (attempt == Failed(TooLarge, buf) <==> len > MAX_PAYLOAD)
            && (attempt == Attempt.Nothing(buf) <==> |tail| < len <= MAX_PAYLOAD)
            && (attempt == Failed(UnknownFlags, buf) <==> len <= |tail| && len <= MAX_PAYLOAD && fl != 0)
            && (attempt.Got? <==> len <= |tail| && len <= MAX_PAYLOAD && fl == 0)
            && (attempt.Got? ==> attempt == Got(Frame(t, 0, tail[..len]), tail[len..]))
  {
    HeaderInFront(t, fl, len, tail);
    if len <= |tail| && len <= MAX_PAYLOAD {
      HeaderDecodes(t, fl, len, tail[..len]);
    }
    hide Header, DeclaredLength, Decode, FindMagic;
  }

  /** A receive reports what the buffered header makes it refuse before it reads anything more. */
  lemma RefusalsAreReportedAtOnce(t: byte, fl: byte, len: int, tail: seq<byte>, events: seq<ReadEvent>)
    requires 0 <= len < U32
    ensures var buf := Header(t, fl, len) + tail; var r := Recv(buf, events);
            && (len > MAX_PAYLOAD ==> r == Received(Err(BadFrame(TooLarge)), buf, events))
            && (len <= |tail| && len <= MAX_PAYLOAD && fl != 0 ==>
                  r == Received(Err(BadFrame(UnknownFlags)), buf, events))
  {
    HeaderDecides(t, fl, len, tail);
    hide TryDecode, Header;
  }

  /** Nothing else makes an attempt fail: any buffer it fails on starts with such a header. */
  lemma OnlyHeadersAreRefused(buf: seq<byte>) returns (t: byte, fl: byte, len: int, tail: seq<byte>)
    requires TryDecode(buf).Failed?
    ensures 0 <= len < U32 && buf == Header(t, fl, len) + tail
    ensures len > MAX_PAYLOAD || (len <= |tail| && fl != 0)
    ensures TryDecode(buf) == Failed(if len > MAX_PAYLOAD then TooLarge else UnknownFlags, buf)
  {
    t, fl, len, tail := buf[4], buf[5], DeclaredLength(buf), buf[HEADER_LEN..];
    BytesSurvive(buf[LEN_OFFSET..HEADER_LEN]);
    assert buf == buf[..4] + [buf[4], buf[5]] + buf[LEN_OFFSET..HEADER_LEN] + tail;
    HeaderDecides(t, fl, len, tail);
  }

  /** A buffer that starts with a decodable frame yields that frame and keeps exactly the rest. */
  lemma BufferedFrame(f: Frame, tail: seq<byte>)
    requires Decodable(f)
    ensures TryDecode(Encode(f) + tail) == Got(f, tail)
  {
    var buf := Encode(f) + tail;
    var total := HEADER_LEN + |f.payload|;
    FrameHeader(f, buf);
    assert buf[..total] == Encode(f) + [];
    RoundTrip(f, []);
    assert buf[total..] == tail;
  }

  /** A proper prefix of a decodable frame is kept untouched until the rest arrives. */
  lemma PartialFrame(f: Frame, buf: seq<byte>)
    requires Decodable(f) && buf <= Encode(f) && buf != Encode(f)
    ensures TryDecode(buf) == Nothing(buf)
  {
    if |buf| >= HEADER_LEN {
      FrameHeader(f, buf);
    }
  }

  /** A prefix of a frame and what follows either holds the whole frame or only part of it. */
  lemma PrefixOfStream(buf: seq<byte>, more: seq<byte>, first: seq<byte>, later: seq<byte>)
    requires buf + more == first + later
    ensures |buf| >= |first| ==> buf == first + buf[|first|..] && buf[|first|..] + more == later
    ensures |buf| < |first| ==> buf <= first && more != []
  {
    assert buf == (buf + more)[..|buf|] == (first + later)[..|buf|];
    if |buf| >= |first| {
      assert first == (first + later)[..|first|] == buf[..|first|];
      assert later == (first + later)[|first|..] == (buf + more)[|first|..];
    } else {
      assert (first + later)[..|buf|] == first[..|buf|];
    }
  }

  /** One decode attempt on a healthy stream that holds `frames` in its buffer and reads to come. */
  lemma HealthyAttempt(buf: seq<byte>, more: seq<byte>, frames: seq<Frame>)
    requires AllDecodable(frames)
    requires buf + more == EncodeAll(frames)
    ensures match TryDecode(buf)
            case Got(f, b) => frames != [] && f == frames[0] && |b| < |buf| && b + more == EncodeAll(frames[1..])
            case Nothing(b) =>
              b == buf && |buf| < HEADER_LEN + MAX_PAYLOAD
              && (frames == [] ==> buf == [] && more == []) && (frames != [] ==> more != [])
            case Failed(_, _) => false
  {
    if frames == [] {
      assert buf == [] && more == [];
    } else {
      var first := Encode(frames[0]);
      PrefixOfStream(buf, more, first, EncodeAll(frames[1..]));
      if |buf| >= |first| {
        BufferedFrame(frames[0], buf[|first|..]);
      } else {
        PartialFrame(frames[0], buf);
      }
    }
  }

  /** How the reads end: the peer closes (as it has when none are left), resets, or the link breaks. */
  predicate Ends(ending: seq<ReadEvent>) {
    |ending| <= 1 && (ending != [] ==> ending[0].Closed? || ending[0].Reset? || ending[0].Broken?)
  }

  /** What the end means, with `cut` of a frame received: closing is an error of the peer only inside a frame. */
  function Farewell(ending: seq<ReadEvent>, cut: seq<byte>): RecvResult {
    if ending == [] || ending[0].Closed? then (if cut == [] then Eof else Err(EofMidFrame))
    else if ending[0].Reset? then Eof
    else Err(Io)
  }

  /** An attempt on a stream of whole frames and the first part of another one. */
  lemma CutAttempt(buf: seq<byte>, more: seq<byte>, frames: seq<Frame>, f: Frame, cut: seq<byte>)
    requires AllDecodable(frames) && Decodable(f) && cut < Encode(f)
    requires buf + more == EncodeAll(frames) + cut
    ensures match TryDecode(buf)
            case Got(g, b) => frames != [] && g == frames[0] && |b| < |buf| && b + more == EncodeAll(frames[1..]) + cut
            case Nothing(b) => b == buf && (more == [] ==> frames == [] && buf == cut)
            case Failed(_, _) => false
  {
    if frames == [] {
      assert buf <= buf + more == cut < Encode(f);
      PartialFrame(f, buf);
    } else {
      var first := Encode(frames[0]);
      ConcatAssociates(first, EncodeAll(frames[1..]), cut);
      PrefixOfStream(buf, more, first, EncodeAll(frames[1..]) + cut);
      if |buf| >= |first| {
        BufferedFrame(frames[0], buf[|first|..]);
      } else {
        PartialFrame(frames[0], buf);
      }
    }
  }

  /** One receive on such a stream, and the reads it leaves. */
  lemma {:induction false} ReceiveTowardsEnd(
      buf: seq<byte>, events: seq<ReadEvent>, ending: seq<ReadEvent>, frames: seq<Frame>, f: Frame, cut: seq<byte>)
      returns (later: seq<ReadEvent>)
    requires AllDecodable(frames) && Decodable(f) && cut < Encode(f) && Healthy(events) && Ends(ending)
    requires buf + Payload(events) == EncodeAll(frames) + cut
    ensures Healthy(later) && |later| <= |events|
    ensures var r := Recv(buf, events + ending);
            match r.result
            case Msg(g) =>
              && frames != [] && g == frames[0] && r.events == later + ending && TimeOuts(later) == TimeOuts(events)
              && r.buf + Payload(later) == EncodeAll(frames[1..]) + cut && (|later| == |events| ==> |r.buf| < |buf|)
            case NoData =>
              && r.events == later + ending && TimeOuts(later) + 1 == TimeOuts(events)
              && r.buf + Payload(later) == EncodeAll(frames) + cut && |later| < |events|
            case _ => frames == [] && TimeOuts(events) == 0 && r.result == Farewell(ending, cut)
    decreases |events|
  {
    hide TryDecode, EncodeAll, Encode;
    CutAttempt(buf, Payload(events), frames, f, cut);
    later := events;
    if TryDecode(buf).Nothing? {
      if events == [] {
        assert events + ending == ending;
      } else {
        assert (events + ending)[0] == events[0] && (events + ending)[1..] == events[1..] + ending;
        HealthyRead(buf, events);
        if events[0].Data? {
          later := ReceiveTowardsEnd(buf + events[0].bytes, events[1..], ending, frames, f, cut);
        } else {
          later := events[1..];
        }
      }
    }
  }

  /**
   Chunking independence: however the bytes of a list of decodable frames, and perhaps the first part
   of another one, are cut into reads, wherever reads time out and however the reads end, receiving
   yields exactly those frames, in order, then what that ending means, and is idle exactly once per
   time-out.
   */
  lemma {:induction false} ChunkingIndependence(
      buf: seq<byte>, events: seq<ReadEvent>, ending: seq<ReadEvent>, frames: seq<Frame>, f: Frame, cut: seq<byte>)
    requires AllDecodable(frames) && Decodable(f) && cut < Encode(f) && Healthy(events) && Ends(ending)
    requires buf + Payload(events) == EncodeAll(frames) + cut
    ensures var results := Drain(buf, events + ending);
            Substance(results) == AsMessages(frames) + [Farewell(ending, cut)] && IdleWakes(results) == TimeOuts(events)
    decreases |events|, |buf|
  {
    hide Recv, Substance, IdleWakes, AsMessages, EncodeAll, Payload, TimeOuts, Drain, Encode, Farewell;
    var later := ReceiveTowardsEnd(buf, events, ending, frames, f, cut);
    var r := Recv(buf, events + ending);
    DrainStep(buf, events + ending);
    match r.result {
      case NoData =>
        ChunkingIndependence(r.buf, later, ending, frames, f, cut);
      case Msg(_) =>
        ChunkingIndependence(r.buf, later, ending, frames[1..], f, cut);
        FirstMessage(frames, Farewell(ending, cut));
      case _ =>
        NoMessages();
    }
  }

  lemma DrainStep(buf: seq<byte>, events: seq<ReadEvent>)
    ensures var r := Recv(buf, events);
            if r.result.Eof? || r.result.Err?
            then Substance(Drain(buf, events)) == [r.result] && IdleWakes(Drain(buf, events)) == 0
            else var rest := Drain(r.buf, r.events);
                 && Substance(Drain(buf, events)) == (if r.result.NoData? then [] else [r.result]) + Substance(rest)
                 && IdleWakes(Drain(buf, events)) == (if r.result.NoData? then 1 else 0) + IdleWakes(rest)
  {
    hide Recv;
    var r := Recv(buf, events);
    if !r.result.Eof? && !r.result.Err? {
      assert ([r.result] + Drain(r.buf, r.events))[1..] == Drain(r.buf, r.events);
    }
  }

  lemma NoMessages()
    ensures AsMessages([]) == []
  {
  }

  lemma FirstMessage(frames: seq<Frame>, last: RecvResult)
    requires frames != []
    ensures AsMessages(frames) + [last] == [Msg(frames[0])] + (AsMessages(frames[1..]) + [last])
  {
  }

  // ---------------------------------------------------------------------------
  // Memory
  // ---------------------------------------------------------------------------

  /** The largest buffer that receiving to the end of the stream ever holds. */
  function PeakBuffer(buf: seq<byte>, events: seq<ReadEvent>): nat
    decreases |events|, |buf|
  {
    Max(|buf|,
        match TryDecode(buf)
        case Got(_, b) => if |b| < |buf| then PeakBuffer(b, events) else 0
        case Failed(_, _) => 0
        case Nothing(b) =>
          match NextEvent(events)
          case Data(bytes) => PeakBuffer(b + bytes, LaterEvents(events))
          case TimedOut => PeakBuffer(b, LaterEvents(events))
          case _ => 0)
  }

  /** The room one frame of maximal size and the tail of one read take. */
  const FRAME_ROOM := HEADER_LEN + MAX_PAYLOAD + SCRATCH - 1

  /**
   Did an attempt drop some of the buffer and keep the rest? Only resynchronising onto a frame start
   does that, and it keeps everything from there.
   */
  predicate Resynchronised(buf: seq<byte>, attempt: Attempt) {
    attempt.Nothing? && 0 < |attempt.buf| < |buf|
  }

  /** How many attempts of receiving to the end of the stream do that. */
  function Resyncs(buf: seq<byte>, events: seq<ReadEvent>): nat
    decreases |events|, |buf|
  {
    (if Resynchronised(buf, TryDecode(buf)) then 1 else 0) +
    match TryDecode(buf)
    case Got(_, b) => if |b| < |buf| then Resyncs(b, events) else 0
    case Failed(_, _) => 0
    case Nothing(b) =>
      match NextEvent(events)
      case Data(bytes) => Resyncs(b + bytes, LaterEvents(events))
      case TimedOut => Resyncs(b, LaterEvents(events))
      case _ => 0
  }

  /** Resynchronising puts a MAGIC in front; any other attempt that finds nothing keeps less than a maximal frame. */
  lemma AttemptKeepsLittle(buf: seq<byte>)
    ensures TryDecode(buf).Nothing? && !Resynchronised(buf, TryDecode(buf)) ==>
              |TryDecode(buf).buf| < HEADER_LEN + MAX_PAYLOAD
    ensures Resynchronised(buf, TryDecode(buf)) ==>
              |buf| >= HEADER_LEN && !MagicAt(buf, 0) && MagicAt(TryDecode(buf).buf, 0)
  {
    if |buf| >= HEADER_LEN && buf[..4] != MAGIC {
      assert buf[0..4] == buf[..4];
      var pos := FindMagic(buf);
      if pos.Some? { assert buf[pos.value..][0..4] == buf[pos.value..pos.value + 4]; }
    }
  }

  /** The buffer a read leaves to the next attempt. */
  function AfterRead(b: seq<byte>, e: ReadEvent): seq<byte> {
    if e.Data? then b + e.bytes else b
  }

  lemma PeakAfterFrame(buf: seq<byte>, f: Frame, b: seq<byte>, events: seq<ReadEvent>)
    requires TryDecode(buf) == Got(f, b) && |b| < |buf|
    ensures PeakBuffer(buf, events) == Max(|buf|, PeakBuffer(b, events))
    ensures Resyncs(buf, events) == Resyncs(b, events)
  {
    hide TryDecode;
  }

  lemma PeakAfterRead(buf: seq<byte>, b: seq<byte>, events: seq<ReadEvent>)
    requires TryDecode(buf) == Nothing(b) && events != [] && (events[0].Data? || events[0].TimedOut?)
    ensures var next := AfterRead(b, events[0]);
            && PeakBuffer(buf, events) == Max(|buf|, PeakBuffer(next, events[1..]))
            && Resyncs(buf, events)
               == (if Resynchronised(buf, Attempt.Nothing(b)) then 1 else 0) + Resyncs(next, events[1..])
  {
    hide TryDecode;
  }

  /** Without a frame to take or a read that returns, the buffer stays as it is. */
  lemma PeakAtEnd(buf: seq<byte>, events: seq<ReadEvent>)
    requires !(TryDecode(buf).Got? && |TryDecode(buf).buf| < |buf|)
    requires !(TryDecode(buf).Nothing? && events != [] && (events[0].Data? || events[0].TimedOut?))
    ensures PeakBuffer(buf, events) == |buf|
    ensures !Resynchronised(buf, TryDecode(buf)) ==> Resyncs(buf, events) == 0
  {
    hide TryDecode;
  }

  /**
   On any stream at all the buffer never holds more than one frame of maximal size and the tail of
   one read, or what it held to begin with, plus one read less a byte for every attempt that
   resynchronised onto a frame start: only those can add to a buffer without looking at it.
   */
  lemma {:induction false} BufferGrowsOnlyByResyncs(buf: seq<byte>, events: seq<ReadEvent>)
    requires AllReadSized(events)
    ensures PeakBuffer(buf, events) <= Max(|buf|, FRAME_ROOM) + (SCRATCH - 1) * Resyncs(buf, events)
    decreases |events|, |buf|
  {
    hide TryDecode, PeakBuffer, Resyncs;
    AttemptKeepsLittle(buf);
    var attempt := TryDecode(buf);
    if attempt.Got? && |attempt.buf| < |buf| {
      PeakAfterFrame(buf, attempt.frame, attempt.buf, events);
      BufferGrowsOnlyByResyncs(attempt.buf, events);
    } else if attempt.Nothing? && events != [] && (events[0].Data? || events[0].TimedOut?) {
      assert ReadSized(events[0]) && forall e <- events[1..] :: e in events;
      PeakAfterRead(buf, attempt.buf, events);
      BufferGrowsOnlyByResyncs(AfterRead(attempt.buf, events[0]), events[1..]);
    } else {
      PeakAtEnd(buf, events);
    }
  }

  /** A healthy stream is never out of step. */
  lemma {:induction false} HealthyNeverResyncs(buf: seq<byte>, events: seq<ReadEvent>, frames: seq<Frame>)
    requires AllDecodable(frames) && Healthy(events)
    requires buf + Payload(events) == EncodeAll(frames)
    ensures Resyncs(buf, events) == 0
    decreases |events|, |buf|
  {
    hide TryDecode, Resyncs, PeakBuffer, EncodeAll;
    HealthyAttempt(buf, Payload(events), frames);
    match TryDecode(buf) {
      case Got(f, b) =>
        PeakAfterFrame(buf, f, b, events);
        HealthyNeverResyncs(b, events, frames[1..]);
      case Nothing(b) =>
        if events == [] {
          PeakAtEnd(buf, events);
        } else {
          HealthyRead(buf, events);
          PeakAfterRead(buf, b, events);
          HealthyNeverResyncs(AfterRead(buf, events[0]), events[1..], frames);
        }
    }
  }

  lemma HealthyRead(buf: seq<byte>, events: seq<ReadEvent>)
    requires Healthy(events) && events != []
    ensures Healthy(events[1..]) && (events[0].Data? || events[0].TimedOut?)
    ensures AfterRead(buf, events[0]) + Payload(events[1..]) == buf + Payload(events)
  {
    assert events[0] in events && forall e <- events[1..] :: e in events;
    var first, rest := events[0], Payload(events[1..]);
    assert Payload(events) == if first.Data? then first.bytes + rest else rest;
    hide Payload, Healthy;
    if first.Data? { ConcatAssociates(buf, first.bytes, rest); }
  }

  /** So on a healthy stream the buffer never holds more than one maximal frame and the tail of one read. */
  lemma {:induction false} BufferIsBounded(buf: seq<byte>, events: seq<ReadEvent>, frames: seq<Frame>)
    requires AllDecodable(frames) && Healthy(events)
    requires buf + Payload(events) == EncodeAll(frames)
    requires |buf| <= FRAME_ROOM
    ensures PeakBuffer(buf, events) <= FRAME_ROOM
  {
    HealthyNeverResyncs(buf, events, frames);
    BufferGrowsOnlyByResyncs(buf, events);
  }

  // ---------------------------------------------------------------------------
  // A stream the payload cap does not bound
  // ---------------------------------------------------------------------------

  const JUNK: seq<byte> := [0]

  predicate IsEmptyFrame(f: Frame) {
    f.flags == 0 && f.payload == []
  }

  /** Junk bytes, each in front of an empty frame. */
  function Blocks(f: Frame, k: nat): (b: seq<byte>)
    requires IsEmptyFrame(f)
    ensures |b| == 11 * k
  {
    if k == 0 then [] else JUNK + Encode(f) + Blocks(f, k - 1)
  }

  /** Reads of `m` blocks each. */
  function BlockReads(f: Frame, m: nat, n: nat): seq<ReadEvent>
    requires IsEmptyFrame(f)
  {
    if n == 0 then [] else [Data(Blocks(f, m))] + BlockReads(f, m, n - 1)
  }

  lemma {:induction false} BlocksAppend(f: Frame, k: nat, m: nat)
    requires IsEmptyFrame(f)
    ensures Blocks(f, k) + Blocks(f, m) == Blocks(f, k + m)
  {
    hide Encode;
    if k == 0 {
      assert [] + Blocks(f, m) == Blocks(f, m);
    } else {
      BlocksAppend(f, k - 1, m);
      ConcatAssociates(JUNK + Encode(f), Blocks(f, k - 1), Blocks(f, m));
    }
  }

  lemma ConcatAssociates(a: seq<byte>, b: seq<byte>, c: seq<byte>)
    ensures a + b + c == a + (b + c)
  {
  }

  lemma {:induction false} BlockReadsAreSized(f: Frame, m: nat, n: nat)
    requires IsEmptyFrame(f) && 1 <= m <= 46
    ensures AllReadSized(BlockReads(f, m, n))
  {
    if n > 0 { BlockReadsAreSized(f, m, n - 1); }
  }

  /** Two attempts of one receive: a resynchronisation, a read, and the frame it can now see. */
  lemma ReadBehindResync(buf: seq<byte>, b: seq<byte>, events: seq<ReadEvent>, f: Frame, rest: seq<byte>)
    requires TryDecode(buf) == Nothing(b) && events != [] && events[0].Data?
    requires TryDecode(b + events[0].bytes) == Got(f, rest) && |rest| < |b + events[0].bytes|
    ensures Recv(buf, events) == Received(Msg(f), rest, events[1..])
    ensures PeakBuffer(buf, events) >= PeakBuffer(rest, events[1..])
  {
    hide TryDecode, PeakBuffer;
    RecvAfterRead(buf, b, events);
    PeakAfterRead(buf, b, events);
    PeakAfterFrame(b + events[0].bytes, f, rest, events[1..]);
  }

  /** Each receive delivers one frame, and reads `m` blocks to do so. */
  lemma BlockIsReceived(f: Frame, m: nat, k: nat, n: nat)
    requires IsEmptyFrame(f) && m > 0 && k > 0 && n > 0
    ensures Recv(Blocks(f, k), BlockReads(f, m, n))
         == Received(Msg(f), Blocks(f, k + m - 1), BlockReads(f, m, n - 1))
    ensures PeakBuffer(Blocks(f, k), BlockReads(f, m, n))
         >= PeakBuffer(Blocks(f, k + m - 1), BlockReads(f, m, n - 1))
  {
    hide TryDecode, PeakBuffer, Recv, Encode, Blocks;
    var frame := Encode(f) + Blocks(f, k - 1);
    BlocksShape(f, k, m);
    StartsWithMagic(f, Blocks(f, k - 1));
    ResyncDropsExactlyTheJunk(JUNK, frame);
    var input := BlockReads(f, m, n);
    assert input[0] == Data(Blocks(f, m)) && input[1..] == BlockReads(f, m, n - 1);
    BufferedFrame(f, Blocks(f, k + m - 1));
    ReadBehindResync(Blocks(f, k), frame, input, f, Blocks(f, k + m - 1));
  }

  lemma BlocksShape(f: Frame, k: nat, m: nat)
    requires IsEmptyFrame(f) && k > 0
    ensures Blocks(f, k) == JUNK + (Encode(f) + Blocks(f, k - 1))
    ensures Encode(f) + Blocks(f, k - 1) + Blocks(f, m) == Encode(f) + Blocks(f, k + m - 1)
  {
    hide Encode;
    BlocksAppend(f, k - 1, m);
    var frame, rest := Encode(f), Blocks(f, k - 1);
    assert JUNK + frame + rest == JUNK + (frame + rest);
    assert frame + rest + Blocks(f, m) == frame + (rest + Blocks(f, m));
  }

  lemma StartsWithMagic(f: Frame, tail: seq<byte>)
    ensures MAGIC <= Encode(f) + tail
  {
    assert Encode(f)[..4] == MAGIC;
  }

  /** Every such receive leaves `m - 1` more blocks in the buffer. */
  lemma {:induction false} BufferGrows(f: Frame, m: nat, k: nat, n: nat)
    requires IsEmptyFrame(f) && m > 0 && k > 0
    ensures PeakBuffer(Blocks(f, k), BlockReads(f, m, n)) >= 11 * (k + (m - 1) * n)
    decreases n
  {
    hide TryDecode, Encode;
    if n > 0 {
      BlockIsReceived(f, m, k, n);
      BufferGrows(f, m, k + m - 1, n - 1);
      assert (m - 1) * n == (m - 1) * (n - 1) + (m - 1);
    } else {
      assert PeakBuffer(Blocks(f, k), BlockReads(f, m, n)) >= |Blocks(f, k)|;
    }
  }

  /**
   The payload cap does not bound the buffer against every peer: for any size there is a stream of
   ordinary reads, every frame of it delivered, that makes the buffer larger than that.
   */
  lemma BufferIsUnbounded(f: Frame, m: nat, size: nat)
    requires IsEmptyFrame(f) && 2 <= m <= 46
    ensures AllReadSized(BlockReads(f, m, size + 1))
    ensures PeakBuffer([], BlockReads(f, m, size + 1)) > size
  {
    hide TryDecode, PeakBuffer, Encode, Blocks;
    BlockReadsAreSized(f, m, size + 1);
    var input := BlockReads(f, m, size + 1);
    assert input[0] == Data(Blocks(f, m)) && input[1..] == BlockReads(f, m, size);
    EmptyBufferWaits();
    PeakAfterRead([], [], input);
    assert [] + Blocks(f, m) == Blocks(f, m);
    GrowsPast(f, m, size);
  }

  lemma GrowsPast(f: Frame, m: nat, size: nat)
    requires IsEmptyFrame(f) && m >= 2
    ensures PeakBuffer(Blocks(f, m), BlockReads(f, m, size)) > size
  {
    hide *;
    BufferGrows(f, m, m, size);
    TimesAtLeastOne(m - 1, size);
  }

  lemma TimesAtLeastOne(a: nat, b: nat)
    requires a >= 1
    ensures a * b >= b
  {
  }

  lemma EmptyBufferWaits()
    ensures TryDecode([]) == Nothing([])
  {
  }

  // ---------------------------------------------------------------------------
  // Arbitrary streams: nothing is invented or reordered
  // ---------------------------------------------------------------------------

  lemma AttemptIsVerbatim(buf: seq<byte>) returns (dropped: seq<byte>)
    ensures match TryDecode(buf)
            case Nothing(b) => buf == dropped + b
            case Got(f, b) => dropped == [] && buf == Encode(f) + b && Decodable(f)
            case Failed(_, b) => dropped == [] && b == buf
  {
    dropped := [];
    match TryDecode(buf) {
      case Nothing(b) =>
        dropped := buf[..|buf| - |b|];
      case Got(f, b) =>
        var total := HEADER_LEN + DeclaredLength(buf);
        DecodeIsExact(buf[..total]);
        var d := Decode(buf[..total]);
        assert buf == buf[..total] + buf[total..];
        assert buf[..total] == Encode(f) + d.rest;
        assert buf[LEN_OFFSET..HEADER_LEN] == buf[..total][..HEADER_LEN][LEN_OFFSET..HEADER_LEN];
        assert d.rest == [];
      case Failed(_, _) =>
    }
  }

  /** What was buffered and read is some dropped bytes, one encoding and what stays buffered. */
  predicate Verbatim(buf: seq<byte>, more: seq<byte>, dropped: seq<byte>, r: Received) {
    r.result.Msg? ==>
      Decodable(r.result.frame) && buf + more == dropped + Encode(r.result.frame) + r.buf
  }

  lemma VerbatimAfterRead(buf: seq<byte>, d: seq<byte>, b: seq<byte>, e: ReadEvent, later: seq<ReadEvent>,
                          d2: seq<byte>, r: Received)
    requires e.Data? && buf == d + b
    requires Verbatim(b + e.bytes, Payload(later), d2, r)
    ensures Verbatim(buf, Payload([e] + later), d + d2, r)
  {
    assert ([e] + later)[1..] == later;
    if r.result.Msg? {
      var encoding := Encode(r.result.frame);
      assert buf + (e.bytes + Payload(later)) == d + (b + e.bytes + Payload(later));
      assert d + (d2 + encoding + r.buf) == d + d2 + encoding + r.buf;
    }
  }

  lemma RecvAfterRead(buf: seq<byte>, b: seq<byte>, events: seq<ReadEvent>)
    requires TryDecode(buf) == Nothing(b) && events != [] && events[0].Data?
    ensures Recv(buf, events) == Recv(b + events[0].bytes, events[1..])
  {
  }

  lemma ReadFirst(events: seq<ReadEvent>, used: seq<ReadEvent>, left: seq<ReadEvent>)
    requires events != [] && events[1..] == used + left
    ensures events == [events[0]] + used + left
  {
  }

  lemma ReceiveStops(buf: seq<byte>, events: seq<ReadEvent>) returns (dropped: seq<byte>, used: seq<ReadEvent>)
    requires TryDecode(buf).Nothing? && events != [] ==> !events[0].Data?
    ensures events == used + Recv(buf, events).events
    ensures Verbatim(buf, Payload(used), dropped, Recv(buf, events))
  {
    hide Encode, TryDecode;
    dropped := AttemptIsVerbatim(buf);
    used := if TryDecode(buf).Nothing? && events != [] then [events[0]] else [];
  }

  /**
   On any stream at all, corrupt or not, a received frame is a decodable frame whose encoding
   stands verbatim in the bytes: what was buffered and read is some dropped bytes, then that
   encoding, then exactly what stays buffered.
   */
  lemma {:induction false} ReceiveIsVerbatim(buf: seq<byte>, events: seq<ReadEvent>)
      returns (dropped: seq<byte>, used: seq<ReadEvent>)
    ensures events == used + Recv(buf, events).events
    ensures Verbatim(buf, Payload(used), dropped, Recv(buf, events))
    decreases |events|
  {
    hide Encode, TryDecode, Recv, Verbatim, Payload;
    if TryDecode(buf).Nothing? && events != [] && events[0].Data? {
      var d := AttemptIsVerbatim(buf);
      var b := TryDecode(buf).buf;
      RecvAfterRead(buf, b, events);
      var d2, u2 := ReceiveIsVerbatim(b + events[0].bytes, events[1..]);
      dropped, used := d + d2, [events[0]] + u2;
      ReadFirst(events, u2, Recv(buf, events).events);
      VerbatimAfterRead(buf, d, b, events[0], u2, d2, Recv(buf, events));
    } else {
      dropped, used := ReceiveStops(buf, events);
    }
  }

  // ---------------------------------------------------------------------------
  // Resynchronisation
  // ---------------------------------------------------------------------------

  ghost predicate MagicFree(junk: seq<byte>) {
    forall i: nat :: !MagicAt(junk, i)
  }

  /** No proper suffix of MAGIC starts it, so junk can never complete a MAGIC across a frame start. */
  lemma NoMagicAcross(junk: seq<byte>, rest: seq<byte>, i: nat)
    requires MagicFree(junk) && (rest <= MAGIC || MAGIC <= rest)
    requires i < |junk|
    ensures !MagicAt(junk + rest, i)
  {
    var all := junk + rest;
    if i + 4 <= |junk| {
      assert all[i..i + 4] == junk[i..i + 4];
      assert !MagicAt(junk, i);
    } else if i + 4 <= |all| {
      assert all[i..i + 4][|junk| - i] == rest[0] == MAGIC[0];
    }
  }

  /** Junk in front of a buffered frame start is dropped exactly: nothing less, nothing more. */
  lemma ResyncDropsExactlyTheJunk(junk: seq<byte>, rest: seq<byte>)
    requires junk != [] && MagicFree(junk) && MAGIC <= rest && |junk| + |rest| >= HEADER_LEN
    ensures TryDecode(junk + rest) == Nothing(rest)
  {
    var all := junk + rest;
    NoMagicAcross(junk, rest, 0);
    assert all[0..4] == all[..4];
    assert all[|junk|..|junk| + 4] == rest[..4] == MAGIC;
    assert MagicAt(all, |junk|);
    forall i: nat | i < |junk| ensures !MagicAt(all, i) {
      NoMagicAcross(junk, rest, i);
    }
    assert FindMagic(all) == Some(|junk|);
    assert all[|junk|..] == rest;
  }

  /**
   When a read ends inside the frame that follows the junk, resynchronising keeps the bytes of
   that frame exactly when none or at least the whole MAGIC of it has arrived; with one, two or
   three bytes of MAGIC buffered they are thrown away and the frame can no longer be found.
   */
  lemma ResyncKeepsFrameStart(junk: seq<byte>, f: Frame, arrived: nat)
    requires junk != [] && MagicFree(junk)
    requires arrived <= |Encode(f)| && |junk| + arrived >= HEADER_LEN
    ensures TryDecode(junk + Encode(f)[..arrived]) == Nothing(Encode(f)[..arrived])
            <==> arrived == 0 || arrived >= 4
  {
    var start := Encode(f)[..arrived];
    assert Encode(f)[..4] == MAGIC;
    if arrived >= 4 {
      assert start[..4] == MAGIC;
      ResyncDropsExactlyTheJunk(junk, start);
    } else {
      assert start == MAGIC[..arrived];
      var all := junk + start;
      forall i: nat ensures !MagicAt(all, i) {
        if i < |junk| {
          NoMagicAcross(junk, start, i);
        }
      }
      assert all[0..4] == all[..4];
      assert FindMagic(all).None? && !MagicAt(all, 0);
      assert TryDecode(all) == Nothing([]);
    }
  }

  /**
   A resynchronised buffer is not decoded again before the next read. A whole frame behind junk
   is therefore reported only after another read; if the peer closes instead, the receive fails
   although the frame is complete, where without the junk it would have been delivered.
   */
  lemma ResyncWaitsForAnotherRead(junk: seq<byte>, f: Frame, tail: seq<byte>)
    requires junk != [] && MagicFree(junk) && Decodable(f)
    ensures Recv(junk + Encode(f), []) == Received(Err(EofMidFrame), Encode(f), [])
    ensures Recv(junk + Encode(f), [TimedOut]) == Received(NoData, Encode(f), [])
    ensures Recv(Encode(f) + tail, []) == Received(Msg(f), tail, [])
  {
    assert Encode(f)[..4] == MAGIC;
    ResyncDropsExactlyTheJunk(junk, Encode(f));
    BufferedFrame(f, tail);
  }
}
