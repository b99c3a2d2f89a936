/**
 The cursor stream end to end: the server's writer stamps motion frames, a network loses,
 duplicates and reorders datagrams, and the client's datagram thread advances the command.
 */
module CursorStream {
  import opened Basics
  import opened FrameCodec
  import opened SequenceNumbers
  import opened MotionFollower

  const ENVELOPE_LEN := 5
  const MOUSE_MOVE_REL: byte := 0x21
  const I32_MIN := -0x8000_0000
  const I32_MAX := 0x7FFF_FFFF

  type Coord = n: int | I32_MIN <= n <= I32_MAX witness 0

  // ---------------------------------------------------------------------------
  // Datagrams
  // ---------------------------------------------------------------------------

  datatype Datagram = Datagram(id: byte, number: Seq32, frame: Frame)

  function Pack(d: Datagram): seq<byte> {
    [d.id] + BigEndian(d.number) + Encode(d.frame)
  }

  /** Which frames are messages: of a known type, with a payload of its shape. */
  type Messages = Frame -> bool

  /** A datagram, unless it is cut short, its frame is bad or no message, or anything follows it. */
  function Unpack(isMessage: Messages, bytes: seq<byte>): Option<Datagram> {
    if |bytes| < ENVELOPE_LEN then None
    else
      match Decode(bytes[ENVELOPE_LEN..])
      case Whole(f, rest) =>
        if rest == [] && isMessage(f) then Some(Datagram(bytes[0], FromBigEndian(bytes[1..5]), f)) else None
      case _ => None
  }

  /** The datagram byte by byte: whose it is, its number, most significant byte first, and the frame. */
  lemma DatagramLayout(d: Datagram)
    ensures var b := Pack(d);
            && |b| >= 5 && b[0] == d.id && b[5..] == Encode(d.frame)
            && 0x100_0000 * b[1] as int + 0x1_0000 * b[2] as int + 0x100 * b[3] as int + b[4] as int == d.number
  {
    NumberSurvives(d.number);
    assert Pack(d)[1..5] == BigEndian(d.number);
  }

  /** A packed datagram comes back exactly when its frame is decodable and a message. */
  lemma UnpackInvertsPack(isMessage: Messages, d: Datagram)
    ensures Unpack(isMessage, Pack(d)) == Some(d) <==> Decodable(d.frame) && isMessage(d.frame)
  {
    var bytes := Pack(d);
    assert bytes[1..5] == BigEndian(d.number);
    assert bytes[ENVELOPE_LEN..] == Encode(d.frame) + [];
    NumberSurvives(d.number);
    RoundTrip(d.frame, []);
  }

  /** Truncated envelopes, bad frames, frames that are no message and trailing bytes never get through. */
  lemma UnpackIsExact(isMessage: Messages, bytes: seq<byte>)
    ensures var d := Unpack(isMessage, bytes);
            d.Some? ==> bytes == Pack(d.value) && Decodable(d.value.frame) && isMessage(d.value.frame)
  {
    if Unpack(isMessage, bytes).Some? {
      BytesSurvive(bytes[1..5]);
      DecodeIsExact(bytes[ENVELOPE_LEN..]);
      assert bytes == [bytes[0]] + bytes[1..5] + bytes[ENVELOPE_LEN..];
    }
  }

  /** Two's complement, big-endian. */
  function I32(v: Coord): (b: seq<byte>)
    ensures |b| == 4
  {
    BigEndian(if v < 0 then v + U32 else v)
  }

  function FromI32(b: seq<byte>): Coord
    requires |b| == 4
  {
    var n := FromBigEndian(b);
    if n > I32_MAX then n - U32 else n
  }

  function MotionFrame(dx: Coord, dy: Coord): Frame {
    Frame(MOUSE_MOVE_REL, 0, I32(dx) + I32(dy))
  }

  function MotionOf(f: Frame): Option<(Coord, Coord)> {
    if f.msgType == MOUSE_MOVE_REL && |f.payload| == 8
    then Some((FromI32(f.payload[..4]), FromI32(f.payload[4..])))
    else None
  }

  /** A motion frame byte by byte: type 0x21, no flag, then dx and dy as 32-bit two's complement numbers. */
  lemma MotionLayout(dx: Coord, dy: Coord)
    ensures var f := MotionFrame(dx, dy); var p := f.payload;
            && f.msgType == 0x21 && f.flags == 0 && |p| == 8
            && 0x100_0000 * p[0] as int + 0x1_0000 * p[1] as int + 0x100 * p[2] as int + p[3] as int
               == (if dx < 0 then dx + 0x1_0000_0000 else dx)
            && 0x100_0000 * p[4] as int + 0x1_0000 * p[5] as int + 0x100 * p[6] as int + p[7] as int
               == (if dy < 0 then dy + 0x1_0000_0000 else dy)
  {
    NumberSurvives(if dx < 0 then dx + U32 else dx);
    NumberSurvives(if dy < 0 then dy + U32 else dy);
  }

  ghost predicate KnowsMotion(isMessage: Messages) {
    forall dx: Coord, dy: Coord :: isMessage(MotionFrame(dx, dy))
  }

  lemma MotionSurvivesTheWire(isMessage: Messages, id: byte, number: Seq32, dx: Coord, dy: Coord)
    requires KnowsMotion(isMessage)
    ensures var d := Datagram(id, number, MotionFrame(dx, dy));
            Unpack(isMessage, Pack(d)) == Some(d) && MotionOf(d.frame) == Some((dx, dy))
  {
    UnpackInvertsPack(isMessage, Datagram(id, number, MotionFrame(dx, dy)));
    var p := MotionFrame(dx, dy).payload;
    assert p[..4] == I32(dx) && p[4..] == I32(dy);
    hide Pack, Unpack, I32, FromI32;
    I32Survives(dx);
    I32Survives(dy);
  }

  lemma I32Survives(v: Coord)
    ensures FromI32(I32(v)) == v
  {
    NumberSurvives(if v < 0 then v + U32 else v);
  }

  // ---------------------------------------------------------------------------
  // Sender
  // ---------------------------------------------------------------------------

  /** The datagram the writer sends for its `k`-th motion frame. */
  function SentDatagram(id: byte, k: nat, d: (Coord, Coord)): Datagram {
    Datagram(id, Wire(k), MotionFrame(d.0, d.1))
  }

  /** The cursor half of a client's writer thread. */
  class MotionWriter {
    const id: byte
    var number: Seq32
    ghost var sent: nat

    ghost predicate Valid()
      reads this
    {
      number == Wire(sent + 1)
    }

    constructor (id: byte)
      ensures Valid() && this.id == id && sent == 0
    {
      this.id := id;
      number := 1;
      sent := 0;
    }

    /** Stamp and emit one frame; without a known address it is dropped and uses no number. */
    method Send(addressKnown: bool, dx: Coord, dy: Coord) returns (bytes: Option<seq<byte>>)
      requires Valid()
      modifies this
      ensures Valid()
      ensures sent == old(sent) + (if addressKnown then 1 else 0)
      ensures bytes == if addressKnown then Some(Pack(SentDatagram(id, sent, (dx, dy)))) else None
    {
      if !addressKnown {
        return None;
      }
      var datagram := Datagram(id, number, MotionFrame(dx, dy));
      bytes := Some(Pack(datagram));
      assert datagram == SentDatagram(id, sent + 1, (dx, dy));
      WireNext(sent + 1);
      number := (number + 1) % MODULUS;
      sent := sent + 1;
    }
  }

  // ---------------------------------------------------------------------------
  // Receiver
  // ---------------------------------------------------------------------------

  /** One datagram off the socket, and whether control was on this machine when it arrived. */
  datatype Arrival = Arrival(bytes: seq<byte>, active: bool)

  /** The same, unpacked; `None` for malformed bytes. */
  datatype Heard = Heard(datagram: Option<Datagram>, active: bool)

  function HearAll(isMessage: Messages, arrivals: seq<Arrival>): (heard: seq<Heard>)
    ensures |heard| == |arrivals|
  {
    seq(|arrivals|, i requires 0 <= i < |arrivals| =>
      Heard(Unpack(isMessage, arrivals[i].bytes), arrivals[i].active))
  }

  predicate Fresh(ownId: byte, last: Seq32, d: Option<Datagram>) {
    d.Some? && d.value.id == ownId && IsNewer(d.value.number, last)
  }

  /** A received frame as the follower sees it: placed absolutely, or fed forward. */
  function FrameOp(absolute: bool, d: (Coord, Coord)): (op: Op)
    ensures (absolute <==> op.AdvanceOp?) && (!absolute <==> op.PushOp?)
    ensures op.dx == d.0 && op.dy == d.1
  {
    if absolute then AdvanceOp(d.0, d.1) else PushOp(d.0, d.1)
  }

  /** The motion operations a list of datagrams comes down to. */
  function StreamOps(ownId: byte, last: Seq32, heard: seq<Heard>, absolute: bool): seq<Op>
    decreases |heard|
  {
    if heard == [] then []
    else
      var d := heard[0].datagram;
      if !Fresh(ownId, last, d) then StreamOps(ownId, last, heard[1..], absolute)
      else
        var motion := MotionOf(d.value.frame);
        var rest := StreamOps(ownId, d.value.number, heard[1..], absolute);
        if motion.Some? && heard[0].active then [FrameOp(absolute, motion.value)] + rest else rest
  }

  /** On absolute backends frames only move the command; on relative ones every frame is fed forward. */
  lemma {:induction false} FramesAreFedForwardIff(ownId: byte, last: Seq32, heard: seq<Heard>, absolute: bool)
    ensures forall op <- StreamOps(ownId, last, heard, absolute) :: if absolute then op.AdvanceOp? else op.PushOp?
    decreases |heard|
  {
    if heard != [] {
      var d := heard[0].datagram;
      FramesAreFedForwardIff(ownId, if Fresh(ownId, last, d) then d.value.number else last, heard[1..], absolute);
    }
  }

  /** The datagram thread: drain the stream into the follower's command. */
  method UdpLoop(
      isMessage: Messages, ownId: byte, arrivals: seq<Arrival>, follower: PositionFollower, absolute: bool)
    requires follower.Valid()
    modifies follower
    ensures follower.Valid()
    ensures follower.State() == Run(old(follower.State()), StreamOps(ownId, 0, HearAll(isMessage, arrivals), absolute))
  {
    var motionSeq: Seq32 := 0;
    var i := 0;
    while i < |arrivals|
      invariant i <= |arrivals|
      invariant follower.Valid()
      invariant Run(follower.State(), StreamOps(ownId, motionSeq, HearAll(isMessage, arrivals)[i..], absolute))
             == Run(old(follower.State()), StreamOps(ownId, 0, HearAll(isMessage, arrivals), absolute))
    {
      var a := arrivals[i];
      var d := Unpack(isMessage, a.bytes);
      ghost var now := HearAll(isMessage, arrivals)[i..];
      assert now[0] == Heard(d, a.active) && now[1..] == HearAll(isMessage, arrivals)[i + 1..];
      i := i + 1;
      if d.None? {
        continue;
      }
      if d.value.id != ownId || !IsNewer(d.value.number, motionSeq) {
        continue;
      }
      motionSeq := d.value.number;
      var motion := MotionOf(d.value.frame);
      if motion.Some? {
        if a.active {
          ghost var rest := StreamOps(ownId, motionSeq, now[1..], absolute);
          assert ([FrameOp(absolute, motion.value)] + rest)[1..] == rest;
          if absolute {
            follower.Advance(motion.value.0, motion.value.1);
          } else {
            var ix, iy := follower.Push(motion.value.0, motion.value.1);
          }
        }
      }
    }
  }

  // ---------------------------------------------------------------------------
  // The network between them
  // ---------------------------------------------------------------------------

  /** Every frame sent, as the operation it stands for. */
  function AllOps(absolute: bool, frames: seq<(Coord, Coord)>): (ops: seq<Op>)
    ensures |ops| == |frames|
    ensures forall i | 0 <= i < |frames| :: ops[i] == FrameOp(absolute, frames[i])
  {
    seq(|frames|, i requires 0 <= i < |frames| => FrameOp(absolute, frames[i]))
  }

  predicate Numbers(frames: seq<(Coord, Coord)>, delivery: seq<(nat, bool)>) {
    forall e <- delivery :: 1 <= e.0 <= |frames|
  }

  /** What arrives when the network delivers the frames numbered in `delivery`, in that order. */
  function Delivered(id: byte, frames: seq<(Coord, Coord)>, delivery: seq<(nat, bool)>): (arrivals: seq<Arrival>)
    requires Numbers(frames, delivery)
    ensures |arrivals| == |delivery|
  {
    seq(|delivery|, i requires 0 <= i < |delivery| =>
      Arrival(Pack(SentDatagram(id, delivery[i].0, frames[delivery[i].0 - 1])), delivery[i].1))
  }

  function FrameNumbers(delivery: seq<(nat, bool)>): seq<nat> {
    if delivery == [] then [] else [delivery[0].0] + FrameNumbers(delivery[1..])
  }

  /** The frames that take effect: each the latest so far, arriving while control is on this machine. */
  function Effective(high: nat, delivery: seq<(nat, bool)>): seq<nat>
    decreases |delivery|
  {
    if delivery == [] then []
    else if delivery[0].0 <= high then Effective(high, delivery[1..])
    else if delivery[0].1 then [delivery[0].0] + Effective(delivery[0].0, delivery[1..])
    else Effective(delivery[0].0, delivery[1..])
  }

  lemma {:induction false} EffectiveInOrder(high: nat, delivery: seq<(nat, bool)>, frames: seq<(Coord, Coord)>)
    requires Numbers(frames, delivery)
    ensures var e := Effective(high, delivery);
            StrictlyIncreasing(e) && forall k <- e :: high < k <= |frames|
    decreases |delivery|
  {
    if delivery != [] {
      assert delivery[0] in delivery && forall e <- delivery[1..] :: e in delivery;
      EffectiveInOrder(Max(high, delivery[0].0), delivery[1..], frames);
      IncreasingFromAny(delivery[0].0, Effective(Max(high, delivery[0].0), delivery[1..]));
    }
  }

  lemma IncreasingFromAny(first: nat, rest: seq<nat>)
    ensures StrictlyIncreasing(rest) && (forall k <- rest :: first < k) ==> StrictlyIncreasing([first] + rest)
  {
    if StrictlyIncreasing(rest) && forall k <- rest :: first < k {
      IncreasingFrom(first, rest);
    }
  }

  predicate Within(base: nat, count: nat, numbers: seq<nat>) {
    forall k <- numbers :: base < k <= base + count
  }

  /** The operations numbered `numbers`, when `ops[0]` has number `base + 1`. */
  function PickOps(ops: seq<Op>, base: nat, numbers: seq<nat>): seq<Op>
    requires Within(base, |ops|, numbers)
  {
    if numbers == [] then []
    else
      assert numbers[0] in numbers && forall k <- numbers[1..] :: k in numbers;
      [ops[numbers[0] - base - 1]] + PickOps(ops, base, numbers[1..])
  }

  /** The delivered datagrams as the receiver unpacks them. */
  function Sent(id: byte, frames: seq<(Coord, Coord)>, delivery: seq<(nat, bool)>): (heard: seq<Heard>)
    requires Numbers(frames, delivery)
    ensures |heard| == |delivery|
  {
    seq(|delivery|, i requires 0 <= i < |delivery| =>
      Heard(Some(SentDatagram(id, delivery[i].0, frames[delivery[i].0 - 1])), delivery[i].1))
  }

  lemma DeliveredIsHeard(
      isMessage: Messages, id: byte, frames: seq<(Coord, Coord)>, delivery: seq<(nat, bool)>)
    requires KnowsMotion(isMessage) && Numbers(frames, delivery)
    ensures HearAll(isMessage, Delivered(id, frames, delivery)) == Sent(id, frames, delivery)
  {
    hide Pack, Unpack, KnowsMotion, MotionOf;
    forall i | 0 <= i < |delivery|
      ensures HearAll(isMessage, Delivered(id, frames, delivery))[i] == Sent(id, frames, delivery)[i]
    {
      var (k, _) := delivery[i];
      MotionSurvivesTheWire(isMessage, id, Wire(k), frames[k - 1].0, frames[k - 1].1);
    }
  }

  /** What one delivered datagram contributes to the stream. */
  lemma OneArrival(id: byte, d: (Coord, Coord), k: nat, active: bool, high: nat, later: seq<Heard>, absolute: bool)
    requires -HALF <= k - high < HALF
    ensures StreamOps(id, Wire(high), [Heard(Some(SentDatagram(id, k, d)), active)] + later, absolute)
         == if k <= high then StreamOps(id, Wire(high), later, absolute)
            else if active then [FrameOp(absolute, d)] + StreamOps(id, Wire(k), later, absolute)
            else StreamOps(id, Wire(k), later, absolute)
  {
    var first := Heard(Some(SentDatagram(id, k, d)), active);
    assert ([first] + later)[0] == first && ([first] + later)[1..] == later;
    NewerAgreesWithinHalfCycle(k, high);
    MotionSurvivesTheWire((_: Frame) => true, id, Wire(k), d.0, d.1);
  }

  lemma SentFirst(id: byte, frames: seq<(Coord, Coord)>, delivery: seq<(nat, bool)>)
    requires Numbers(frames, delivery) && delivery != []
    ensures Numbers(frames, delivery[1..]) && 1 <= delivery[0].0 <= |frames|
    ensures Sent(id, frames, delivery)
         == [Heard(Some(SentDatagram(id, delivery[0].0, frames[delivery[0].0 - 1])), delivery[0].1)]
            + Sent(id, frames, delivery[1..])
  {
    assert delivery[0] in delivery && forall e <- delivery[1..] :: e in delivery;
  }

  /** The operations of the frames that take effect. */
  function EffectiveOps(high: nat, frames: seq<(Coord, Coord)>, delivery: seq<(nat, bool)>, absolute: bool): seq<Op>
    requires Numbers(frames, delivery)
    decreases |delivery|
  {
    if delivery == [] then []
    else
      assert delivery[0] in delivery && forall e <- delivery[1..] :: e in delivery;
      var (k, active) := delivery[0];
      if k <= high then EffectiveOps(high, frames, delivery[1..], absolute)
      else if active then [FrameOp(absolute, frames[k - 1])] + EffectiveOps(k, frames, delivery[1..], absolute)
      else EffectiveOps(k, frames, delivery[1..], absolute)
  }

  lemma {:induction false} StreamAppliesEffective(
      id: byte, frames: seq<(Coord, Coord)>, high: nat, delivery: seq<(nat, bool)>, absolute: bool)
    requires Numbers(frames, delivery) && InWindow(high, FrameNumbers(delivery))
    ensures StreamOps(id, Wire(high), Sent(id, frames, delivery), absolute)
         == EffectiveOps(high, frames, delivery, absolute)
    decreases |delivery|
  {
    hide StreamOps, Sent, Numbers, InWindow, FrameNumbers, EffectiveOps, SentDatagram, FrameOp;
    if delivery == [] {
      NothingArrives(id, frames, high, delivery, absolute);
    } else {
      var (k, active) := delivery[0];
      var later := delivery[1..];
      SentFirst(id, frames, delivery);
      WindowMoves(high, delivery);
      StreamAppliesEffective(id, frames, Max(high, k), later, absolute);
      OneArrival(id, frames[k - 1], k, active, high, Sent(id, frames, later), absolute);
      OneEffect(high, frames, delivery, absolute);
    }
  }

  lemma NothingArrives(id: byte, frames: seq<(Coord, Coord)>, high: nat, delivery: seq<(nat, bool)>, absolute: bool)
    requires delivery == [] && Numbers(frames, delivery)
    ensures StreamOps(id, Wire(high), Sent(id, frames, delivery), absolute) == []
    ensures EffectiveOps(high, frames, delivery, absolute) == []
  {
  }

  lemma WindowMoves(high: nat, delivery: seq<(nat, bool)>)
    requires delivery != [] && InWindow(high, FrameNumbers(delivery))
    ensures -HALF <= delivery[0].0 - high < HALF
    ensures InWindow(Max(high, delivery[0].0), FrameNumbers(delivery[1..]))
  {
    assert FrameNumbers(delivery)[1..] == FrameNumbers(delivery[1..]);
  }

  lemma OneEffect(high: nat, frames: seq<(Coord, Coord)>, delivery: seq<(nat, bool)>, absolute: bool)
    requires Numbers(frames, delivery) && delivery != [] && Numbers(frames, delivery[1..])
    requires 1 <= delivery[0].0 <= |frames|
    ensures var (k, active) := delivery[0];
            EffectiveOps(high, frames, delivery, absolute) ==
            if k <= high then EffectiveOps(high, frames, delivery[1..], absolute)
            else if active then [FrameOp(absolute, frames[k - 1])] + EffectiveOps(k, frames, delivery[1..], absolute)
            else EffectiveOps(k, frames, delivery[1..], absolute)
  {
  }

  lemma {:induction false} EffectiveOpsArePicked(
      high: nat, frames: seq<(Coord, Coord)>, delivery: seq<(nat, bool)>, absolute: bool)
    requires Numbers(frames, delivery)
    ensures Within(0, |frames|, Effective(high, delivery))
    ensures EffectiveOps(high, frames, delivery, absolute)
         == PickOps(AllOps(absolute, frames), 0, Effective(high, delivery))
    decreases |delivery|
  {
    EffectiveInOrder(high, delivery, frames);
    if delivery != [] {
      assert delivery[0] in delivery && forall e <- delivery[1..] :: e in delivery;
      EffectiveOpsArePicked(Max(high, delivery[0].0), frames, delivery[1..], absolute);
    }
  }

  lemma {:induction false} PickShift(ops: seq<Op>, base: nat, numbers: seq<nat>)
    requires ops != [] && Within(base, |ops|, numbers) && Within(base + 1, |ops| - 1, numbers)
    ensures PickOps(ops, base, numbers) == PickOps(ops[1..], base + 1, numbers)
  {
    if numbers != [] {
      assert numbers[0] in numbers && forall k <- numbers[1..] :: k in numbers;
      PickShift(ops, base, numbers[1..]);
    }
  }

  /** Frames of a list numbered from `base + 1` that are not among `numbers`. */
  function Missing(base: nat, count: nat, numbers: seq<nat>): (lost: seq<bool>)
    ensures |lost| == count
    decreases count
  {
    if count == 0 then [] else [base + 1 !in numbers] + Missing(base + 1, count - 1, numbers)
  }

  lemma {:induction false} MissingIgnoresEarlier(base: nat, count: nat, first: nat, numbers: seq<nat>)
    requires first <= base
    ensures Missing(base, count, [first] + numbers) == Missing(base, count, numbers)
    decreases count
  {
    if count > 0 {
      MissingIgnoresEarlier(base + 1, count - 1, first, numbers);
    }
  }

  /** The lowest number of an increasing list within range is first or absent. */
  lemma FirstNumber(base: nat, count: nat, numbers: seq<nat>)
    requires count > 0 && StrictlyIncreasing(numbers) && Within(base, count, numbers)
    ensures base + 1 in numbers ==> numbers[0] == base + 1
    ensures base + 1 !in numbers ==> Within(base + 1, count - 1, numbers)
    ensures numbers != [] ==>
              StrictlyIncreasing(numbers[1..]) &&
              Within(base, count, numbers[1..]) && Within(base + 1, count - 1, numbers[1..])
  {
    assert numbers != [] ==> numbers[0] in numbers;
    forall k | numbers != [] && k in numbers[1..] ensures numbers[0] < k && k in numbers {
      var i :| 0 <= i < |numbers| - 1 && numbers[1..][i] == k;
      assert numbers[i + 1] == k;
    }
  }

  /** The numbers still to be picked once the first frame has been dealt with. */
  function AfterFirst(base: nat, numbers: seq<nat>): seq<nat> {
    if base + 1 in numbers then numbers[1..] else numbers
  }

  lemma MissingFirst(base: nat, count: nat, numbers: seq<nat>)
    requires count > 0 && StrictlyIncreasing(numbers) && Within(base, count, numbers)
    ensures Missing(base, count, numbers)
         == [base + 1 !in numbers] + Missing(base + 1, count - 1, AfterFirst(base, numbers))
  {
    FirstNumber(base, count, numbers);
    if base + 1 in numbers {
      assert numbers == [base + 1] + numbers[1..];
      MissingIgnoresEarlier(base + 1, count - 1, base + 1, numbers[1..]);
    }
  }

  lemma PickFirst(ops: seq<Op>, base: nat, numbers: seq<nat>)
    requires ops != [] && StrictlyIncreasing(numbers) && Within(base, |ops|, numbers)
    ensures var rest := AfterFirst(base, numbers);
            && StrictlyIncreasing(rest) && Within(base + 1, |ops| - 1, rest)
            && PickOps(ops, base, numbers)
               == (if base + 1 in numbers then [ops[0]] else []) + PickOps(ops[1..], base + 1, rest)
  {
    FirstNumber(base, |ops|, numbers);
    var rest := AfterFirst(base, numbers);
    PickShift(ops, base, rest);
  }

  lemma SurvivingFirst(ops: seq<Op>, lost: seq<bool>)
    requires |lost| == |ops| && ops != [] && IsFrame(ops[0])
    ensures Surviving(ops, lost) == (if lost[0] then [] else [ops[0]]) + Surviving(ops[1..], lost[1..])
  {
  }

  /** Picking an increasing list of frames is the same as losing all the others. */
  lemma {:induction false} PickingIsLosing(ops: seq<Op>, base: nat, numbers: seq<nat>)
    requires StrictlyIncreasing(numbers) && Within(base, |ops|, numbers)
    requires forall i | 0 <= i < |ops| :: IsFrame(ops[i])
    ensures Surviving(ops, Missing(base, |ops|, numbers)) == PickOps(ops, base, numbers)
    decreases |ops|
  {
    if ops == [] {
      SomeOutside(base, numbers);
    } else {
      MissingFirst(base, |ops|, numbers);
      PickFirst(ops, base, numbers);
      SurvivingFirst(ops, Missing(base, |ops|, numbers));
      PickingIsLosing(ops[1..], base + 1, AfterFirst(base, numbers));
    }
  }

  lemma SomeOutside(base: nat, numbers: seq<nat>)
    ensures numbers != [] ==> !Within(base, 0, numbers)
  {
    assert numbers != [] ==> numbers[0] in numbers;
  }

  /** The frames that never take effect. */
  function NeverApplied(frames: seq<(Coord, Coord)>, delivery: seq<(nat, bool)>): (lost: seq<bool>)
    ensures |lost| == |frames|
  {
    Missing(0, |frames|, Effective(0, delivery))
  }

  /**
   From the server's writer to the client's command: for every list of motion frames and every
   network that loses, duplicates and reorders their datagrams inside the sequence window, also
   while control is elsewhere, the receiver applies an increasing selection of the frames sent:
   exactly the run in which the other frames were lost.
   */
  lemma StreamIsALossyRun(
      isMessage: Messages, id: byte, frames: seq<(Coord, Coord)>, delivery: seq<(nat, bool)>, absolute: bool)
    requires KnowsMotion(isMessage) && Numbers(frames, delivery) && InWindow(0, FrameNumbers(delivery))
    ensures StrictlyIncreasing(Effective(0, delivery))
    ensures StreamOps(id, 0, HearAll(isMessage, Delivered(id, frames, delivery)), absolute)
         == Surviving(AllOps(absolute, frames), NeverApplied(frames, delivery))
  {
    var ops := AllOps(absolute, frames);
    EffectiveInOrder(0, delivery, frames);
    DeliveredIsHeard(isMessage, id, frames, delivery);
    StreamAppliesEffective(id, frames, 0, delivery, absolute);
    EffectiveOpsArePicked(0, frames, delivery, absolute);
    PickingIsLosing(ops, 0, Effective(0, delivery));
  }

  /**
   Loss tolerance end to end: the command ends on the screen, and within the sum of the deltas
   that did not take effect of the command a perfect network would have produced.
   */
  lemma EndToEndLossTolerance(
      isMessage: Messages, id: byte, frames: seq<(Coord, Coord)>, delivery: seq<(nat, bool)>, absolute: bool,
      f: Follower)
    requires KnowsMotion(isMessage) && Numbers(frames, delivery) && InWindow(0, FrameNumbers(delivery)) && f.Invariant()
    ensures var ops := AllOps(absolute, frames);
            var received := StreamOps(id, 0, HearAll(isMessage, Delivered(id, frames, delivery)), absolute);
            var (lostX, lostY) := LostTravel(ops, NeverApplied(frames, delivery));
            Close(Run(f, ops), Run(f, received), lostX, lostY) && Run(f, received).Invariant()
  {
    StreamIsALossyRun(isMessage, id, frames, delivery, absolute);
    LossIsBounded(f, AllOps(absolute, frames), NeverApplied(frames, delivery));
    RunKeepsInvariant(f, StreamOps(id, 0, HearAll(isMessage, Delivered(id, frames, delivery)), absolute));
  }

  // ---------------------------------------------------------------------------
  // With everything else that happens on the client in between
  // ---------------------------------------------------------------------------

  /** A datagram arrives, or another thread of the client does something to the follower. */
  datatype Slot = Arrive(number: nat, active: bool) | Local(op: Op)

  predicate Scheduled(frames: seq<(Coord, Coord)>, slots: seq<Slot>) {
    forall s <- slots :: if s.Arrive? then 1 <= s.number <= |frames| else !IsFrame(s.op)
  }

  function Arrivals(slots: seq<Slot>): seq<nat>
    decreases |slots|
  {
    if slots == [] then []
    else if slots[0].Arrive? then [slots[0].number] + Arrivals(slots[1..])
    else Arrivals(slots[1..])
  }

  /** The follower's operations: those of the datagrams as they come off the wire, and the others between them. */
  function Performed(
      isMessage: Messages, id: byte, last: Seq32, frames: seq<(Coord, Coord)>, slots: seq<Slot>,
      absolute: bool): seq<Op>
    requires Scheduled(frames, slots)
    decreases |slots|
  {
    if slots == [] then []
    else
      assert slots[0] in slots && forall s <- slots[1..] :: s in slots;
      match slots[0]
      case Local(op) => [op] + Performed(isMessage, id, last, frames, slots[1..], absolute)
      case Arrive(k, active) =>
        var heard := Heard(Unpack(isMessage, Pack(SentDatagram(id, k, frames[k - 1]))), active);
        var next := if Fresh(id, last, heard.datagram) then heard.datagram.value.number else last;
        StreamOps(id, last, [heard], absolute) + Performed(isMessage, id, next, frames, slots[1..], absolute)
  }

  /** A run, and which of its operations were lost. */
  datatype Lossy = Lossy(ops: seq<Op>, lost: seq<bool>) {
    predicate Shaped() {
      |ops| == |lost|
    }

    function Then(rest: Lossy): Lossy {
      Lossy(ops + rest.ops, lost + rest.lost)
    }
  }

  /** Frames `from + 1` to `to`, none of which takes effect. */
  function Skipped(frames: seq<(Coord, Coord)>, from: nat, to: nat, absolute: bool): (r: Lossy)
    requires from <= to <= |frames|
    ensures r.Shaped() && |r.ops| == to - from && forall i | 0 <= i < to - from :: r.lost[i] && IsFrame(r.ops[i])
  {
    Lossy(AllOps(absolute, frames[from..to]), seq(to - from, _ => true))
  }

  /**
   The run on a network that loses nothing: every frame in its order, the frames that never take
   effect marked lost, and every other operation where it happened among those that do.
   */
  function Lossless(frames: seq<(Coord, Coord)>, base: nat, slots: seq<Slot>, absolute: bool): (r: Lossy)
    requires Scheduled(frames, slots) && base <= |frames|
    ensures r.Shaped()
    decreases |slots|
  {
    if slots == [] then Skipped(frames, base, |frames|, absolute)
    else
      assert slots[0] in slots && forall s <- slots[1..] :: s in slots;
      match slots[0]
      case Local(op) => Lossy([op], [false]).Then(Lossless(frames, base, slots[1..], absolute))
      case Arrive(k, active) =>
        if k <= base then Lossless(frames, base, slots[1..], absolute)
        else
          Skipped(frames, base, k - 1, absolute)
            .Then(Lossy([FrameOp(absolute, frames[k - 1])], [!active]))
            .Then(Lossless(frames, k, slots[1..], absolute))
  }

  function FramesOf(ops: seq<Op>): seq<Op> {
    if ops == [] then [] else (if IsFrame(ops[0]) then [ops[0]] else []) + FramesOf(ops[1..])
  }

  function OthersOf(ops: seq<Op>): seq<Op> {
    if ops == [] then [] else (if IsFrame(ops[0]) then [] else [ops[0]]) + OthersOf(ops[1..])
  }

  function Locals(slots: seq<Slot>): seq<Op> {
    if slots == [] then [] else (if slots[0].Local? then [slots[0].op] else []) + Locals(slots[1..])
  }

  lemma {:induction false} PartsOfBoth(a: seq<Op>, b: seq<Op>)
    ensures FramesOf(a + b) == FramesOf(a) + FramesOf(b) && OthersOf(a + b) == OthersOf(a) + OthersOf(b)
    decreases |a|
  {
    if a == [] {
      assert a + b == b;
    } else {
      assert (a + b)[0] == a[0] && (a + b)[1..] == a[1..] + b;
      PartsOfBoth(a[1..], b);
      var frame, other := if IsFrame(a[0]) then [a[0]] else [], if IsFrame(a[0]) then [] else [a[0]];
      assert frame + (FramesOf(a[1..]) + FramesOf(b)) == (frame + FramesOf(a[1..])) + FramesOf(b);
      assert other + (OthersOf(a[1..]) + OthersOf(b)) == (other + OthersOf(a[1..])) + OthersOf(b);
    }
  }

  lemma {:induction false} OnlyFrames(ops: seq<Op>)
    requires forall i | 0 <= i < |ops| :: IsFrame(ops[i])
    ensures FramesOf(ops) == ops && OthersOf(ops) == []
    decreases |ops|
  {
    if ops != [] { OnlyFrames(ops[1..]); }
  }

  lemma {:induction false} SurvivingBoth(a: Lossy, b: Lossy)
    requires a.Shaped() && b.Shaped()
    ensures Surviving(a.Then(b).ops, a.Then(b).lost) == Surviving(a.ops, a.lost) + Surviving(b.ops, b.lost)
    decreases |a.ops|
  {
    var c := a.Then(b);
    if a.ops == [] {
      assert c.ops == b.ops && c.lost == b.lost;
    } else {
      var rest := Lossy(a.ops[1..], a.lost[1..]);
      assert c.ops[0] == a.ops[0] && c.ops[1..] == rest.Then(b).ops;
      assert c.lost[0] == a.lost[0] && c.lost[1..] == rest.Then(b).lost;
      SurvivingBoth(rest, b);
    }
  }

  lemma {:induction false} SkippedLeavesNothing(a: Lossy)
    requires a.Shaped() && forall i | 0 <= i < |a.ops| :: a.lost[i] && IsFrame(a.ops[i])
    ensures Surviving(a.ops, a.lost) == []
    decreases |a.ops|
  {
    if a.ops != [] { SkippedLeavesNothing(Lossy(a.ops[1..], a.lost[1..])); }
  }

  lemma RestIsComplete(frames: seq<(Coord, Coord)>, base: nat, absolute: bool)
    requires base <= |frames|
    ensures var ops := Skipped(frames, base, |frames|, absolute).ops;
            FramesOf(ops) == AllOps(absolute, frames[base..]) && OthersOf(ops) == []
  {
    OnlyFrames(AllOps(absolute, frames[base..]));
    assert frames[base..|frames|] == frames[base..];
  }

  lemma LocalIsComplete(op: Op, rest: seq<Op>)
    requires !IsFrame(op)
    ensures FramesOf([op] + rest) == FramesOf(rest) && OthersOf([op] + rest) == [op] + OthersOf(rest)
  {
    assert ([op] + rest)[0] == op && ([op] + rest)[1..] == rest;
    assert [] + FramesOf(rest) == FramesOf(rest);
  }

  /** The reference run holds every frame, in order, and every other operation, in order. */
  lemma {:induction false} LosslessIsComplete(frames: seq<(Coord, Coord)>, base: nat, slots: seq<Slot>, absolute: bool)
    requires Scheduled(frames, slots) && base <= |frames|
    ensures FramesOf(Lossless(frames, base, slots, absolute).ops) == AllOps(absolute, frames[base..])
    ensures OthersOf(Lossless(frames, base, slots, absolute).ops) == Locals(slots)
    decreases |slots|
  {
    hide FramesOf, OthersOf, AllOps;
    if slots == [] {
      RestIsComplete(frames, base, absolute);
    } else {
      assert slots[0] in slots && forall s <- slots[1..] :: s in slots;
      match slots[0] {
        case Local(op) =>
          LosslessIsComplete(frames, base, slots[1..], absolute);
          LocalIsComplete(op, Lossless(frames, base, slots[1..], absolute).ops);
        case Arrive(k, _) =>
          assert [] + Locals(slots[1..]) == Locals(slots[1..]);
          if k <= base {
            LosslessIsComplete(frames, base, slots[1..], absolute);
          } else {
            LosslessIsComplete(frames, k, slots[1..], absolute);
            ArrivalIsComplete(frames, base, k, Lossless(frames, k, slots[1..], absolute).ops, absolute);
          }
      }
    }
  }

  lemma FramesJoin(frames: seq<(Coord, Coord)>, base: nat, k: nat, absolute: bool)
    requires base < k <= |frames|
    ensures var early := AllOps(absolute, frames[base..k - 1]) + [FrameOp(absolute, frames[k - 1])];
            && AllOps(absolute, frames[base..]) == early + AllOps(absolute, frames[k..])
            && forall i | 0 <= i < |early| :: IsFrame(early[i])
  {
  }

  lemma ArrivalIsComplete(frames: seq<(Coord, Coord)>, base: nat, k: nat, rest: seq<Op>, absolute: bool)
    requires base < k <= |frames| && FramesOf(rest) == AllOps(absolute, frames[k..])
    ensures var ops := AllOps(absolute, frames[base..k - 1]) + [FrameOp(absolute, frames[k - 1])] + rest;
            FramesOf(ops) == AllOps(absolute, frames[base..]) && OthersOf(ops) == OthersOf(rest)
  {
    var early := AllOps(absolute, frames[base..k - 1]) + [FrameOp(absolute, frames[k - 1])];
    FramesJoin(frames, base, k, absolute);
    hide AllOps;
    PartsOfBoth(early, rest);
    OnlyFrames(early);
    assert [] + OthersOf(rest) == OthersOf(rest);
  }

  /** One arrival: nothing if it is late, otherwise its operation if control is here. */
  lemma OneSlot(
      isMessage: Messages, id: byte, d: (Coord, Coord), k: nat, active: bool, high: nat, absolute: bool)
    requires KnowsMotion(isMessage) && -HALF <= k - high < HALF
    ensures var heard := Heard(Unpack(isMessage, Pack(SentDatagram(id, k, d))), active);
            && (Fresh(id, Wire(high), heard.datagram) <==> k > high)
            && (k > high ==> heard.datagram.value.number == Wire(k))
            && StreamOps(id, Wire(high), [heard], absolute)
               == (if k > high && active then [FrameOp(absolute, d)] else [])
  {
    MotionSurvivesTheWire(isMessage, id, Wire(k), d.0, d.1);
    NewerAgreesWithinHalfCycle(k, high);
    var heard := Heard(Some(SentDatagram(id, k, d)), active);
    assert [heard] + [] == [heard];
    OneArrival(id, d, k, active, high, [], absolute);
  }

  lemma KeptAlone(op: Op)
    ensures Surviving([op], [false]) == [op]
  {
    assert [op][1..] == [] && [false][1..] == [];
  }

  /** What the client performs is the reference run without what was lost. */
  lemma {:induction false} PerformedIsLossy(
      isMessage: Messages, id: byte, frames: seq<(Coord, Coord)>, base: nat, slots: seq<Slot>, absolute: bool)
    requires KnowsMotion(isMessage) && Scheduled(frames, slots) && base <= |frames| && InWindow(base, Arrivals(slots))
    ensures var r := Lossless(frames, base, slots, absolute);
            Performed(isMessage, id, Wire(base), frames, slots, absolute) == Surviving(r.ops, r.lost)
    decreases |slots|
  {
    hide Pack, Unpack, StreamOps, Surviving;
    if slots == [] {
      SkippedLeavesNothing(Skipped(frames, base, |frames|, absolute));
    } else {
      var later := slots[1..];
      assert slots[0] in slots && forall s <- later :: s in slots;
      match slots[0] {
        case Local(op) =>
          PerformedIsLossy(isMessage, id, frames, base, later, absolute);
          SurvivingBoth(Lossy([op], [false]), Lossless(frames, base, later, absolute));
          KeptAlone(op);
        case Arrive(k, active) =>
          assert Arrivals(slots)[0] == k && Arrivals(slots)[1..] == Arrivals(later);
          OneSlot(isMessage, id, frames[k - 1], k, active, base, absolute);
          PerformedIsLossy(isMessage, id, frames, Max(base, k), later, absolute);
          if k > base { ArrivalSurvives(frames, base, k, active, later, absolute); }
      }
    }
  }

  lemma ArrivalSurvives(
      frames: seq<(Coord, Coord)>, base: nat, k: nat, active: bool, later: seq<Slot>, absolute: bool)
    requires Scheduled(frames, later) && base < k <= |frames|
    ensures var skipped := Skipped(frames, base, k - 1, absolute);
            var one := Lossy([FrameOp(absolute, frames[k - 1])], [!active]);
            var rest := Lossless(frames, k, later, absolute);
            var all := skipped.Then(one).Then(rest);
            Surviving(all.ops, all.lost)
              == (if active then [FrameOp(absolute, frames[k - 1])] else []) + Surviving(rest.ops, rest.lost)
  {
    var skipped := Skipped(frames, base, k - 1, absolute);
    var one := Lossy([FrameOp(absolute, frames[k - 1])], [!active]);
    var rest := Lossless(frames, k, later, absolute);
    SurvivingOne(frames[k - 1], active, absolute);
    hide Lossless, Skipped, Surviving;
    SurvivingBoth(skipped.Then(one), rest);
    SurvivingBoth(skipped, one);
    SkippedLeavesNothing(skipped);
    assert [] + Surviving(one.ops, one.lost) == Surviving(one.ops, one.lost);
  }

  lemma SurvivingOne(d: (Coord, Coord), active: bool, absolute: bool)
    ensures Surviving([FrameOp(absolute, d)], [!active]) == if active then [FrameOp(absolute, d)] else []
  {
    assert [FrameOp(absolute, d)][1..] == [] && [!active][1..] == [];
  }

  /**
   Loss tolerance with everything in between: whatever the client does to the follower besides,
   entering, leaving, correcting, re-bounding, among the arrivals, the command ends on the screen,
   and within the sum of the deltas that took no effect of the command of the same run on a network
   that loses nothing.
   */
  lemma LossToleranceAmongOperations(
      isMessage: Messages, id: byte, frames: seq<(Coord, Coord)>, slots: seq<Slot>, absolute: bool, f: Follower)
    requires KnowsMotion(isMessage) && Scheduled(frames, slots) && InWindow(0, Arrivals(slots)) && f.Invariant()
    ensures var r := Lossless(frames, 0, slots, absolute);
            var performed := Performed(isMessage, id, 0, frames, slots, absolute);
            var (lostX, lostY) := LostTravel(r.ops, r.lost);
            && FramesOf(r.ops) == AllOps(absolute, frames) && OthersOf(r.ops) == Locals(slots)
            && performed == Surviving(r.ops, r.lost)
            && Close(Run(f, r.ops), Run(f, performed), lostX, lostY) && Run(f, performed).Invariant()
  {
    var r := Lossless(frames, 0, slots, absolute);
    LosslessIsComplete(frames, 0, slots, absolute);
    assert frames[0..] == frames;
    PerformedIsLossy(isMessage, id, frames, 0, slots, absolute);
    LossIsBounded(f, r.ops, r.lost);
    RunKeepsInvariant(f, Performed(isMessage, id, 0, frames, slots, absolute));
  }
}
