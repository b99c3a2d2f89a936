# A verified model of kvmshare

kvmshare moves one keyboard and mouse between machines. This project models its decision-making
parts in Dafny and proves what they promise. One command verifies everything:

    dafny verify dfyconfig.toml

The modules follow the program:

* `MotionFollower` is the client's closed-loop cursor follower: carry, saturation, clamping, and the
  theorems about stability, convergence, exact landing and lost frames; `FollowerCommand` says where the
  command goes. Only whole pixels reach the
  command and the gains are 0.5 and 0.4, so every fraction is a whole number of tenths and the model
  counts in tenths.
* `FrameCodec`, `TransportStream`, `SequenceNumbers` and `CursorStream` are the wire: frames, the
  incremental decoder of the control channel with resynchronisation, wrapping sequence numbers, and
  the lossy cursor stream from the server's writer to the client's command.
* `ScreenLayout` and `LayoutNormalization` are the virtual desktop: the ray cast that finds the
  neighbouring screen, and the snapping of near-adjacent screens.
* `HandOff`, `Registration`, `ClientThreads` and `ThreadWork` are the concurrent protocols: who is
  driven and what reaches it, which connection owns a client id, and the locks, the event queue and the
  work of the client's threads. Steps of different actors interleave freely; the theorems hold for every
  interleaving.
* `Shortcuts` is the chord engine together with the session's decision to forward a key.
* `FileReplacement`, `RoleLock` and `ClipboardSync` are the guarantees that span failures, processes
  and machines.

Code that updates state in place is a class or a method with loops, proved against a function of the
old state; the theorems are about those functions. Everything kvmshare does not decide itself (how
a read cuts the bytes, which frames the network loses, which thread moves, which file operation
fails, when a timer expires, how the operating system moves the cursor) is a parameter or a choice,
and the theorems quantify over it.

## Where the code does less than its comments say

Each of these is a theorem: the exact condition, and instances where they help.

* Resynchronisation clears a buffer without MAGIC completely, so one to three bytes of a frame that
  follows junk are lost (`ResyncKeepsFrameStart`), and it does not decode again before the next
  read (`ResyncWaitsForAnotherRead`).
* The payload cap is there so that a peer cannot make the receive buffer grow without limit. It does
  not: a peer that puts a junk byte before every empty frame makes every receive add a read to the
  buffer, so it grows past any size while every frame is delivered (`BufferIsUnbounded`). Only
  resynchronisation can do that, and by less than one read each time (`BufferGrowsOnlyByResyncs`).
* Normalising a layout need not reach a fixed point. A touching two-by-two grid whose bottom-left
  screen is ten pixels wider is carried ten pixels left by every pass (`SomeLayoutNeverSettles`),
  so normalising twice is not normalising once; whenever it does stop on an unchanged pass, it is
  (`SettledIsFixed`). A row or column listed in its order always settles (`LinesSettle`); the same row
  listed otherwise may keep a gap for ever (`ShuffledRowNeverCloses`).
* Agreement between a client and the server hangs on room in that client's control queue, also when
  the client that is driven is entered again (`ActionAgreesIffItFits`), and on its not reconnecting
  while it is driven: nobody tells the fresh connection (`ConnectionAgreesIff`). "At most one driven
  machine" hangs on clients having caught up with the last control frame on its way
  (`DrivenAsBelievedIff`, `TwoDrivenWhileDraining`).
* The operator's disconnect removes the client entry under the lock and the address later without
  it; a reconnection in between loses its address (`ForgetKeepsAgreementIff`,
  `OperatorRaceLosesAddress`), and the maps disagree exactly when that has happened
  (`RegistrationIdentity`). Teardown, which removes both in one hold, is safe (`MapsStayTogether`).
* The comment on `key_down` says keys that start a chord are swallowed. While the cursor is away the
  session forwards the press whenever no action results, but `key_up` keeps the release, so such a
  key stays down on the controlled machine until control leaves it (`KeyStaysDownRemotely`,
  `KeySticksIff`, `BareLetterSticks`). Two chord keys held at once leak the first one's release
  (`OvertakenReleaseLeaks`).
* Modifier tracking is said to be authoritative. With both keys of a class held, releasing either makes
  the class count as released (`ModifiersAreTracked`).
* Injecting half of every frame can overshoot: by half a pixel, exactly when the hand has gone an odd
  distance and turned back last (`FeedForwardOvershootsIff`).
* A starter can be refused although neither role runs: exactly when another process or a prober holds
  a lock just then (`OwnLockIsRefusedIff`, `StarterIsRefusedIff`), so two opposite starters can refuse
  each other (`BothMayBeRefused`). Both can never be granted (`OneRolePerMachine`).
* The server's clipboard poll reads content and echo guard in two lock holds, so arrived content is
  sent back exactly when something else arrives last in between and it was not just broadcast
  (`ArrivedContentEchoesIff`); no storm follows (`TrafficIsBoundedByCopies`).
* `ReplaceSet` is all or nothing for the targets that are put aside (`AllOnSuccess`,
  `NothingOnFailure`). A target that did not exist before may be left with a partial copy
  (`CutCopyStays`) or with a stale aside (`StaleAsideComesBack`), and one whose existence the status
  query denied is lost (`DeniedTargetIsLost`); `NothingOnFailure` says exactly when.


## Model

| member | source | states |
|---|---|---|
| MotionFollower.PositionFollower.SetBounds | crates/core/src/motion/follower.rs:79-99 | new bounds re-clamp the command at once; the method refines the follower value's `SetBounds` |
| MotionFollower.PositionFollower.Enter | crates/core/src/motion/follower.rs:102-109 | entering anchors the command, clamped, and clears both carries |
| MotionFollower.PositionFollower.Leave | crates/core/src/motion/follower.rs:112-116 | leaving drops the carries and stops following |
| MotionFollower.PositionFollower.Push | crates/core/src/motion/follower.rs:128-142 | a frame moves the command, clamped, and yields the feedforward counts while the truncated tenths stay in the carry |
| MotionFollower.PositionFollower.Advance | crates/core/src/motion/follower.rs:150-154 | the absolute variant moves the command only |
| MotionFollower.PositionFollower.Reanchor | crates/core/src/motion/follower.rs:158-164 | the command follows a placed point, clamped, and the carries are cleared |
| MotionFollower.PositionFollower.Correct | crates/core/src/motion/follower.rs:177-198 | one correction tick: proportional, saturated at 32 px, truncated with carry; nothing to inject is reported as nothing |
| MotionFollower.PositionFollower.Flush | crates/core/src/motion/follower.rs:203-217 | a flush injects the residual up to its cap |
| MotionFollower.RunKeepsInvariant | crates/core/src/motion/follower.rs:79-217 | over every run of operations both carries stay strictly inside one pixel and the command inside the screen |
| FollowerCommand.CommandIsNearest | crates/core/src/motion/follower.rs:79-164 | after every operation the command is the pixel of the screen nearest, on each axis, to where the operation aims: the old command plus the frame's delta, the point entered or placed, or where it was; exactly there when that is on the screen |
| FollowerCommand.FramesAddUp | crates/core/src/motion/follower.rs:128-154 | while the hand's path stays on the screen, any run of frames moves the command by the sum of their deltas |
| FollowerCommand.FractionsAreKept | crates/core/src/motion/follower.rs:102-217 | on each axis, counts injected and carry make up the old carry and what was to be moved, to the tenth; only entering, leaving, placing and flushing clear the carries |
| FollowerCommand.IdleInjectsNothing | crates/core/src/motion/follower.rs:177-217 | while control is elsewhere nothing is corrected or flushed |
| FollowerCommand.FollowsSinceEntry | crates/core/src/motion/follower.rs:102-120 | over every run a command is followed exactly between an entry and the next leave |
| MotionFollower.PushLedger | crates/core/src/motion/follower.rs:128-142 | ten times the injected counts plus the carry is exactly five times the pushed deltas plus the old carry |
| MotionFollower.FeedForwardExcess | crates/core/src/motion/follower.rs:20-28 | from a fresh carry, twice the counts injected for any list of frames is their sum when that is even, and otherwise one off, against the direction of the last frame that moved |
| MotionFollower.FeedForwardOvershootsIff | crates/core/src/motion/follower.rs:20-28 | injecting half of every frame overshoots half of the whole if and only if the sum is odd and the last frame that moved went against it |
| MotionFollower.FeedForwardIsHalf | crates/core/src/motion/follower.rs:20-38 | from a fresh carry the feedforward of any list of frames is half their sum, to within half a pixel |
| MotionFollower.FeedForwardAllowanceIsNeeded | crates/core/src/motion/follower.rs:128-142 | an instance: three pixels forward and two back overshoot by half a pixel |
| MotionFollower.StableTick | crates/core/src/motion/follower.rs:177-198 | against a cursor that moves 0 to 2 times the injection, a tick never enlarges the error and overshoots by at most 1 px |
| MotionFollower.LoopIsStable | crates/core/src/motion/follower.rs:28-38 | the same over any number of ticks with a different response each tick |
| MotionFollower.ConvergingTick | crates/core/src/motion/follower.rs:177-198 | with a response between 1 and 2 times, a tick works off at least eight tenths or ends within a pixel |
| MotionFollower.LoopConverges | crates/core/src/motion/follower.rs:28-38 | with a response between 1 and 2 times, the error is within a pixel after 10/8 (error + 1) ticks and stays there |
| MotionFollower.FaithfulAxisTick | crates/core/src/motion/follower.rs:177-198 | against a 1:1 cursor a tick never flips the error's sign, injects at most 32 px and works off four tenths of what is outstanding |
| MotionFollower.ExactLanding | crates/core/src/motion/follower.rs:177-198 | from the state any run leaves, correction ticks against a 1:1 cursor approach monotonically and reach the command exactly within 2.5 (distance + 1) ticks |
| MotionFollower.FlushLandsWithinCap | crates/core/src/motion/follower.rs:203-217 | a flush lands on the command if and only if the distance is within its cap |
| MotionFollower.SameOpKeepsClose | crates/core/src/motion/follower.rs:79-164 | one operation never widens the gap between two followers' commands |
| MotionFollower.LostFrameKeepsClose | crates/core/src/motion/follower.rs:128-154 | losing a frame widens the gap by at most the frame's own delta, axis by axis |
| MotionFollower.LossIsBounded | crates/core/src/motion/follower.rs:79-154 | for every run and every set of lost frames the command ends within the sum of the lost deltas of the lossless command |
| MotionFollower.WallErasesDifference | crates/core/src/motion/follower.rs:92-154 | a push of a whole screen size into a wall makes any two followers' commands equal on that axis; pushing and advancing command the same point |
| FrameCodec.RoundTrip | crates/protocol/src/frame.rs:36-112 | a frame decodes back whole, whatever follows it, if and only if it carries no flag and fits the payload cap |
| FrameCodec.WireLayout | crates/protocol/src/frame.rs:36-45 | the frame byte by byte: MAGIC, type, flags, the payload's length weighed most significant byte first, the payload |
| FrameCodec.HeaderDecodes | crates/protocol/src/frame.rs:57-112 | what follows a complete header decodes to: unknown flags refused first, then a length over the cap, then a payload cut short, else the frame and the rest |
| FrameCodec.NoHeaderIsRefused | crates/protocol/src/frame.rs:57-112 | end of stream, a cut header and a wrong MAGIC are told apart, each exactly when it is the case |
| FrameCodec.BytesCompareLikeNumbers | crates/protocol/src/frame.rs:36-45 | length fields compare as their bytes do from left to right |
| FrameCodec.DecodeIsExact | crates/protocol/src/frame.rs:57-112 | whatever decodes is exactly the encoding of a decodable frame and the rest |
| FrameCodec.NumberSurvives | crates/protocol/src/frame.rs:36-44 | a 32-bit length survives big-endian encoding |
| FrameCodec.BytesSurvive | crates/protocol/src/frame.rs:93-112 | four length bytes survive being read as a number |
| FrameCodec.ReadFull | crates/protocol/src/frame.rs:81-91 | however the reader cuts its bytes, the buffer is filled, or end of stream and partial read are told apart |
| FrameCodec.DecodeFrom | crates/protocol/src/frame.rs:57-78 | the strict decoder over any reader computes the pure decoding of the reader's bytes |
| TransportStream.FindMagic | crates/core/src/transport.rs:147-189 | the first occurrence of the MAGIC, or none at all |
| TransportStream.Transport.TryDecodeBuffer | crates/core/src/transport.rs:147-189 | one decode attempt: partial header, resynchronisation, payload cap, partial payload, whole frame |
| TransportStream.Transport.ReceiveNext | crates/core/src/transport.rs:106-146 | the receive loop: decode from the buffer, else read, with idle, end of stream and end inside a frame told apart |
| TransportStream.HeaderDecides | crates/core/src/transport.rs:147-189 | from the bytes: a buffered header is refused as too large if and only if its length is over the cap, before the payload is there, and for its flags if and only if the length fits, the frame is whole and a flag is set; it waits if and only if the payload is short; what is refused or waits stays buffered |
| TransportStream.RefusalsAreReportedAtOnce | crates/core/src/transport.rs:106-175 | a receive reports either refusal before it reads anything more, and keeps the bytes |
| TransportStream.OnlyHeadersAreRefused | crates/core/src/transport.rs:147-189 | nothing else makes an attempt fail: every buffer it fails on starts with such a header |
| TransportStream.BufferedFrame | crates/core/src/transport.rs:147-189 | a buffer that starts with a decodable frame yields it and keeps exactly the rest |
| TransportStream.PartialFrame | crates/core/src/transport.rs:147-189 | a proper prefix of a frame is kept untouched |
| TransportStream.HealthyAttempt | crates/core/src/transport.rs:147-189 | on a stream of decodable frames an attempt yields the next frame or waits for more, and never fails |
| TransportStream.CutAttempt | crates/core/src/transport.rs:147-189 | on a stream of decodable frames and the first part of another an attempt yields the next frame or waits for more, and never fails |
| TransportStream.ReceiveTowardsEnd | crates/core/src/transport.rs:106-189 | one receive on such a stream: the next frame, idle once for a timed-out read, or what the end means after the last frame |
| TransportStream.ChunkingIndependence | crates/core/src/transport.rs:106-189 | for every list of decodable frames, perhaps followed by the first part of another, every way reads cut their bytes and time out, and every way they end, exactly those frames come out, in order, then: end of stream when the peer closes between frames or resets, an error when it closes inside a frame or the link breaks |
| TransportStream.BufferIsBounded | crates/core/src/transport.rs:106-189 | on streams of decodable frames, where nothing resynchronises, the buffer never exceeds a maximal frame plus one read less a byte |
| TransportStream.BufferGrowsOnlyByResyncs | crates/core/src/transport.rs:106-189 | on any stream of reads, corrupt or not, the buffer exceeds a maximal frame plus one read less a byte (or what it began with) by at most 511 bytes for every attempt that resynchronised onto a frame start |
| TransportStream.AttemptKeepsLittle | crates/core/src/transport.rs:147-189 | an attempt that finds no frame keeps less than a maximal frame, unless it resynchronised and put a MAGIC in front |
| TransportStream.HealthyNeverResyncs | crates/core/src/transport.rs:147-189 | on a stream of decodable frames no attempt resynchronises |
| TransportStream.BlockIsReceived | crates/core/src/transport.rs:106-189 | with a junk byte before every empty frame, each receive delivers one frame, consumes one block and reads a whole scratch buffer of them |
| TransportStream.BufferIsUnbounded | crates/core/src/transport.rs:160-173 | so for every size there is a stream of ordinary reads, all of whose frames are delivered, that makes the buffer larger: the payload cap alone does not bound it |
| TransportStream.AttemptIsVerbatim | crates/core/src/transport.rs:147-189 | an attempt drops a prefix or takes one encoding off the buffer; nothing is invented |
| TransportStream.ReceiveIsVerbatim | crates/core/src/transport.rs:106-189 | on any stream, corrupt or not, a received frame's encoding stands verbatim in the bytes, between what was dropped and what stays buffered |
| TransportStream.NoMagicAcross | crates/core/src/transport.rs:147-189 | MAGIC-free junk never completes a MAGIC across a frame start |
| TransportStream.ResyncDropsExactlyTheJunk | crates/core/src/transport.rs:147-189 | junk in front of a buffered frame start is dropped exactly |
| TransportStream.ResyncKeepsFrameStart | crates/core/src/transport.rs:147-189 | a frame start behind junk survives resynchronisation if and only if none or at least four of its bytes have arrived |
| TransportStream.ResyncWaitsForAnotherRead | crates/core/src/transport.rs:106-189 | a whole frame behind junk is reported only after another read, and is lost when the peer closes instead |
| SequenceNumbers.NewerAgreesWithinHalfCycle | crates/core/src/udp.rs:74-76 | within a cycle the wrapping comparison agrees with the true order if and only if the numbers are within half a cycle |
| SequenceNumbers.VerdictsAreRecords | crates/core/src/client/threads.rs:133-155 | under loss, duplication and reordering inside the window, across any number of wraps, exactly the left-to-right maxima are accepted |
| SequenceNumbers.ShortStreamsStayInWindow | crates/core/src/udp.rs:74-76 | a stream shorter than half a cycle cannot leave the window |
| SequenceNumbers.WireNext | crates/core/src/server/client.rs:564-580 | wrapping addition stamps the next number |
| CursorStream.UnpackInvertsPack | crates/core/src/udp.rs:40-69 | a datagram unpacks to itself if and only if its frame is decodable and a message |
| CursorStream.DatagramLayout | crates/core/src/udp.rs:40-48 | the datagram byte by byte: id, number most significant byte first, frame |
| CursorStream.MotionLayout | crates/core/src/udp.rs:40-48 | a motion frame byte by byte: its type, no flag, dx and then dy in two's complement |
| CursorStream.UnpackIsExact | crates/core/src/udp.rs:61-69 | truncated, malformed and over-long datagrams, and those whose frame is no message, never unpack |
| CursorStream.MotionSurvivesTheWire | crates/core/src/udp.rs:40-69 | a motion frame's coordinates come back from the wire, for every 32-bit value |
| CursorStream.MotionWriter.Send | crates/core/src/server/client.rs:557-600 | frames are stamped 1, 2, 3, ... modulo 2^32; one without a known address is dropped and uses no number |
| CursorStream.UdpLoop | crates/core/src/client/threads.rs:133-155 | the datagram loop applies exactly the fresh motion frames meant for it, while active, to the follower; what does not unpack moves no sequence number |
| CursorStream.FramesAreFedForwardIff | crates/core/src/client/threads.rs:125-175 | frames are fed forward on relative backends and only move the command on absolute ones |
| CursorStream.EffectiveInOrder | crates/core/src/client/threads.rs:133-155 | the frames that take effect have strictly increasing numbers: none twice, none out of order |
| CursorStream.StreamAppliesEffective | crates/core/src/client/threads.rs:133-155 | what the receiver applies is exactly the effective frames |
| CursorStream.PickingIsLosing | crates/core/src/client/threads.rs:133-155 | applying an increasing selection of frames is the run in which the others were lost |
| CursorStream.StreamIsALossyRun | crates/core/src/client/threads.rs:133-233 | writer, network and receiver together: the receiver performs the sender's run with some frames lost |
| CursorStream.EndToEndLossTolerance | crates/core/src/client/threads.rs:133-233 | end to end, for a stream of motion frames alone, the command stays on the screen and within the sum of the deltas that took no effect |
| CursorStream.LosslessIsComplete | crates/core/src/client/threads.rs:133-233 | the reference run on a network that loses nothing holds every frame in order, and every other operation in order |
| CursorStream.PerformedIsLossy | crates/core/src/client/threads.rs:133-233 | what the client performs, with enters, leaves, corrections and re-bounds between the arrivals, is that run without the frames that took no effect |
| CursorStream.LossToleranceAmongOperations | crates/core/src/client/threads.rs:133-233 | with any other operations between the arrivals, the command stays on the screen and within the sum of the deltas that took no effect of the command of that run |
| ScreenLayout.FindIndex | crates/core/src/layout.rs:115-117 | the first screen with an id, or none |
| ScreenLayout.FindNeighbor | crates/core/src/layout.rs:147-217 | the scan with its running best computes the ray cast's function |
| ScreenLayout.BestIsDestination | crates/core/src/layout.rs:147-217 | the running best is the first minimiser among the screens seen, and absent only when no candidate was seen |
| ScreenLayout.NeighborIsOptimal | crates/core/src/layout.rs:147-217 | no neighbour if and only if the screen is unknown or nothing lies past the edge; else the first screen minimising (perpendicular, parallel) distance |
| ScreenLayout.NeighborIsNearest | crates/core/src/layout.rs:130-217 | on the desktop turned so that the ray goes right: the screen entered is the one fewest rows from the exit point, of those the shortest flight away, of those the first listed; only screens past the edge, within tolerance, count |
| ScreenLayout.LevelScreensComeFirst | crates/core/src/layout.rs:157-206 | a screen whose span holds the exit coordinate is entered rather than one whose span does not, however near |
| ScreenLayout.DestinationIsChosen | crates/core/src/layout.rs:147-217 | conversely, a screen that meets that definition is the one crossed into |
| ScreenLayout.EntryIsNearestPixel | crates/core/src/layout.rs:147-217 | the entry point lies inside the destination, on its facing edge, and no pixel of its span is nearer to the exit coordinate |
| ScreenLayout.Issues | crates/core/src/layout.rs:240-260 | the nested loops list, for every screen in order, that it has no size or else each later screen it overlaps |
| ScreenLayout.OverlapIsACommonPixel | crates/core/src/layout.rs:240-262 | screens with a size overlap if and only if some pixel belongs to both, and a screen has a size if and only if it has a pixel |
| ScreenLayout.NoIssuesIffUnambiguous | crates/core/src/layout.rs:236-260 | no warning is given if and only if every screen has a size and no two overlap |
| ScreenLayout.SeamHasNoRival | crates/core/src/layout.rs:147-217 | a screen tied with a touching neighbour would overlap it |
| ScreenLayout.SeamIsDestination | crates/core/src/layout.rs:147-217 | the touching screen is the ray cast's choice |
| ScreenLayout.SeamCrossing | crates/core/src/layout.rs:147-217 | crossing a seam lands on the pixel just across it |
| ScreenLayout.SeamIsReversible | crates/core/src/layout.rs:130-217 | in all four directions, crossing a seam and coming back returns to the pixel the cursor left, through adjacent pixels of the desktop |
| LayoutNormalization.Normalized | crates/core/src/layout.rs:54-113 | the nested loops compute the pass function iterated to an unchanged pass or eight passes |
| LayoutNormalization.SweepAll | crates/core/src/layout.rs:60-104 | one pass over all ordered pairs, each reading what earlier pairs left |
| LayoutNormalization.SnapAgainst | crates/core/src/layout.rs:67-99 | the two pairs of snapping alternatives, each updating the candidate in turn |
| LayoutNormalization.NormalizingOnlyMoves | crates/core/src/layout.rs:54-113 | count, order, ids, names and sizes survive, for every layout |
| LayoutNormalization.QuietSweep | crates/core/src/layout.rs:60-108 | a pass reports no change if and only if there is nothing to snap, and then returns the layout unchanged |
| LayoutNormalization.SettledIsFixed | crates/core/src/layout.rs:54-113 | whenever normalising stops on an unchanged pass its result is a fixed point; a layout with nothing to snap comes back unchanged |
| LayoutNormalization.StaysPutIffNothingToSnap | crates/core/src/layout.rs:54-113 | normalising stops at once on the layout it was given if and only if there is nothing to snap |
| LayoutNormalization.NothingToSnapMeansContact | crates/core/src/layout.rs:42-53 | in a settled layout of ordinary screens, edges within tolerance touch exactly and spans within tolerance are aligned |
| LayoutNormalization.TwoScreensSettle | crates/core/src/layout.rs:54-113 | two screens larger than the tolerance always settle, so normalising is idempotent on them |
| LayoutNormalization.TurnClosesTheNext | crates/core/src/layout.rs:63-104 | in a row or column listed in its order, a screen's turn closes the gap to the next one and aligns it, if within tolerance, and moves nothing else |
| LayoutNormalization.LinesSettle | crates/core/src/layout.rs:54-113 | a row or column of any number of screens listed in its order, with tops (or lefts) within tolerance, settles in one pass with every gap within tolerance closed and aligned, so normalising is idempotent on it |
| LayoutNormalization.ShuffledRowNeverCloses | crates/core/src/layout.rs:54-113 | the order matters: four screens in a row listed otherwise keep a ten-pixel gap through any number of passes, two neighbours pulling the same screen to and fro |
| LayoutNormalization.TouchingIsOrdinary | crates/core/src/layout.rs:240-260 | the grid below has distinct ids, ample sides, exact contacts and no overlap |
| LayoutNormalization.SomeLayoutNeverSettles | crates/core/src/layout.rs:54-113 | that 2x2 grid settles in no number of passes: each carries it ten pixels further left |
| LayoutNormalization.NormalizingAgainMovesAgain | crates/core/src/layout.rs:54-113 | so normalising the normalised grid moves it again: idempotence fails in general |
| HandOff.Enqueue | crates/core/src/server/client.rs:82-100 | a bounded, non-blocking enqueue only ever extends one registered client's queue, never beyond the cap, and drops exactly when that queue is full |
| HandOff.ServerControl.ApplyAction | crates/core/src/server/actions.rs:22-103 | executing a session action refines the server's transition function: release the old client, enter the new one, grab or restore local input, announce |
| HandOff.ServerControl.SwitchAway | crates/core/src/server/actions.rs:33-72 | control goes to a client: the old one is told to leave first, local input is taken, the liveness stamp is fresh |
| HandOff.ServerControl.SwitchHome | crates/core/src/server/actions.rs:73-96 | control comes home: the client is told to leave, isolation and grab are lifted before the warp |
| HandOff.ControlledMachine.Dispatch | crates/core/src/client/dispatch.rs:16-121 | dispatch keeps flag, follower and injector telling one story and applies each message's effect on command, cursor, injected counts and event queue |
| HandOff.ActionAgreesIffItFits | crates/core/src/server/client.rs:82-100 | for every action and every client, agreement survives if and only if that client's own queue carries the control frames meant for it: one free slot to be entered or left, and for a re-entry anything but exactly one |
| HandOff.InputReachesItsClient | crates/core/src/server/actions.rs:35-57 | on every run, what a client has dispatched since it connected, then its wire, then its reliable queue is exactly, in order, what its queue accepted of the input sent while it was active and its own entries, with entry points, and leaves, read off the steps; relative motion keeps the same ledger on its own channel |
| HandOff.RoomyQueueTakesAll | crates/core/src/server/client.rs:82-100 | with two free slots everything an action means for a client is accepted |
| HandOff.RunKeepsRecords | crates/core/src/server/actions.rs:44-101 | on every run the liveness stamp is the moment the cursor was last sent to the client, the transitions announced are exactly those made, in order, and the local cursor is warped exactly to where each return says |
| HandOff.ConnectionAgreesIff | crates/core/src/server/client.rs:311-330 | a fresh connection agrees with the server if and only if the server does not have its client driven; a client that reconnects while driven is never told |
| HandOff.ChannelKeepsProspect | crates/core/src/server/client.rs:557-600 | writing and dispatching change nothing about what a client will be |
| HandOff.RunKeepsAgreement | crates/core/src/server/actions.rs:22-103 | over every run of actions, connections, writes and dispatches at any speeds, a client whose own queue carries its control frames, and which does not connect while driven, agrees with the server, however full the others are |
| HandOff.DrivenAsBelievedIff | crates/core/src/client/dispatch.rs:34-80 | a client that agrees is driven exactly when the server says so if and only if the last control frame on its way, if there is one, says what it already is |
| HandOff.NoWordIsCaughtUp | crates/core/src/client/dispatch.rs:81-104 | input, clipboard and keepalives still on their way do not matter |
| HandOff.AtMostOneDriven | crates/core/src/client/dispatch.rs:34-80 | on every run a client is driven exactly when the server says so if and only if it has caught up; of those that have, at most one is driven |
| HandOff.TwoDrivenWhileDraining | crates/core/src/server/actions.rs:33-72 | before a slow client has dispatched its leave, two machines can be driven at once |
| HandOff.RunKeepsEngine | crates/core/src/server/actions.rs:33-96 | over every run grab, isolation and hidden cursor are on if and only if a client has control, and local warps happen only with both released |
| Registration.RegistrationIdentity | crates/core/src/server/client.rs:169-325 | in every interleaving of registrations, any number of teardowns of each connection and operator disconnects, whenever the lock is free the entry is the last registrant unless it was removed, and the maps agree on the id if and only if no disconnect erased the address under a registration and none is still to erase what it left |
| Registration.MapsStayTogether | crates/core/src/server/client.rs:169-325 | without disconnects the maps agree whenever the lock is free; with disconnects that erase only while it is safe, every registered connection keeps its address |
| Registration.DoKeepsInvariant | crates/core/src/server/client.rs:169-325 | one step of any worker on a connection, or of the operator, keeps the account of both maps |
| Registration.ForgetKeepsAgreementIff | crates/core/src/server/mod.rs:620-624 | in every reachable state, erasing an address leaves the maps agreeing, once the lock holder lets go, if and only if the id was vacant with no registration between its address and its entry, or the holder is about to mend it |
| Registration.HolderDecides | crates/core/src/server/client.rs:169-325 | whether the maps will agree once the lock is free is decided by what the operator erased and by where the lock holder is |
| Registration.SupersededIsHarmless | crates/core/src/server/client.rs:160-184 | no step of a superseded connection changes either map |
| Registration.FarewellIffRegistered | crates/core/src/server/client.rs:169-184 | a teardown that has looked goes on to say farewell if and only if its connection is registered, and lets go of the lock either way |
| Registration.StaleSaysNoFarewell | crates/core/src/server/client.rs:160-184 | in every interleaving no worker of a superseded connection says farewell that was not about to |
| Registration.DisconnectTakesTheId | crates/core/src/server/mod.rs:594-624 | the operator's disconnect takes exactly the id's entry, once the lock is free, and later exactly its address |
| Registration.RemovedOnce | crates/core/src/server/udp.rs:55-68 | however many teardowns of a connection run at once, from the reader and from the beacon watchdog, once its entry is removed it never has one again |
| Registration.ClientMaps.Register | crates/core/src/server/client.rs:311-325 | the registration block is four uninterrupted steps of the interleaved model, and reports who was replaced |
| Registration.ClientMaps.StillRegistered | crates/core/src/server/client.rs:169-184 | teardown's first hold is two uninterrupted steps, and goes on exactly when the connection is registered |
| Registration.ClientMaps.Unregister | crates/core/src/server/client.rs:217-233 | teardown's second hold is the remaining uninterrupted steps; it removes all five entries of the id, or none |
| Registration.StaleTeardownIsHarmless | crates/core/src/server/client.rs:160-184 | in every interleaving, from any moment a connection is superseded it stays so, and no step of any of its workers changes either map |
| Registration.OperatorRaceLosesAddress | crates/core/src/server/mod.rs:594-624 | a reconnection between the two removals ends registered without an address, even if it had not yet inserted its entry when the address was erased |
| ClientThreads.EventQueue.EnqueueEvent | crates/core/src/client/shared.rs:114-119 | queueing an event is the thread model's push: a full queue drops the newest |
| ClientThreads.EventQueue.DrainEvents | crates/core/src/client/shared.rs:127-139 | draining is the thread model's taking and firing to the end: the whole queue, in order |
| ClientThreads.TickIsDisciplined | crates/core/src/client/threads.rs:74-108 | a motion tick takes its locks in order, fires only from where it steered, and ends holding nothing |
| ClientThreads.EnterIsDisciplined | crates/core/src/client/dispatch.rs:34-62 | the entry section follows the lock order and touches nothing without its lock |
| ClientThreads.LeaveIsDisciplined | crates/core/src/client/dispatch.rs:63-80 | so does the leave section, which drops the outer lock first |
| ClientThreads.RecoverIsDisciplined | crates/core/src/client/supervisor.rs:44-54 | the supervisor only tries, and holds nothing while it does |
| ClientThreads.SectionsAreDisciplined | crates/core/src/client/threads.rs:72-245 | every section of every thread follows the lock discipline |
| ClientThreads.RunKeepsOrder | crates/core/src/client/threads.rs:72-245 | over every interleaving each thread's remaining code stays disciplined for the locks it holds |
| ClientThreads.WaitClimbs | crates/core/src/client/shared.rs:26-31 | whoever is waited for waits, if at all, for a lock further up the order |
| ClientThreads.NoDeadlock | crates/core/src/client/threads.rs:72-245 | in every state of every run no chain of threads waiting for each other's locks closes |
| ClientThreads.SomeoneRuns | crates/core/src/client/threads.rs:72-245 | every unfinished thread can run or waits along a chain that ends at one that can |
| ClientThreads.EveryStepCounts | crates/core/src/client/threads.rs:72-245 | under every scheduling the work in hand strictly decreases, so every section finishes unless new jobs keep arriving |
| ClientThreads.OnlySteererMoves | crates/core/src/client/threads.rs:74-95 | while a thread is between steering and letting go, no other moves the cursor or the command |
| ClientThreads.StepKeepsPlace | crates/core/src/client/threads.rs:217-233 | every step keeps the cursor on the command for whoever has steered, and every fired event in place |
| ClientThreads.EffectKeepsLedger | crates/core/src/client/shared.rs:114-139 | executed, taken and queued events together stay the accepted ones, in order, with at most 512 queued |
| ClientThreads.StepKeepsHeard | crates/core/src/client/dispatch.rs:89-100 | every input message off the wire reaches the queue, in order, but for the one in the TCP thread's hands |
| ClientThreads.EventsFireInOrderAndInPlace | crates/core/src/client/threads.rs:72-108 | in every interleaving, executed then taken then queued events are the accepted events in wire order, at most 512 wait, and on an absolute backend each fired with the cursor on the command |
| ClientThreads.FiredIsAPrefixOfTheWire | crates/core/src/client/shared.rs:114-139 | while the queue never fills up, the executed events are a prefix of the wire's |
| ThreadWork.SectionsDoWhatIsAsked | crates/core/src/client/threads.rs:72-245 | the sections of every job and message do to follower, cursor and flag what it asks, in order |
| ThreadWork.WorkAddsUp | crates/core/src/client/threads.rs:72-245 | in every interleaving, follower, cursor and flag are what the deeds done so far make of them one after the other, and what each thread has done and is about to do is exactly what its jobs ask, each once and in order |
| ThreadWork.TickFiresWhatItTook | crates/core/src/client/threads.rs:74-108 | whenever the motion thread is past firing, the events accepted before it last took the queue have been executed; an event is refused exactly when the queue is full; the wire's messages are taken up in order; steering and datagrams only while control is here |
| Shortcuts.Retained | crates/core/src/actions.rs:168-200 | sanitising keeps exactly the bindable bindings |
| Shortcuts.RetainedInOrder | crates/core/src/actions.rs:168-181 | and keeps them in order |
| Shortcuts.Sanitize | crates/core/src/actions.rs:168-181 | the retaining loop computes the sanitised section |
| Shortcuts.ActionEngine.SetConfig | crates/core/src/actions.rs:315-320 | hot reload drops a half-typed chord, sanitises, and keeps what was consumed |
| Shortcuts.ActionEngine.KeyDown | crates/core/src/actions.rs:335-371 | a press refines the engine's transition: disabled, modifier, completed chord, started chord, foreign key |
| Shortcuts.ActionEngine.KeyUp | crates/core/src/actions.rs:376-395 | a release refines the engine's transition: modifier, fired, owned, pending, foreign |
| Shortcuts.ActionEngine.Disown | crates/core/src/actions.rs:385-388 | exactly the first entry of a key is removed from the owned keys |
| Shortcuts.FirstMatch | crates/core/src/actions.rs:359-362 | the binding found is the first of exactly this chord, and none is found if and only if there is none |
| Shortcuts.ModifiersAreTracked | crates/core/src/actions.rs:240-252 | over every stream of inputs, a modifier counts as held if and only if one of its two keys was pressed while shortcuts were on and neither has been released since |
| Shortcuts.PressFiresItsBinding | crates/core/src/actions.rs:335-426 | over every stream of inputs, a press fires the first usable binding of exactly the modifiers held, or of the hint when none is, and carries out its action; without one, or while shortcuts are off, nothing is executed |
| Shortcuts.UnnamedKeysPassThrough | crates/core/src/actions.rs:168-200 | over every stream with repeats, reloads, expiries and crossings, modifiers and keys no adopted configuration names are never swallowed |
| Shortcuts.ReleaseIsClaimedByItsPress | crates/core/src/actions.rs:315-395 | on every stream a keyboard can produce, with reloads anywhere, a release is claimed if and only if the configuration in force at the press made it start a chord, or complete one that no later chord overtook |
| Shortcuts.ReleaseIsClaimedUnlessOvertaken | crates/core/src/actions.rs:335-395 | under one enabled configuration that is: if and only if the key is named and no later chord overtook a chord its press fired |
| Shortcuts.ReleaseOwnership | crates/core/src/actions.rs:376-395 | so while chords fire one at a time, releases are claimed exactly for the named keys |
| Shortcuts.HandleLocalKey | crates/core/src/session/motion.rs:68-84 | the session runs the engine first and forwards what it does not take, while the cursor is away |
| Shortcuts.KeyStaysDownRemotely | crates/core/src/session/motion.rs:68-84 | on every such stream, with the cursor crossing between machines, the controlled machine holds a key if and only if, since control came, it was pressed there without leading to an action and every release since belonged to the engine |
| Shortcuts.KeySticksIff | crates/core/src/session/motion.rs:68-84 | a key pressed and released during one stay sticks if and only if the press led to no action and the release is the engine's; the release reaches the machine if and only if it is not |
| Shortcuts.UnnamedKeysComeUp | crates/core/src/session/motion.rs:68-84 | modifiers and keys no adopted configuration names are held remotely only while held on the keyboard |
| Shortcuts.BareLetterSticks | crates/core/src/session/motion.rs:68-84 | with a Ctrl+A binding, a bare A goes down on the controlled machine and never comes up |
| Shortcuts.OvertakenReleaseLeaks | crates/core/src/actions.rs:359-362 | with two chord keys held, the first key's release is forwarded though its press was not |
| FileReplacement.AsidesDiffer | gui/internal/selfupdate/install.go:121-123 | different targets have different asides |
| FileReplacement.Disk.MoveInto | gui/internal/selfupdate/install.go:151-173 | the rename-or-copy with its five ways to fail computes the step function |
| FileReplacement.Disk.ReplaceOne | gui/internal/selfupdate/install.go:121-138 | putting one target aside, moving its source in and putting it back on failure computes the step function |
| FileReplacement.Disk.Rollback | gui/internal/selfupdate/install.go:115-120 | the rollback loop computes the rollback function |
| FileReplacement.Disk.ReplaceSet | gui/internal/selfupdate/install.go:110-147 | the transaction, in whatever order the map yields its entries, computes the set function |
| FileReplacement.OneIsLocal | gui/internal/selfupdate/install.go:121-138 | what happens to a target depends on it, its aside and its source alone |
| FileReplacement.RollbackIsLocal | gui/internal/selfupdate/install.go:115-120 | the rollback treats each finished target on its own and touches nothing else |
| FileReplacement.EveryTarget | gui/internal/selfupdate/install.go:110-147 | for every order and every fault, each target ends as if alone: moved in, failed, brought back or never reached, by its place before, at or after the first failure |
| FileReplacement.MovesIff | gui/internal/selfupdate/install.go:121-138 | a replacement moves in if and only if the target there is can be put aside and the source be renamed or completely copied |
| FileReplacement.SucceedsIffAllMove | gui/internal/selfupdate/install.go:110-147 | the set succeeds if and only if every target on its own would, whatever the order |
| FileReplacement.AllOnSuccess | gui/internal/selfupdate/install.go:110-147 | after a success every target holds its source's content, and an aside is left exactly where it could not be removed, with the old content |
| FileReplacement.NothingOnFailure | gui/internal/selfupdate/install.go:110-147 | after a failure every target put aside or never reached is as it was; one that did not exist is absent again if and only if no stale aside was brought back and no part of its replacement is left; one the status query denied survives only by chance |
| FileReplacement.OthersAreUntouched | gui/internal/selfupdate/install.go:110-147 | nothing but targets, asides and sources is ever touched |
| FileReplacement.CutCopyStays | gui/internal/selfupdate/install.go:151-173 | a run that fails with a partial copy left at a target that did not exist |
| FileReplacement.StaleAsideComesBack | gui/internal/selfupdate/install.go:130-134 | a run that fails with a stale aside put at a target that did not exist |
| FileReplacement.DeniedTargetIsLost | gui/internal/selfupdate/install.go:115-129 | a run that fails and loses a target whose existence the status query denied |
| RoleLock.StateDir.AcquireIn | crates/app/src/guard.rs:74-125 | a role is granted if and only if its name is known, nobody holds either lock and both files open; a refusal leaves no lock behind; and that is what the interleaved model's steps come to uninterrupted |
| RoleLock.StateDir.RoleActive | gui/rolelock.go:39-50 | the controller's probe reports a held lock and leaves the locks as they were |
| RoleLock.StepKeepsLocksTrue | crates/app/src/guard.rs:74-135 | every step keeps the lock files telling exactly which live process holds what |
| RoleLock.CrashFreesItsLocks | crates/app/src/guard.rs:127-135 | however a process goes, exactly the locks it held are free |
| RoleLock.ProbeLeavesNoTrace | gui/rolelock.go:39-50 | a probe takes a lock for its while exactly when it is free, and then leaves everything as it was |
| RoleLock.StepKeepsOppositesApart | crates/app/src/guard.rs:90-104 | no two processes of opposite roles both get past their probe |
| RoleLock.OneRolePerMachine | crates/app/src/guard.rs:66-125 | for any number of processes, crashes and probes, in every interleaving at most one process holds a granted role |
| RoleLock.QuietLocksTellTheTruth | crates/app/src/guard.rs:127-135 | with nobody acquiring or probing, a lock is held if and only if a granted process of that role lives |
| RoleLock.UninterruptedAcquisition | crates/app/src/guard.rs:74-125 | in any state, the uninterrupted steps of an acquisition are granted if and only if nobody holds either lock and both files open, and leave only the granted lock |
| RoleLock.UndisturbedAcquisition | crates/app/src/guard.rs:74-125 | after any history, an uninterrupted acquisition is granted if and only if nobody holds either lock |
| RoleLock.OwnLockIsRefusedIff | crates/app/src/guard.rs:81-88 | in every interleaving, taking the own lock fails if and only if its file does not open, a prober holds it, a process of the role is past taking it, or one of the other role is just probing it |
| RoleLock.StarterIsRefusedIff | crates/app/src/guard.rs:90-104 | in every interleaving, a starter with its own lock is refused if and only if the other file does not open, a prober holds the other lock, or a process of the other role has taken it, whether or not it will be granted anything |
| RoleLock.BothMayBeRefused | crates/app/src/guard.rs:81-104 | an instance: two opposite starters refuse each other |
| ClipboardSync.Poller.PollClient | crates/core/src/client/threads.rs:191-206 | the client's poll, under one lock hold, is the model's poll and sends exactly what the model sends |
| ClipboardSync.Poller.PollServer | crates/app/src/clipboard.rs:25-45 | the server's poll, with whatever arrives between its two lock holds, is the model's read, receipts and decision |
| ClipboardSync.EventKeepsBudgets | crates/app/src/clipboard.rs:29-42 | one event spends no more broadcasts or sends than copies and arrivals bring in |
| ClipboardSync.RunKeepsBudgets | crates/app/src/clipboard.rs:25-45 | over every run from every state, a client's sends are bounded by its news and its user's copies, the server's by its news, copies and receipts |
| ClipboardSync.ReceivedContentStays | crates/core/src/client/threads.rs:191-206 | a client that has just taken over content sends nothing until its user copies |
| ClipboardSync.EventConserves | crates/core/src/server/client.rs:529-540 | everything a client sent has been received or is underway |
| ClipboardSync.ChannelsKeepOrder | crates/core/src/server/client.rs:529-540 | on every run, the server's clipboard takes exactly what each client's polls had to pass on, and each client's exactly what the server's decisions had to tell it, each once and in order |
| ClipboardSync.ServerPollTellsWhatItRead | crates/app/src/clipboard.rs:25-45 | a whole poll of the server, whatever happens between its two holds, tells every reachable client what the first one read, if and only if that was not last told and is not what arrived last by the second |
| ClipboardSync.CopyIsPassedOnOnce | crates/core/src/client/threads.rs:191-206 | what a client's user copies is passed on by its next poll, exactly once, unless it was last sent or last arrived |
| ClipboardSync.ArrivalTakesOver | crates/core/src/client/threads.rs:191-206 | content that arrives replaces the clipboard and is remembered as arrived |
| ClipboardSync.TrafficIsBoundedByCopies | crates/app/src/clipboard.rs:13-45 | in a session with N clients, broadcasts are at most all users' copies plus N plus one, each client's sends at most its user's copies plus one |
| ClipboardSync.ArrivedContentEchoesIff | crates/app/src/clipboard.rs:15-35 | content that arrived from a client is broadcast back if and only if something else arrives last between the poll's two reads and it was not the last content broadcast |
| ClipboardSync.PollAfterArrival | crates/app/src/clipboard.rs:25-45 | the poll as it runs sends arrived content back exactly then, and nothing otherwise |
| ClipboardSync.ArrivalBetweenReadsEchoes | crates/app/src/clipboard.rs:30-35 | an instance: one arrival between the two reads makes one echo of the earlier content |

## Left out

- HandOff.RunKeepsAgreement: assumes that the client's own queue carries the control frames it is sent, because a full queue drops them; `ActionAgreesIffItFits` says exactly when one action keeps agreement.
- ClientThreads.EventsFireInOrderAndInPlace: the cursor moves only by injection in this model; a native move of the controlled machine's own mouse between placement and an event is not part of it.
- ClientThreads.EveryStepCounts: an operating-system call that never returns, the case the supervisor exists for, is not part of this model.
- FileReplacement.NothingOnFailure: the undo steps (the status query of an aside and the renames back) are taken to succeed, but for the removal of a target, and targets, asides and sources to be different files.
- ClipboardSync.RunKeepsBudgets: setting a clipboard is taken to succeed and reading it back to give the same value; type conversion by the platform's clipboard is not part of this model.
- CursorStream.StreamIsALossyRun: arrivals stay within half a cycle of the newest accepted number; `NewerAgreesWithinHalfCycle` shows that the comparison itself means nothing beyond.
- MotionFollower.PositionFollower.Correct: counts in exact tenths; the rounding of 64-bit floating point and 32-bit coordinate overflow are not modelled.
- ScreenLayout.NeighborIsOptimal: coordinates are unbounded integers; 32-bit overflow at the rim of the coordinate space is not modelled.
- The cursor of relative backends after an injection: the operating system moves it, so the thread model takes any position; the follower's theorems bound the response instead.
- Message payloads: `Message::from_frame` and the field codec are not modelled beyond motion frames; the transport yields frames, and which frames are messages is a parameter of `CursorStream.UdpLoop`.
- Shortcuts.KeyStaysDownRemotely: key events reach the machine in order and none is dropped on the way; a client releases what it holds when control leaves it.
- Session policy, layouts over the wire and the server's main loop: hand-off is driven by arbitrary sequences of actions.
- The motion thread's idle wait on its condition variable, telemetry, beacons and the pin detector; they share none of the modelled state, and the wake-up lock is never held together with the others.
- Teardown's and the operator disconnect's later steps on `active` and the session, and the replaced connection's farewell messages.
- A thread that panics while it holds a lock: poisoned mutexes are not part of this model.
- Clocks: time-outs, chord expiry, silence and stall limits are choices of the environment.
- Sockets, files, TOML and JSON, X11, Windows and udev calls, the tray and the user interface, logging, elevation, process spawning and the firewall.
- Single-target installs (`replaceFile`), manifests, version comparison, discovery, auto-connect back-off, trust lists, key tables and gain smoothing: single functions that no other modelled part builds on.
- `Layout::exit_direction`, `screen_at` and the follower's `error`: one-expression helpers.
