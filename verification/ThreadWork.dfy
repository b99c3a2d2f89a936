/**
 What the client's threads accomplish: however their sections interleave, follower, cursor and flag are
 what the jobs' requests make of them, one after the other, each thread's in order.
 */
module ThreadWork {
  import opened Basics
  import opened MotionFollower
  import opened ClientThreads
  import H = HandOff

  // ---------------------------------------------------------------------------
  // What jobs ask for
  // ---------------------------------------------------------------------------

  /** One motion frame: relative backends inject part of it, absolute ones only move the command. */
  function FrameDeed(dx: int, dy: int, absolute: bool): Deed {
    Follow(if absolute then AdvanceOp(dx, dy) else PushOp(dx, dy))
  }

  /** What a message asks of follower, cursor and flag, in order. */
  function MessageAsks(msg: H.Message, absolute: bool): seq<Deed> {
    match msg
    case Enter(_, x, y) => [Follow(EnterOp(x, y)), Follow(ReanchorOp(x, y)), Flag(true)]
    case Leave(_) => [Flag(false), Follow(LeaveOp)]
    case MouseMoveRel(dx, dy) => [FrameDeed(dx, dy, absolute)]
    case MouseMoveAbs(x, y) => [Follow(ReanchorOp(x, y))]
    case Input(_) => []
    case Other(_) => []
  }

  /** What a job asks; from where a correction starts is left open. */
  function Asks(job: Job, msg: H.Message, absolute: bool): seq<Deed> {
    match job
    case Tick => [if absolute then PutCursor else Follow(CorrectOp((0, 0)))]
    case Datagram(dx, dy) => [FrameDeed(dx, dy, absolute)]
    case DispatchNext => MessageAsks(msg, absolute)
    case FinalPlacement => if absolute then [PutCursor] else []
    case ScreenChanged(w, h) => [Follow(SetBoundsOp(w, h))]
    case _ => []
  }

  /** Everything the jobs a thread has taken up ask for. */
  function Asked(begun: seq<Begun>, t: Thread, absolute: bool): seq<Deed>
    decreases |begun|
  {
    if begun == [] then []
    else
      var last := begun[|begun| - 1];
      Asked(begun[..|begun| - 1], t, absolute) +
      (if Runner(last.job) == t then Asks(last.job, last.msg, absolute) else [])
  }

  function Plain(deed: Deed): Deed {
    if deed.Follow? && deed.op.CorrectOp? then Follow(CorrectOp((0, 0))) else deed
  }

  /** What a thread has done. */
  function DoneBy(done: seq<Entry>, t: Thread): seq<Deed>
    decreases |done|
  {
    if done == [] then []
    else
      var last := done[|done| - 1];
      DoneBy(done[..|done| - 1], t) + (if last.thread == t then [Plain(last.deed)] else [])
  }

  function Optional(deed: Option<Deed>): seq<Deed> {
    if deed.Some? then [Plain(deed.value)] else []
  }

  /** What a thread is still to do. */
  function Ahead(code: Code, absolute: bool): seq<Deed> {
    match code
    case Done => []
    case Then(i, rest) => Optional(DeedOf(i, absolute, (0, 0))) + Ahead(rest, absolute)
  }

  /** A thread has done, or is about to do, exactly what its jobs ask, in order. */
  predicate OnTrack(s: Client, t: Thread) {
    DoneBy(s.done, t) + Ahead(s.threads.Remaining(t), s.absolute) == Asked(s.begun, t, s.absolute)
  }

  /** A job's sections do what it asks. */
  lemma {:induction false} SectionsDoWhatIsAsked(job: Job, msg: H.Message, absolute: bool)
    ensures Ahead(Sections(job, msg), absolute) == Asks(job, msg, absolute)
  {
    match job {
      case Tick => TickAhead(absolute);
      case Datagram(dx, dy) => UnderBothAhead(ApplyFrame(dx, dy), absolute);
      case DispatchNext => DispatchAhead(msg, absolute);
      case FinalPlacement => UnderBothAhead(PlaceFinally, absolute);
      case ScreenChanged(w, h) => UnderAhead(MotionLock, Rebound(w, h), absolute);
      case CheckSystem => UnderAhead(InjectorLock, Work, absolute);
      case QueryScreen => UnderAhead(InjectorLock, Work, absolute);
      case PollClipboard => UnderAhead(ClipboardLock, Work, absolute);
      case Recover =>
        var c1 := Then(TryAcquire(InjectorLock), Done);
        var c2 := Then(TryAcquire(ClipboardLock), c1);
        Silent(TryAcquire(InjectorLock), Done, absolute);
        Silent(TryAcquire(ClipboardLock), c1, absolute);
        Silent(TryAcquire(InjectorLock), c2, absolute);
        Silent(TryAcquire(MotionLock), Then(TryAcquire(InjectorLock), c2), absolute);
    }
  }

  /** One more instruction in front. */
  lemma {:induction false} Silent(i: Instr, rest: Code, absolute: bool)
    ensures Ahead(Then(i, rest), absolute) == Optional(DeedOf(i, absolute, (0, 0))) + Ahead(rest, absolute)
    ensures DeedOf(i, absolute, (0, 0)).None? ==> Ahead(Then(i, rest), absolute) == Ahead(rest, absolute)
  {
    assert [] + Ahead(rest, absolute) == Ahead(rest, absolute);
  }

  lemma {:induction false} UnderAhead(l: Lock, work: Instr, absolute: bool)
    ensures Ahead(Under(l, work, Done), absolute) == Optional(DeedOf(work, absolute, (0, 0)))
  {
    var release := Then(Release(l), Done);
    Silent(Release(l), Done, absolute);
    Silent(work, release, absolute);
    Silent(Acquire(l), Then(work, release), absolute);
  }

  lemma {:induction false} UnderBothAhead(work: Instr, absolute: bool)
    ensures Ahead(UnderBoth(work), absolute) == Optional(DeedOf(work, absolute, (0, 0)))
  {
    var c1 := Then(Release(MotionLock), Done);
    var c2 := Then(Release(InjectorLock), c1);
    var c3 := Then(work, c2);
    Silent(Release(MotionLock), Done, absolute);
    Silent(Release(InjectorLock), c1, absolute);
    Silent(work, c2, absolute);
    Silent(Acquire(InjectorLock), c3, absolute);
    Silent(Acquire(MotionLock), Then(Acquire(InjectorLock), c3), absolute);
  }

  lemma {:induction false} TickAhead(absolute: bool)
    ensures Ahead(TickCode(), absolute) == Asks(Tick, H.Other(0), absolute)
  {
    var c1 := Then(Release(InjectorLock), Done);
    var c2 := Then(Release(MotionLock), c1);
    var c3 := Then(FireAll, c2);
    var c4 := Then(Release(EventsLock), c3);
    var c5 := Then(TakeEvents, c4);
    var c6 := Then(Acquire(EventsLock), c5);
    var c7 := Then(Steer, c6);
    Silent(Release(InjectorLock), Done, absolute);
    Silent(Release(MotionLock), c1, absolute);
    Silent(FireAll, c2, absolute);
    Silent(Release(EventsLock), c3, absolute);
    Silent(TakeEvents, c4, absolute);
    Silent(Acquire(EventsLock), c5, absolute);
    Silent(Steer, c6, absolute);
    Silent(Acquire(InjectorLock), c7, absolute);
    Silent(Acquire(MotionLock), Then(Acquire(InjectorLock), c7), absolute);
  }

  lemma {:induction false} EnterAhead(id: nat, x: int, y: int, absolute: bool)
    ensures Ahead(Dispatch(H.Enter(id, x, y)), absolute) == MessageAsks(H.Enter(id, x, y), absolute)
  {
    hide Ahead;
    var c1 := Under(InjectorLock, Work, Done);
    var c2 := Then(SetActive(true), c1);
    var c3 := Then(Release(MotionLock), c2);
    var c4 := Then(Release(InjectorLock), c3);
    var c5 := Then(PlaceEntry(x, y), c4);
    var c6 := Then(Acquire(InjectorLock), c5);
    var c7 := Then(EnterCommand(x, y), c6);
    UnderAhead(InjectorLock, Work, absolute);
    Silent(SetActive(true), c1, absolute);
    Silent(Release(MotionLock), c2, absolute);
    Silent(Release(InjectorLock), c3, absolute);
    Silent(PlaceEntry(x, y), c4, absolute);
    Silent(Acquire(InjectorLock), c5, absolute);
    Silent(EnterCommand(x, y), c6, absolute);
    Silent(Acquire(MotionLock), c7, absolute);
  }

  lemma {:induction false} LeaveAhead(id: nat, absolute: bool)
    ensures Ahead(Dispatch(H.Leave(id)), absolute) == MessageAsks(H.Leave(id), absolute)
  {
    hide Ahead;
    var c1 := Then(Release(InjectorLock), Done);
    var c2 := Then(Release(MotionLock), c1);
    var c3 := Then(Work, c2);
    var c4 := Then(Acquire(InjectorLock), c3);
    var c5 := Then(StopFollowing, c4);
    var c6 := Then(Acquire(MotionLock), c5);
    NothingAhead(absolute);
    Silent(Release(InjectorLock), Done, absolute);
    Silent(Release(MotionLock), c1, absolute);
    Silent(Work, c2, absolute);
    Silent(Acquire(InjectorLock), c3, absolute);
    Silent(StopFollowing, c4, absolute);
    Silent(Acquire(MotionLock), c5, absolute);
    Silent(SetActive(false), c6, absolute);
  }

  lemma NothingAhead(absolute: bool)
    ensures Ahead(Done, absolute) == []
  {
  }

  lemma {:induction false} DispatchAhead(msg: H.Message, absolute: bool)
    ensures Ahead(Dispatch(msg), absolute) == MessageAsks(msg, absolute)
  {
    hide Ahead;
    match msg {
      case Enter(id, x, y) => EnterAhead(id, x, y, absolute);
      case Leave(id) => LeaveAhead(id, absolute);
      case MouseMoveRel(dx, dy) => UnderBothAhead(ApplyFrame(dx, dy), absolute);
      case MouseMoveAbs(x, y) => UnderBothAhead(PlaceAbsolute(x, y), absolute);
      case Input(e) => UnderAhead(EventsLock, PushEvent(e), absolute);
      case Other(_) => UnderAhead(ClipboardLock, Work, absolute);
    }
  }

  // ---------------------------------------------------------------------------
  // Every thread does what it is asked
  // ---------------------------------------------------------------------------

  lemma AskedOneMore(begun: seq<Begun>, b: Begun, t: Thread, absolute: bool)
    ensures Asked(begun + [b], t, absolute) ==
            Asked(begun, t, absolute) + (if Runner(b.job) == t then Asks(b.job, b.msg, absolute) else [])
  {
    assert (begun + [b])[..|begun|] == begun;
  }

  lemma DoneOneMore(done: seq<Entry>, e: Entry, t: Thread)
    ensures DoneBy(done + [e], t) == DoneBy(done, t) + (if e.thread == t then [Plain(e.deed)] else [])
  {
    assert (done + [e])[..|done|] == done;
  }

  /** Which job a start takes up, if it does. */
  predicate TakesUp(s: Client, job: Job) {
    && s.threads.Remaining(Runner(job)) == Done
    && (job.Tick? || job.Datagram? ==> s.active)
    && (job.DispatchNext? ==> s.wire != [])
  }

  lemma {:induction false} BeginTakesUp(s: Client, job: Job)
    ensures var r := Begin(s, job);
            && r.absolute == s.absolute && r.done == s.done
            && if TakesUp(s, job)
               then var msg := if job.DispatchNext? then s.wire[0] else H.Other(0);
                    && r.begun == s.begun + [Begun(job, msg, s.active)]
                    && r.threads.Remaining(Runner(job)) == Sections(job, msg)
                    && forall t :: t != Runner(job) ==> r.threads.Remaining(t) == s.threads.Remaining(t)
               else r == s
  {
  }

  lemma {:induction false} StartStaysOnTrack(s: Client, job: Job, t: Thread)
    requires OnTrack(s, t)
    ensures OnTrack(Begin(s, job), t)
  {
    hide Begin, Sections, Asks;
    BeginTakesUp(s, job);
    if TakesUp(s, job) {
      var msg := if job.DispatchNext? then s.wire[0] else H.Other(0);
      AskedOneMore(s.begun, Begun(job, msg, s.active), t, s.absolute);
      hide Asked, DoneBy;
      if Runner(job) == t {
        SectionsDoWhatIsAsked(job, msg, s.absolute);
        assert DoneBy(s.done, t) + [] == DoneBy(s.done, t);
      } else {
        assert Asked(s.begun, t, s.absolute) + [] == Asked(s.begun, t, s.absolute);
      }
    }
  }

  lemma {:induction false} AheadShrinks(s: Threads, t: Thread, firing: bool, absolute: bool)
    requires s.Remaining(t).Then?
    ensures var deed := Optional(DeedOf(s.Remaining(t).now, absolute, (0, 0)));
            deed + Ahead(s.Proceed(t, firing).Remaining(t), absolute) == Ahead(s.Remaining(t), absolute)
  {
    var i, later := s.Remaining(t).now, s.Remaining(t).later;
    Silent(i, later, absolute);
    if i.TryAcquire? { Silent(Release(i.lock), later, absolute); }
    var r := s.Proceed(t, firing).Remaining(t);
    assert r in {later, s.Remaining(t), if i.TryAcquire? then Then(Release(i.lock), later) else later};
    assert [] + Ahead(r, absolute) == Ahead(r, absolute);
  }

  lemma Regroup(a: seq<Deed>, b: seq<Deed>, c: seq<Deed>)
    ensures a + b + c == a + (b + c)
  {
  }

  /** What executing an instruction adds to the record. */
  lemma {:induction false} ExecutionIsRecorded(s: Client, t: Thread, os: (int, int))
    requires s.threads.Remaining(t).Then?
    ensures var i, r := s.threads.Remaining(t).now, Execute(s, t, os);
            && r.absolute == s.absolute && r.begun == s.begun
            && r.threads == s.threads.Proceed(t, s.pending != [])
            && DoneBy(r.done, t) == DoneBy(s.done, t) + Optional(DeedOf(i, s.absolute, (0, 0)))
            && forall u :: u != t ==> DoneBy(r.done, u) == DoneBy(s.done, u)
  {
    var i := s.threads.Remaining(t).now;
    var deed := DeedOf(i, s.absolute, s.cursor);
    EffectKeepsWork(s, i, os);
    assert Optional(deed) == Optional(DeedOf(i, s.absolute, (0, 0)));
    hide Effect, Threads.Proceed, DeedOf, DoneBy;
    assert DoneBy(s.done, t) + [] == DoneBy(s.done, t);
    if deed.Some? {
      DoneOneMore(s.done, Entry(t, deed.value, os), t);
      forall u | u != t ensures DoneBy(Execute(s, t, os).done, u) == DoneBy(s.done, u) {
        DoneOneMore(s.done, Entry(t, deed.value, os), u);
        assert DoneBy(s.done, u) + [] == DoneBy(s.done, u);
      }
    }
  }

  lemma {:induction false} StepStaysOnTrack(s: Client, t: Thread, os: (int, int), u: Thread)
    requires OnTrack(s, u)
    ensures OnTrack(Execute(s, t, os), u)
  {
    if s.threads.Remaining(t).Then? {
      var i, r := s.threads.Remaining(t).now, Execute(s, t, os);
      ExecutionIsRecorded(s, t, os);
      if t == u {
        AheadShrinks(s.threads, t, s.pending != [], s.absolute);
        Regroup(DoneBy(s.done, t), Optional(DeedOf(i, s.absolute, (0, 0))), Ahead(r.threads.Remaining(t), s.absolute));
      } else {
        OthersKeepCode(s.threads, t, s.pending != [], u);
      }
      hide Execute, Threads.Proceed, Ahead, DeedOf, DoneBy, Asked, Optional;
    }
  }

  lemma {:induction false} EffectKeepsWork(s: Client, i: Instr, os: (int, int))
    ensures var r := Effect(s, i, os);
            r.absolute == s.absolute && r.begun == s.begun && r.done == s.done && r.threads == s.threads
  {
  }

  // ---------------------------------------------------------------------------
  // Together, they make the follower what it is
  // ---------------------------------------------------------------------------

  /** Follower, cursor and flag. */
  datatype Shown = Shown(follower: Follower, cursor: (int, int), active: bool)

  function Look(s: Client): Shown {
    Shown(s.follower, s.cursor, s.active)
  }

  /**
   What a deed makes of them: the operation on the follower, an injection that takes the cursor where
   the system takes it, a placement that puts it where it says.
   */
  function Play(v: Shown, e: Entry): Shown {
    match e.deed
    case Follow(op) =>
      var cursor := match op
                    case ReanchorOp(x, y) => (x, y)
                    case PushOp(_, _) => e.os
                    case CorrectOp(_) => e.os
                    case _ => v.cursor;
      Shown(Apply(v.follower, op), cursor, v.active)
    case PutCursor => v.(cursor := v.follower.Command())
    case Flag(on) => v.(active := on)
  }

  function PlayAll(v: Shown, done: seq<Entry>): Shown
    decreases |done|
  {
    if done == [] then v else Play(PlayAll(v, done[..|done| - 1]), done[|done| - 1])
  }

  /** Every correction started from where the cursor then was. */
  predicate Honestly(v: Shown, done: seq<Entry>) {
    forall k | 0 <= k < |done| && done[k].deed.Follow? && done[k].deed.op.CorrectOp? ::
      done[k].deed.op.cursor == PlayAll(v, done[..k]).cursor
  }

  predicate Accomplished(start: Shown, s: Client) {
    Look(s) == PlayAll(start, s.done) && Honestly(start, s.done)
  }

  lemma {:induction false} EffectIsItsDeed(s: Client, i: Instr, os: (int, int), t: Thread)
    ensures var deed := DeedOf(i, s.absolute, s.cursor);
            Look(Effect(s, i, os)) == if deed.Some? then Play(Look(s), Entry(t, deed.value, os)) else Look(s)
  {
  }

  lemma {:induction false} StepAccomplishes(start: Shown, s: Client, t: Thread, os: (int, int))
    requires Accomplished(start, s)
    ensures Accomplished(start, Execute(s, t, os))
  {
    if s.threads.Remaining(t).Then? {
      var i := s.threads.Remaining(t).now;
      var deed := DeedOf(i, s.absolute, s.cursor);
      EffectIsItsDeed(s, i, os, t);
      EffectKeepsWork(s, i, os);
      assert deed.Some? && deed.value.Follow? && deed.value.op.CorrectOp? ==> deed.value.op.cursor == s.cursor;
      hide Effect, Threads.Proceed, Play, DeedOf;
      if deed.Some? {
        var done := s.done + [Entry(t, deed.value, os)];
        assert done[..|s.done|] == s.done;
        assert forall k | 0 <= k < |s.done| :: done[..k] == s.done[..k] && done[k] == s.done[k];
      }
    }
  }

  lemma {:induction false} RunAccomplishes(start: Shown, s: Client, moves: seq<Move>, t: Thread)
    requires Accomplished(start, s) && OnTrack(s, t)
    ensures Accomplished(start, DoAll(s, moves)) && OnTrack(DoAll(s, moves), t)
    decreases |moves|
  {
    hide Begin, Execute, OnTrack, Accomplished;
    if moves != [] {
      match moves[0] {
        case Start(job) =>
          StartStaysOnTrack(s, job, t);
          StartAccomplishes(start, s, job);
        case Exec(u, os) =>
          StepStaysOnTrack(s, u, os, t);
          StepAccomplishes(start, s, u, os);
      }
      RunAccomplishes(start, Do(s, moves[0]), moves[1..], t);
    }
  }

  lemma {:induction false} StartAccomplishes(start: Shown, s: Client, job: Job)
    requires Accomplished(start, s)
    ensures Accomplished(start, Begin(s, job))
  {
    BeginOnlyLoads(s, job);
    BeginTakesUp(s, job);
    hide PlayAll, Honestly;
  }

  /**
   The threads' work adds up. In every interleaving of the jobs' sections, follower, cursor and flag
   are what the deeds done so far make of them, one after the other; and what each thread has done and
   is about to do is exactly what the jobs it has taken up ask for, each once and in order: nothing is
   lost, repeated or reordered by the locks.
   */
  lemma WorkAddsUp(
      absolute: bool, follower: Follower, cursor: (int, int), wire: seq<H.Message>, moves: seq<Move>, t: Thread)
    ensures var s := DoAll(Initial(absolute, follower, cursor, wire), moves);
            && Look(s) == PlayAll(Shown(follower, cursor, false), s.done)
            && Honestly(Shown(follower, cursor, false), s.done)
            && DoneBy(s.done, t) + Ahead(s.threads.Remaining(t), absolute) == Asked(s.begun, t, absolute)
  {
    var start := Initial(absolute, follower, cursor, wire);
    RunAccomplishes(Shown(follower, cursor, false), start, moves, t);
    EventsFireInOrderAndInPlace(absolute, follower, cursor, wire, moves);
    StaysAbsolute(start, moves);
  }

  lemma {:induction false} StaysAbsolute(s: Client, moves: seq<Move>)
    ensures DoAll(s, moves).absolute == s.absolute
    decreases |moves|
  {
    if moves != [] {
      match moves[0] {
        case Start(job) => BeginTakesUp(s, job);
        case Exec(t, os) =>
          if s.threads.Remaining(t).Then? { EffectKeepsWork(s, s.threads.Remaining(t).now, os); }
      }
      hide Do;
      StaysAbsolute(Do(s, moves[0]), moves[1..]);
    }
  }

  // ---------------------------------------------------------------------------
  // Events and jobs
  // ---------------------------------------------------------------------------

  /** What was accepted when the queue was last taken is fired or taken, and only a full queue refused. */
  predicate Claims(s: Client) {
    |s.fired| + |s.pending| >= s.claimed && RefusedWhenFull(s.heard)
  }

  function Dispatched(begun: seq<Begun>): seq<H.Message>
    decreases |begun|
  {
    if begun == [] then []
    else
      var last := begun[|begun| - 1];
      Dispatched(begun[..|begun| - 1]) + (if last.job.DispatchNext? then [last.msg] else [])
  }

  /** Ticks and datagrams were taken up only while control was here, and dispatches took the wire's messages. */
  predicate BegunRightly(s: Client) {
    && (forall b <- s.begun :: b.job.Tick? || b.job.Datagram? ==> b.active)
    && Dispatched(s.begun) == s.dispatched
  }

  lemma {:induction false} StartBeginsRightly(s: Client, job: Job)
    requires BegunRightly(s)
    ensures BegunRightly(Begin(s, job))
  {
    var r := Begin(s, job);
    if r.begun != s.begun {
      assert r.begun[..|s.begun|] == s.begun;
      assert s.dispatched + [] == s.dispatched;
    }
  }

  predicate RefusedWhenFull(heard: seq<Heard>) {
    forall h <- heard :: h.accepted <==> h.waiting < H.EVENT_QUEUE_CAP
  }

  lemma {:induction false} EffectOnClaims(s: Client, i: Instr, os: (int, int))
    ensures var r := Effect(s, i, os);
            && (i.TakeEvents? ==> r.fired == s.fired && r.pending == s.queue)
            && (!i.TakeEvents? ==> |r.fired| + |r.pending| == |s.fired| + |s.pending|)
            && (RefusedWhenFull(s.heard) ==> RefusedWhenFull(r.heard))
  {
  }

  lemma {:induction false} StepKeepsClaims(s: Client, t: Thread, os: (int, int))
    requires Sound(s) && Claims(s)
    ensures Claims(Execute(s, t, os))
    ensures var r, code := Execute(s, t, os), s.threads.Remaining(t);
            && r.begun == s.begun && r.dispatched == s.dispatched
            && r.claimed == if code.Then? && code.now.TakeEvents? then |Accepted(s.heard)| else s.claimed
  {
    var code := s.threads.Remaining(t);
    if code.Then? {
      var i := code.now;
      EffectOnClaims(s, i, os);
      EffectKeepsWork(s, i, os);
      EffectKeepsWire(s, i, os);
      hide Effect, Threads.Proceed, Orderly, InPlace, AllHeard, DeedOf, RefusedWhenFull, WillFire;
      hide Accepted, FiredEvents;
      if i.TakeEvents? {
        EverythingIsAccountedFor(s);
        TakingIsDue(s, t);
      }
      assert Claims(Execute(s, t, os));
    }
  }

  /** Nobody takes events while some that were taken are still to be fired. */
  lemma TakingIsDue(s: Client, t: Thread)
    requires Sound(s) && s.threads.Remaining(t).Then? && s.threads.Remaining(t).now.TakeEvents?
    ensures s.pending == []
  {
    assert ThreadDisciplined(s.threads, t);
  }

  lemma EverythingIsAccountedFor(s: Client)
    requires NothingLost(s)
    ensures |Accepted(s.heard)| == |s.fired| + |s.pending| + |s.queue|
  {
    assert |FiredEvents(s.fired) + s.pending + s.queue| == |s.fired| + |s.pending| + |s.queue|;
  }

  lemma {:induction false} RunKeepsClaims(s: Client, moves: seq<Move>)
    requires Sound(s) && Claims(s) && BegunRightly(s)
    ensures var r := DoAll(s, moves); Sound(r) && Claims(r) && BegunRightly(r)
    decreases |moves|
  {
    hide Sound;
    if moves != [] {
      DoKeepsSound(s, moves[0]);
      match moves[0] {
        case Start(job) =>
          StartBeginsRightly(s, job);
          BeginOnlyLoads(s, job);
          BeginTakesUp(s, job);
        case Exec(t, os) => StepKeepsClaims(s, t, os);
      }
      hide Do, Claims, BegunRightly;
      RunKeepsClaims(Do(s, moves[0]), moves[1..]);
    }
  }

  /**
   Every tick fires what it took. In every interleaving, whenever the motion thread is past firing, the
   events accepted before it last took the queue have all been executed; an event was refused exactly
   when the queue was full; the TCP thread took up the wire's messages in order; and steering and
   datagrams were taken up only while control was here.
   */
  lemma TickFiresWhatItTook(
      absolute: bool, follower: Follower, cursor: (int, int), wire: seq<H.Message>, moves: seq<Move>)
    ensures var s := DoAll(Initial(absolute, follower, cursor, wire), moves);
            && (!WillFire(s.threads.Remaining(MotionThread)) ==> |s.fired| >= s.claimed)
            && RefusedWhenFull(s.heard)
            && Dispatched(s.begun) + s.wire == wire
            && (forall b <- s.begun :: b.job.Tick? || b.job.Datagram? ==> b.active)
  {
    var start := Initial(absolute, follower, cursor, wire);
    forall t ensures ThreadDisciplined(start.threads, t) { }
    RunKeepsClaims(start, moves);
    RunKeepsSound(start, moves);
  }
}
