/**
 The client's worker threads, their locks, and the injection of input events.

 Each thread runs straight-line critical sections; a step of the system is one instruction of
 one thread, so every interleaving of the sections is a run.
 */
module ClientThreads {
  import opened Basics
  import opened MotionFollower
  import H = HandOff

  type Event = H.InjectEvent

  datatype Thread = MotionThread | UdpThread | TcpThread | SyncThread | Supervisor

  datatype Lock = MotionLock | InjectorLock | EventsLock | ClipboardLock

  /** The order locks are taken in. */
  function Rank(l: Lock): nat {
    match l
    case MotionLock => 0
    case InjectorLock => 1
    case EventsLock => 2
    case ClipboardLock => 3
  }

  datatype Instr =
    | Acquire(lock: Lock)
    | TryAcquire(lock: Lock)        // never waits; a lock it gets is released right after
    | Release(lock: Lock)
    | Steer                         // place the cursor on the command, or correct toward it
    | PlaceFinally                  // the last placement of a session, on absolute backends
    | TakeEvents                    // move the whole queue into the tick's own list
    | FireAll                       // execute that list, one event per step
    | ApplyFrame(dx: int, dy: int)
    | EnterCommand(x: int, y: int)  // the follower starts at the entry point
    | PlaceEntry(x: int, y: int)    // the injector arms, the cursor is placed, the command follows it
    | PlaceAbsolute(x: int, y: int)
    | StopFollowing
    | Rebound(w: nat, h: nat)
    | PushEvent(event: Event)
    | SetActive(active: bool)
    | Work                          // a call that touches none of the state modelled here

  datatype Code = Done | Then(now: Instr, later: Code)

  // ---------------------------------------------------------------------------
  // What the threads run
  // ---------------------------------------------------------------------------

  datatype Job =
    | Tick
    | Datagram(dx: int, dy: int)
    | DispatchNext
    | CheckSystem
    | FinalPlacement
    | QueryScreen
    | ScreenChanged(w: nat, h: nat)
    | PollClipboard
    | Recover

  function Runner(job: Job): Thread {
    match job
    case Tick => MotionThread
    case Datagram(_, _) => UdpThread
    case DispatchNext => TcpThread
    case CheckSystem => TcpThread
    case FinalPlacement => TcpThread
    case QueryScreen => SyncThread
    case ScreenChanged(_, _) => SyncThread
    case PollClipboard => SyncThread
    case Recover => Supervisor
  }

  function Under(lock: Lock, work: Instr, later: Code): Code {
    Then(Acquire(lock), Then(work, Then(Release(lock), later)))
  }

  /** One piece of work under the motion and the injector lock. */
  function UnderBoth(work: Instr): Code {
    Then(Acquire(MotionLock), Then(Acquire(InjectorLock), Then(work,
      Then(Release(InjectorLock), Then(Release(MotionLock), Done)))))
  }

  /** A steering tick; the motion lock is dropped before the injector lock. */
  function TickCode(): Code {
    Then(Acquire(MotionLock), Then(Acquire(InjectorLock), Then(Steer,
      Then(Acquire(EventsLock), Then(TakeEvents, Then(Release(EventsLock),
      Then(FireAll, Then(Release(MotionLock), Then(Release(InjectorLock), Done)))))))))
  }

  /** The sections one dispatched message runs. */
  function Dispatch(msg: H.Message): Code {
    match msg
    case Enter(_, x, y) =>
      Then(Acquire(MotionLock), Then(EnterCommand(x, y),
        Then(Acquire(InjectorLock), Then(PlaceEntry(x, y), Then(Release(InjectorLock),
        Then(Release(MotionLock), Then(SetActive(true), Under(InjectorLock, Work, Done))))))))
    case Leave(_) =>
      Then(SetActive(false), Then(Acquire(MotionLock), Then(StopFollowing, Then(Acquire(InjectorLock),
        Then(Work, Then(Release(MotionLock), Then(Release(InjectorLock), Done)))))))
    case MouseMoveRel(dx, dy) => UnderBoth(ApplyFrame(dx, dy))
    case MouseMoveAbs(x, y) => UnderBoth(PlaceAbsolute(x, y))
    case Input(event) => Under(EventsLock, PushEvent(event), Done)
    case Other(_) => Under(ClipboardLock, Work, Done)
  }

  /** The sections of a job; a `DispatchNext` runs those of its message. */
  function Sections(job: Job, msg: H.Message): Code {
    match job
    case Tick => TickCode()
    case Datagram(dx, dy) => UnderBoth(ApplyFrame(dx, dy))
    case DispatchNext => Dispatch(msg)
    case CheckSystem => Under(InjectorLock, Work, Done)
    case FinalPlacement => UnderBoth(PlaceFinally)
    case QueryScreen => Under(InjectorLock, Work, Done)
    case ScreenChanged(w, h) => Under(MotionLock, Rebound(w, h), Done)
    case PollClipboard => Under(ClipboardLock, Work, Done)
    case Recover =>
      Then(TryAcquire(MotionLock), Then(TryAcquire(InjectorLock), Then(TryAcquire(ClipboardLock),
        Then(TryAcquire(InjectorLock), Done))))
  }

  // ---------------------------------------------------------------------------
  // State and steps
  // ---------------------------------------------------------------------------

  /**
   Who holds which lock and what each thread still has to run. `placed` holds the threads that have
   steered and neither moved the cursor or the command nor let go of a lock guarding them since.
   */
  datatype Threads = Threads(holder: map<Lock, Thread>, code: map<Thread, Code>, placed: set<Thread>) {
    function Remaining(t: Thread): Code {
      if t in code then code[t] else Done
    }

    predicate Owns(t: Thread, l: Lock) {
      l in holder && holder[l] == t
    }

    /** Thread `t` gets past its next instruction. */
    function Pass(t: Thread, i: Instr, later: Code): Threads {
      var mark := PlacedAfter(i, t in placed);
      this.(code := code[t := later], placed := if mark then placed + {t} else placed - {t})
    }

    /** Thread `t` runs its next instruction; `firing` says there are events left to fire. */
    function Proceed(t: Thread, firing: bool): Threads {
      match Remaining(t)
      case Done => this
      case Then(i, later) =>
        match i
        case Acquire(l) => if l in holder then this else Pass(t, i, later).(holder := holder[l := t])
        case TryAcquire(l) =>
          if l in holder then Pass(t, i, later)
          else Pass(t, i, Then(Release(l), later)).(holder := holder[l := t])
        case Release(l) => Pass(t, i, later).(holder := holder - {l})
        case _ => if i.FireAll? && firing then this else Pass(t, i, later)
    }
  }

  /** Is a thread that `placed` still so after running this instruction? */
  predicate PlacedAfter(i: Instr, placed: bool) {
    match i
    case Steer => true
    case Release(l) => placed && l == EventsLock
    case Acquire(_) => placed
    case TakeEvents => placed
    case FireAll => placed
    case _ => false
  }

  /** An executed event, and where cursor and command were when it fired. */
  datatype Firing = Firing(event: Event, cursor: (int, int), command: (int, int))

  /** An event that reached the queue, how many waited there, and whether there was room for it. */
  datatype Heard = Heard(event: Event, waiting: nat, accepted: bool)

  /** What an instruction does to the follower, to the cursor alone, or to the flag that control is here. */
  datatype Deed = Follow(op: Op) | PutCursor | Flag(on: bool)

  /** Who did it, and where a relative injection took the cursor. */
  datatype Entry = Entry(thread: Thread, deed: Deed, os: (int, int))

  /** A job taken up, its message, and whether control was here. */
  datatype Begun = Begun(job: Job, msg: H.Message, active: bool)

  /**
   The client. The last six fields only record history: the messages taken off the wire, every event
   that reached the queue, every event executed, the jobs taken up, what the threads did, and how many
   events had been accepted when the motion thread last took the queue.
   */
  datatype Client = Client(
    threads: Threads,
    absolute: bool,
    active: bool,
    follower: Follower,
    cursor: (int, int),
    wire: seq<H.Message>,
    queue: seq<Event>,
    pending: seq<Event>,
    dispatched: seq<H.Message>,
    heard: seq<Heard>,
    fired: seq<Firing>,
    begun: seq<Begun>,
    done: seq<Entry>,
    claimed: nat)

  datatype Move = Start(job: Job) | Exec(thread: Thread, os: (int, int))

  function Initial(absolute: bool, follower: Follower, cursor: (int, int), wire: seq<H.Message>): Client {
    Client(Threads(map[], map[], {}), absolute, false, follower, cursor, wire, [], [], [], [], [], [], [], 0)
  }

  /** An idle thread takes up a job: steering and datagrams only while control is here. */
  function Begin(s: Client, job: Job): Client {
    var t := Runner(job);
    if s.threads.Remaining(t) != Done || ((job.Tick? || job.Datagram?) && !s.active) then s
    else if !job.DispatchNext? then
      s.(threads := s.threads.(code := s.threads.code[t := Sections(job, H.Other(0))]),
         begun := s.begun + [Begun(job, H.Other(0), s.active)])
    else if s.wire == [] then s
    else
      s.(wire := s.wire[1..], dispatched := s.dispatched + [s.wire[0]],
         threads := s.threads.(code := s.threads.code[t := Sections(job, s.wire[0])]),
         begun := s.begun + [Begun(job, s.wire[0], s.active)])
  }

  /** What an instruction does besides taking and giving locks; `os` is where a relative injection takes the cursor. */
  function Effect(s: Client, i: Instr, os: (int, int)): Client {
    match i
    case Steer =>
      if s.absolute then s.(cursor := s.follower.Command())
      else s.(follower := s.follower.Correct(s.cursor).0, cursor := os)
    case PlaceFinally => if s.absolute then s.(cursor := s.follower.Command()) else s
    case TakeEvents => s.(pending := s.queue, queue := [])
    case FireAll =>
      if s.pending == [] then s
      else s.(pending := s.pending[1..], fired := s.fired + [Firing(s.pending[0], s.cursor, s.follower.Command())])
    case ApplyFrame(dx, dy) =>
      if s.absolute then s.(follower := s.follower.Advance(dx, dy))
      else s.(follower := s.follower.Push(dx, dy).0, cursor := os)
    case EnterCommand(x, y) => s.(follower := s.follower.Enter(x, y))
    case PlaceEntry(x, y) => s.(cursor := (x, y), follower := s.follower.PlaceAt(x, y))
    case PlaceAbsolute(x, y) => s.(cursor := (x, y), follower := s.follower.PlaceAt(x, y))
    case StopFollowing => s.(follower := s.follower.Leave())
    case Rebound(w, h) => s.(follower := s.follower.SetBounds(w, h))
    case PushEvent(e) =>
      if |s.queue| < H.EVENT_QUEUE_CAP
      then s.(queue := s.queue + [e], heard := s.heard + [Heard(e, |s.queue|, true)])
      else s.(heard := s.heard + [Heard(e, |s.queue|, false)])
    case SetActive(on) => s.(active := on)
    case _ => s
  }

  /** The events there was room for. */
  function Accepted(heard: seq<Heard>): seq<Event>
    decreases |heard|
  {
    if heard == [] then []
    else
      var last := heard[|heard| - 1];
      Accepted(heard[..|heard| - 1]) + (if last.accepted then [last.event] else [])
  }

  /** How history records an instruction. */
  function DeedOf(i: Instr, absolute: bool, cursor: (int, int)): Option<Deed> {
    match i
    case Steer => Some(if absolute then PutCursor else Follow(CorrectOp(cursor)))
    case PlaceFinally => if absolute then Some(PutCursor) else None
    case ApplyFrame(dx, dy) => Some(Follow(if absolute then AdvanceOp(dx, dy) else PushOp(dx, dy)))
    case EnterCommand(x, y) => Some(Follow(EnterOp(x, y)))
    case PlaceEntry(x, y) => Some(Follow(ReanchorOp(x, y)))
    case PlaceAbsolute(x, y) => Some(Follow(ReanchorOp(x, y)))
    case StopFollowing => Some(Follow(LeaveOp))
    case Rebound(w, h) => Some(Follow(SetBoundsOp(w, h)))
    case SetActive(on) => Some(Flag(on))
    case _ => None
  }

  /** One instruction of one thread. */
  function Execute(s: Client, t: Thread, os: (int, int)): Client {
    match s.threads.Remaining(t)
    case Done => s
    case Then(i, _) =>
      var deed := DeedOf(i, s.absolute, s.cursor);
      Effect(s, i, os)
        .(threads := s.threads.Proceed(t, s.pending != []),
          done := if deed.Some? then s.done + [Entry(t, deed.value, os)] else s.done,
          claimed := if i.TakeEvents? then |Accepted(s.heard)| else s.claimed)
  }

  function Do(s: Client, move: Move): Client {
    match move
    case Start(job) => Begin(s, job)
    case Exec(t, os) => Execute(s, t, os)
  }

  function DoAll(s: Client, moves: seq<Move>): Client
    decreases |moves|
  {
    if moves == [] then s else DoAll(Do(s, moves[0]), moves[1..])
  }

  // ---------------------------------------------------------------------------
  // The discipline the sections follow
  // ---------------------------------------------------------------------------

  /** The set of locks a thread holds. */
  datatype Hold = Hold(motion: bool, injector: bool, events: bool, clipboard: bool) {
    predicate Has(l: Lock) {
      match l
      case MotionLock => motion
      case InjectorLock => injector
      case EventsLock => events
      case ClipboardLock => clipboard
    }

    function Set(l: Lock, on: bool): Hold {
      match l
      case MotionLock => this.(motion := on)
      case InjectorLock => this.(injector := on)
      case EventsLock => this.(events := on)
      case ClipboardLock => this.(clipboard := on)
    }

    predicate AllBelow(l: Lock) {
      && (motion ==> Rank(MotionLock) < Rank(l))
      && (injector ==> Rank(InjectorLock) < Rank(l))
      && (events ==> Rank(EventsLock) < Rank(l))
      && (clipboard ==> Rank(ClipboardLock) < Rank(l))
    }
  }

  const FREE := Hold(false, false, false, false)

  function HeldBy(s: Threads, t: Thread): Hold {
    Hold(s.Owns(t, MotionLock), s.Owns(t, InjectorLock), s.Owns(t, EventsLock), s.Owns(t, ClipboardLock))
  }

  function HoldAfter(i: Instr, held: Hold): Hold {
    match i
    case Acquire(l) => held.Set(l, true)
    case Release(l) => held.Set(l, false)
    case _ => held
  }

  /** Will this code fire events before it takes any more? */
  predicate WillFire(code: Code) {
    match code
    case Done => false
    case Then(i, rest) => i.FireAll? || (!i.TakeEvents? && WillFire(rest))
  }

  /** The locks, the thread and the moment an instruction asks for. */
  predicate Permitted(t: Thread, i: Instr, rest: Code, held: Hold, placed: bool) {
    match i
    case Acquire(l) => held.AllBelow(l)
    case TryAcquire(_) => held == FREE
    case Release(l) => held.Has(l)
    case Steer => held.motion && held.injector
    case PlaceFinally => held.motion && held.injector
    case FireAll => t == MotionThread && placed
    case TakeEvents => t == MotionThread && held.events && WillFire(rest)
    case ApplyFrame(_, _) => held.motion && held.injector
    case PlaceEntry(_, _) => held.motion && held.injector
    case PlaceAbsolute(_, _) => held.motion && held.injector
    case EnterCommand(_, _) => held.motion
    case StopFollowing => held.motion
    case Rebound(_, _) => held.motion
    case PushEvent(_) => t == TcpThread && held.events
    case _ => true
  }

  /**
   A thread's remaining code is disciplined: it waits only for locks above those it holds, touches
   nothing without the lock, fires only from where it steered, takes events only to fire them, and
   ends holding nothing.
   */
  predicate Disciplined(t: Thread, code: Code, held: Hold, placed: bool)
    decreases code
  {
    match code
    case Done => held == FREE
    case Then(i, rest) =>
      Permitted(t, i, rest, held, placed) && Disciplined(t, rest, HoldAfter(i, held), PlacedAfter(i, placed))
  }

  /** One more instruction in front of disciplined code. */
  lemma {:induction false} Before(t: Thread, i: Instr, rest: Code, held: Hold, placed: bool)
    requires Permitted(t, i, rest, held, placed)
    requires Disciplined(t, rest, HoldAfter(i, held), PlacedAfter(i, placed))
    ensures Disciplined(t, Then(i, rest), held, placed)
  {
  }

  const MOTION := Hold(true, false, false, false)
  const INJECTOR := Hold(false, true, false, false)
  const BOTH := Hold(true, true, false, false)
  const MOST := Hold(true, true, true, false)

  lemma {:induction false} UnderIsDisciplined(t: Thread, l: Lock, work: Instr)
    requires Permitted(t, work, Then(Release(l), Done), FREE.Set(l, true), false)
    requires work.Work? || work.Rebound? || work.PushEvent?
    ensures Disciplined(t, Under(l, work, Done), FREE, false)
  {
    Before(t, Release(l), Done, FREE.Set(l, true), false);
    Before(t, work, Then(Release(l), Done), FREE.Set(l, true), false);
    Before(t, Acquire(l), Then(work, Then(Release(l), Done)), FREE, false);
  }

  /** Dropping both locks, in either order, whether or not the thread steered. */
  lemma {:induction false} DropIsDisciplined(t: Thread, placed: bool)
    ensures Disciplined(t, Then(Release(MotionLock), Then(Release(InjectorLock), Done)), BOTH, placed)
    ensures Disciplined(t, Then(Release(InjectorLock), Then(Release(MotionLock), Done)), BOTH, placed)
  {
    Before(t, Release(InjectorLock), Done, INJECTOR, false);
    Before(t, Release(MotionLock), Then(Release(InjectorLock), Done), BOTH, placed);
    Before(t, Release(MotionLock), Done, MOTION, false);
    Before(t, Release(InjectorLock), Then(Release(MotionLock), Done), BOTH, placed);
  }

  lemma {:induction false} UnderBothIsDisciplined(t: Thread, work: Instr)
    requires work.ApplyFrame? || work.PlaceAbsolute? || work.PlaceFinally?
    ensures Disciplined(t, UnderBoth(work), FREE, false)
  {
    DropIsDisciplined(t, false);
    var drop := Then(Release(InjectorLock), Then(Release(MotionLock), Done));
    Before(t, work, drop, BOTH, false);
    Before(t, Acquire(InjectorLock), Then(work, drop), MOTION, false);
    Before(t, Acquire(MotionLock), Then(Acquire(InjectorLock), Then(work, drop)), FREE, false);
  }

  lemma {:induction false} TickIsDisciplined()
    ensures Disciplined(MotionThread, TickCode(), FREE, false)
  {
    var t := MotionThread;
    DropIsDisciplined(t, true);
    var drop := Then(Release(MotionLock), Then(Release(InjectorLock), Done));
    Before(t, FireAll, drop, BOTH, true);
    var fire := Then(Release(EventsLock), Then(FireAll, drop));
    Before(t, Release(EventsLock), Then(FireAll, drop), MOST, true);
    assert WillFire(fire);
    Before(t, TakeEvents, fire, MOST, true);
    Before(t, Acquire(EventsLock), Then(TakeEvents, fire), BOTH, true);
    var steer := Then(Steer, Then(Acquire(EventsLock), Then(TakeEvents, fire)));
    Before(t, Steer, steer.later, BOTH, false);
    Before(t, Acquire(InjectorLock), steer, MOTION, false);
    Before(t, Acquire(MotionLock), Then(Acquire(InjectorLock), steer), FREE, false);
  }

  lemma {:induction false} EnterIsDisciplined(id: nat, x: int, y: int)
    ensures Disciplined(TcpThread, Dispatch(H.Enter(id, x, y)), FREE, false)
  {
    var t := TcpThread;
    var flip := Then(SetActive(true), Under(InjectorLock, Work, Done));
    UnderIsDisciplined(t, InjectorLock, Work);
    Before(t, SetActive(true), flip.later, FREE, false);
    Before(t, Release(MotionLock), flip, MOTION, false);
    var drop := Then(Release(InjectorLock), Then(Release(MotionLock), flip));
    Before(t, Release(InjectorLock), drop.later, BOTH, false);
    Before(t, PlaceEntry(x, y), drop, BOTH, false);
    var place := Then(Acquire(InjectorLock), Then(PlaceEntry(x, y), drop));
    Before(t, Acquire(InjectorLock), place.later, MOTION, false);
    Before(t, EnterCommand(x, y), place, MOTION, false);
    Before(t, Acquire(MotionLock), Then(EnterCommand(x, y), place), FREE, false);
  }

  lemma {:induction false} LeaveIsDisciplined(id: nat)
    ensures Disciplined(TcpThread, Dispatch(H.Leave(id)), FREE, false)
  {
    var t := TcpThread;
    DropIsDisciplined(t, false);
    var work := Then(Work, Then(Release(MotionLock), Then(Release(InjectorLock), Done)));
    Before(t, Work, work.later, BOTH, false);
    Before(t, Acquire(InjectorLock), work, MOTION, false);
    var stop := Then(StopFollowing, Then(Acquire(InjectorLock), work));
    Before(t, StopFollowing, stop.later, MOTION, false);
    Before(t, Acquire(MotionLock), stop, FREE, false);
    Before(t, SetActive(false), Then(Acquire(MotionLock), stop), FREE, false);
  }

  lemma {:induction false} RecoverIsDisciplined(msg: H.Message)
    ensures Disciplined(Supervisor, Sections(Recover, msg), FREE, false)
  {
    var t := Supervisor;
    var last := Then(TryAcquire(InjectorLock), Done);
    Before(t, TryAcquire(InjectorLock), Done, FREE, false);
    Before(t, TryAcquire(ClipboardLock), last, FREE, false);
    last := Then(TryAcquire(ClipboardLock), last);
    Before(t, TryAcquire(InjectorLock), last, FREE, false);
    Before(t, TryAcquire(MotionLock), Then(TryAcquire(InjectorLock), last), FREE, false);
  }

  /** Every section of every job follows the discipline. */
  lemma {:induction false} SectionsAreDisciplined(job: Job, msg: H.Message)
    ensures Disciplined(Runner(job), Sections(job, msg), FREE, false)
  {
    match job {
      case Tick => TickIsDisciplined();
      case Datagram(dx, dy) => UnderBothIsDisciplined(UdpThread, ApplyFrame(dx, dy));
      case DispatchNext =>
        match msg {
          case Enter(id, x, y) => EnterIsDisciplined(id, x, y);
          case Leave(id) => LeaveIsDisciplined(id);
          case MouseMoveRel(dx, dy) => UnderBothIsDisciplined(TcpThread, ApplyFrame(dx, dy));
          case MouseMoveAbs(x, y) => UnderBothIsDisciplined(TcpThread, PlaceAbsolute(x, y));
          case Input(e) => UnderIsDisciplined(TcpThread, EventsLock, PushEvent(e));
          case Other(_) => UnderIsDisciplined(TcpThread, ClipboardLock, Work);
        }
      case FinalPlacement => UnderBothIsDisciplined(TcpThread, PlaceFinally);
      case ScreenChanged(w, h) => UnderIsDisciplined(SyncThread, MotionLock, Rebound(w, h));
      case PollClipboard => UnderIsDisciplined(SyncThread, ClipboardLock, Work);
      case Recover => RecoverIsDisciplined(msg);
      case _ => UnderIsDisciplined(Runner(job), InjectorLock, Work);
    }
  }

  predicate ThreadDisciplined(s: Threads, t: Thread) {
    Disciplined(t, s.Remaining(t), HeldBy(s, t), t in s.placed)
  }

  predicate Orderly(s: Threads) {
    && (forall t :: ThreadDisciplined(s, t))
    && (forall t :: t in s.placed ==> s.Owns(t, MotionLock) && s.Owns(t, InjectorLock))
  }

  lemma IdleHoldsNothing(s: Threads, t: Thread)
    requires Orderly(s) && s.Remaining(t) == Done
    ensures HeldBy(s, t) == FREE && t !in s.placed
  {
    assert ThreadDisciplined(s, t);
  }

  lemma {:induction false} StartKeepsOrder(s: Client, job: Job)
    requires Orderly(s.threads)
    ensures Orderly(Begin(s, job).threads)
  {
    hide Sections, Disciplined;
    var r := Begin(s, job).threads;
    SectionsAreDisciplined(job, if s.wire == [] then H.Other(0) else s.wire[0]);
    SectionsAreDisciplined(job, H.Other(0));
    if s.threads.Remaining(Runner(job)) == Done { IdleHoldsNothing(s.threads, Runner(job)); }
    forall t ensures ThreadDisciplined(r, t) {
      assert ThreadDisciplined(s.threads, t);
      assert HeldBy(r, t) == HeldBy(s.threads, t);
    }
  }

  /** Does the thread's next instruction give back only what the thread holds? */
  predicate Honest(s: Threads, t: Thread) {
    match s.Remaining(t)
    case Done => true
    case Then(i, _) => i.Release? ==> s.Owns(t, i.lock)
  }

  /** Whatever a thread runs, no other thread gains or loses a lock. */
  lemma {:induction false} OthersKeepLocks(s: Threads, t: Thread, firing: bool, u: Thread, l: Lock)
    requires Honest(s, t) && u != t
    ensures s.Proceed(t, firing).Owns(u, l) == s.Owns(u, l)
  {
  }

  lemma {:induction false} PassingKeepsOthers(s: Threads, t: Thread, i: Instr, later: Code, u: Thread)
    requires u != t
    ensures s.Pass(t, i, later).Remaining(u) == s.Remaining(u)
    ensures u in s.Pass(t, i, later).placed <==> u in s.placed
  {
    hide PlacedAfter;
  }

  /** ... nor its code, nor its place. */
  lemma {:induction false} OthersKeepCode(s: Threads, t: Thread, firing: bool, u: Thread)
    requires u != t
    ensures s.Proceed(t, firing).Remaining(u) == s.Remaining(u)
    ensures u in s.Proceed(t, firing).placed <==> u in s.placed
  {
    hide Threads.Pass;
    if s.Remaining(t).Then? {
      var i, later := s.Remaining(t).now, s.Remaining(t).later;
      PassingKeepsOthers(s, t, i, later, u);
      if i.TryAcquire? { PassingKeepsOthers(s, t, i, Then(Release(i.lock), later), u); }
    }
  }

  /** The instruction a thread runs changes nothing another thread holds or remembers. */
  lemma {:induction false} OthersUntouched(s: Threads, t: Thread, firing: bool, u: Thread)
    requires Honest(s, t) && u != t
    ensures var r := s.Proceed(t, firing);
            r.Remaining(u) == s.Remaining(u) && HeldBy(r, u) == HeldBy(s, u) && (u in r.placed <==> u in s.placed)
  {
    hide Threads.Proceed, Honest;
    OthersKeepCode(s, t, firing, u);
    OthersKeepLocks(s, t, firing, u, MotionLock);
    OthersKeepLocks(s, t, firing, u, InjectorLock);
    OthersKeepLocks(s, t, firing, u, EventsLock);
    OthersKeepLocks(s, t, firing, u, ClipboardLock);
  }

  predicate CanRun(s: Threads, t: Thread) {
    s.Remaining(t).Then? && (s.Remaining(t).now.Acquire? ==> s.Remaining(t).now.lock !in s.holder)
  }

  /** A thread that gets past an instruction holds what the instruction leaves it. */
  lemma {:induction false} OwnLocks(s: Threads, t: Thread, firing: bool, l: Lock)
    requires CanRun(s, t)
    ensures var i := s.Remaining(t).now;
            s.Proceed(t, firing).Owns(t, l) ==
            if i.TryAcquire? && i.lock !in s.holder then s.Owns(t, l) || l == i.lock
            else HoldAfter(i, HeldBy(s, t)).Has(l)
  {
  }

  lemma {:induction false} RunnerHolds(s: Threads, t: Thread, firing: bool)
    requires CanRun(s, t)
    ensures var i := s.Remaining(t).now;
            HeldBy(s.Proceed(t, firing), t) ==
            if i.TryAcquire? && i.lock !in s.holder then HeldBy(s, t).Set(i.lock, true) else HoldAfter(i, HeldBy(s, t))
  {
    OwnLocks(s, t, firing, MotionLock);
    OwnLocks(s, t, firing, InjectorLock);
    OwnLocks(s, t, firing, EventsLock);
    OwnLocks(s, t, firing, ClipboardLock);
  }

  lemma RunnerGoesOn(s: Threads, t: Thread, firing: bool)
    requires CanRun(s, t)
    ensures var i, later, r := s.Remaining(t).now, s.Remaining(t).later, s.Proceed(t, firing);
            && r.Remaining(t) == (if i.TryAcquire? && i.lock !in s.holder then Then(Release(i.lock), later)
                                  else if i.FireAll? && firing then s.Remaining(t)
                                  else later)
            && (t in r.placed <==> PlacedAfter(i, t in s.placed))
  {
  }

  lemma {:induction false} RunnerStaysDisciplined(s: Threads, t: Thread, firing: bool)
    requires ThreadDisciplined(s, t)
    ensures ThreadDisciplined(s.Proceed(t, firing), t)
  {
    if CanRun(s, t) {
      var i, rest := s.Remaining(t).now, s.Remaining(t).later;
      assert Permitted(t, i, rest, HeldBy(s, t), t in s.placed);
      assert Disciplined(t, rest, HoldAfter(i, HeldBy(s, t)), PlacedAfter(i, t in s.placed));
      RunnerHolds(s, t, firing);
      RunnerGoesOn(s, t, firing);
      if i.TryAcquire? && i.lock !in s.holder {
        Before(t, Release(i.lock), rest, FREE.Set(i.lock, true), false);
      }
      hide Threads.Proceed, Disciplined;
      assert ThreadDisciplined(s.Proceed(t, firing), t);
    }
  }

  lemma {:induction false} StepKeepsOrder(s: Threads, t: Thread, firing: bool)
    requires Orderly(s)
    ensures Orderly(s.Proceed(t, firing))
  {
    var r := s.Proceed(t, firing);
    assert ThreadDisciplined(s, t);
    RunnerStaysDisciplined(s, t, firing);
    RunnerKeepsItsPlace(s, t, firing);
    forall u | u != t
      ensures ThreadDisciplined(r, u) && HeldBy(r, u) == HeldBy(s, u) && (u in r.placed <==> u in s.placed)
    {
      OthersUntouched(s, t, firing, u);
      assert ThreadDisciplined(s, u);
    }
    forall u | u in r.placed ensures r.Owns(u, MotionLock) && r.Owns(u, InjectorLock) {
      if u != t { assert HeldBy(r, u) == HeldBy(s, u); }
    }
  }

  lemma {:induction false} RunnerKeepsItsPlace(s: Threads, t: Thread, firing: bool)
    requires ThreadDisciplined(s, t)
    requires t in s.placed ==> s.Owns(t, MotionLock) && s.Owns(t, InjectorLock)
    ensures var r := s.Proceed(t, firing); t in r.placed ==> r.Owns(t, MotionLock) && r.Owns(t, InjectorLock)
  {
    if s.Remaining(t).Then? {
      var i, rest := s.Remaining(t).now, s.Remaining(t).later;
      assert Permitted(t, i, rest, HeldBy(s, t), t in s.placed);
      if !(i.Acquire? && i.lock in s.holder) { RunnerHolds(s, t, firing); }
    }
  }

  lemma {:induction false} RunKeepsOrder(s: Client, moves: seq<Move>)
    requires Orderly(s.threads)
    ensures Orderly(DoAll(s, moves).threads)
    decreases |moves|
  {
    if moves == [] {
    } else {
      DoKeepsOrder(s, moves[0]);
      RunKeepsOrder(Do(s, moves[0]), moves[1..]);
    }
  }

  lemma {:induction false} DoKeepsOrder(s: Client, move: Move)
    requires Orderly(s.threads)
    ensures Orderly(Do(s, move).threads)
  {
    match move {
      case Start(job) => StartKeepsOrder(s, job);
      case Exec(t, os) => StepKeepsOrder(s.threads, t, s.pending != []);
    }
  }

  // ---------------------------------------------------------------------------
  // Nobody waits in a circle
  // ---------------------------------------------------------------------------

  predicate WaitsFor(s: Threads, t: Thread, u: Thread) {
    s.Remaining(t).Then? && s.Remaining(t).now.Acquire? && s.Owns(u, s.Remaining(t).now.lock)
  }

  /** Where in the order the lock is that a thread asks for next; past the end when it asks for none. */
  function Wanted(s: Threads, t: Thread): nat {
    if s.Remaining(t).Then? && s.Remaining(t).now.Acquire? then Rank(s.Remaining(t).now.lock) else 4
  }

  predicate WaitChain(s: Threads, path: seq<Thread>) {
    forall k :: 0 <= k < |path| - 1 ==> WaitsFor(s, path[k], path[k + 1])
  }

  /** Whoever is waited for waits, if at all, for a lock further up the order. */
  lemma {:induction false} WaitClimbs(s: Threads, t: Thread, u: Thread)
    requires Orderly(s) && WaitsFor(s, t, u)
    ensures s.Remaining(u).Then? && Wanted(s, t) < Wanted(s, u)
  {
    assert ThreadDisciplined(s, u);
    assert HeldBy(s, u).Has(s.Remaining(t).now.lock);
  }

  lemma {:induction false} ChainClimbs(s: Threads, path: seq<Thread>)
    requires Orderly(s) && WaitChain(s, path) && |path| >= 2
    ensures Wanted(s, path[0]) < Wanted(s, path[|path| - 1])
    decreases |path|
  {
    var n := |path|;
    assert WaitsFor(s, path[n - 2], path[n - 1]);
    WaitClimbs(s, path[n - 2], path[n - 1]);
    if n > 2 {
      assert WaitChain(s, path[..n - 1]);
      ChainClimbs(s, path[..n - 1]);
    }
  }

  /** In every state of every run, no chain of threads waiting for each other's locks closes. */
  lemma {:induction false} NoDeadlock(start: Client, moves: seq<Move>, path: seq<Thread>)
    requires Orderly(start.threads)
    requires WaitChain(DoAll(start, moves).threads, path) && |path| >= 2
    ensures path[0] != path[|path| - 1]
  {
    RunKeepsOrder(start, moves);
    var s := DoAll(start, moves).threads;
    ChainClimbs(s, path);
  }

  /** Every unfinished thread can run, or waits along a chain that ends at one that can. */
  lemma {:induction false} SomeoneRuns(s: Threads, t: Thread) returns (path: seq<Thread>)
    requires Orderly(s) && s.Remaining(t).Then?
    ensures |path| > 0 && path[0] == t && WaitChain(s, path) && CanRun(s, path[|path| - 1])
    decreases 4 - Wanted(s, t)
  {
    if CanRun(s, t) {
      path := [t];
    } else {
      var u := s.holder[s.Remaining(t).now.lock];
      WaitClimbs(s, t, u);
      var rest := SomeoneRuns(s, u);
      path := [t] + rest;
      forall k | 0 <= k < |path| - 1 ensures WaitsFor(s, path[k], path[k + 1]) {
        if k > 0 { assert WaitsFor(s, rest[k - 1], rest[k]); }
      }
    }
  }

  /** Steps left in a piece of code: an attempt may add a release, a push adds an event to fire. */
  function Steps(code: Code): nat {
    match code
    case Done => 0
    case Then(i, rest) => (if i.TryAcquire? || i.PushEvent? then 2 else 1) + Steps(rest)
  }

  function Load(s: Client): nat {
    Steps(s.threads.Remaining(MotionThread)) + Steps(s.threads.Remaining(UdpThread)) +
    Steps(s.threads.Remaining(TcpThread)) + Steps(s.threads.Remaining(SyncThread)) +
    Steps(s.threads.Remaining(Supervisor)) + |s.pending| + |s.queue|
  }

  lemma {:induction false} StepShortens(s: Threads, t: Thread, firing: bool)
    requires CanRun(s, t)
    ensures var i := s.Remaining(t).now;
            var gain := if i.FireAll? && firing then 0 else if i.PushEvent? then 2 else 1;
            Steps(s.Proceed(t, firing).Remaining(t)) + gain <= Steps(s.Remaining(t))
  {
  }

  lemma {:induction false} EffectOnEvents(s: Client, i: Instr, os: (int, int))
    ensures var r := Effect(s, i, os);
            |r.pending| + |r.queue| <=
            |s.pending| + |s.queue| + (if i.PushEvent? then 1 else if i.FireAll? && s.pending != [] then -1 else 0)
  {
  }

  /** However the threads are scheduled, the work of the jobs in hand runs out: no step is wasted. */
  lemma {:induction false} EveryStepCounts(s: Client, t: Thread, os: (int, int))
    requires Orderly(s.threads) && CanRun(s.threads, t)
    ensures Load(Execute(s, t, os)) < Load(s)
  {
    var firing := s.pending != [];
    assert ThreadDisciplined(s.threads, t);
    StepShortens(s.threads, t, firing);
    EffectOnEvents(s, s.threads.Remaining(t).now, os);
    forall u | u != t ensures s.threads.Proceed(t, firing).Remaining(u) == s.threads.Remaining(u) {
      OthersUntouched(s.threads, t, firing, u);
    }
  }

  // ---------------------------------------------------------------------------
  // Where events fire
  // ---------------------------------------------------------------------------

  /** A thread that has steered finds the cursor on the command, on absolute backends; so did every event. */
  predicate InPlace(s: Client) {
    s.absolute ==>
      && (s.threads.placed != {} ==> s.cursor == s.follower.Command())
      && (forall k :: 0 <= k < |s.fired| ==> s.fired[k].cursor == s.fired[k].command)
  }

  /** Does the instruction move the cursor or the command? */
  predicate Aims(i: Instr) {
    i.Steer? || i.PlaceFinally? || i.ApplyFrame? || i.EnterCommand? || i.PlaceEntry? || i.PlaceAbsolute? ||
    i.StopFollowing? || i.Rebound?
  }

  /** Whoever has steered keeps every other thread from moving the cursor or the command. */
  lemma {:induction false} OnlySteererMoves(s: Threads, t: Thread, u: Thread)
    requires Orderly(s) && s.Remaining(t).Then? && u in s.placed && u != t
    ensures !Aims(s.Remaining(t).now)
  {
    assert ThreadDisciplined(s, t);
    assert !s.Owns(t, MotionLock);
  }

  lemma StillPlaced(s: Threads, t: Thread, firing: bool, u: Thread)
    requires s.Remaining(t).Then? && u in s.Proceed(t, firing).placed
    ensures if u == t then PlacedAfter(s.Remaining(t).now, t in s.placed) else u in s.placed
  {
  }

  lemma EffectOnAim(s: Client, i: Instr, os: (int, int))
    ensures var r := Effect(s, i, os);
            && r.absolute == s.absolute
            && (i.Steer? && s.absolute ==> r.cursor == r.follower.Command())
            && (!Aims(i) ==> r.cursor == s.cursor && r.follower == s.follower)
  {
  }

  lemma EffectOnFired(s: Client, i: Instr, os: (int, int))
    requires forall k :: 0 <= k < |s.fired| ==> s.fired[k].cursor == s.fired[k].command
    requires i.FireAll? ==> s.cursor == s.follower.Command()
    ensures var fired := Effect(s, i, os).fired;
            forall k :: 0 <= k < |fired| ==> fired[k].cursor == fired[k].command
  {
  }

  lemma {:induction false} StepKeepsPlace(s: Client, t: Thread, os: (int, int))
    requires Orderly(s.threads) && InPlace(s)
    ensures InPlace(Execute(s, t, os))
  {
    var code := s.threads.Remaining(t);
    if code.Then? {
      var i := code.now;
      assert ThreadDisciplined(s.threads, t);
      assert Permitted(t, i, code.later, HeldBy(s.threads, t), t in s.threads.placed);
      hide Effect, Threads.Proceed, Disciplined, Honest;
      EffectOnAim(s, i, os);
      if s.absolute { EffectOnFired(s, i, os); }
      var firing := s.pending != [];
      if u :| u in s.threads.Proceed(t, firing).placed {
        StillPlaced(s.threads, t, firing, u);
        if u != t { OnlySteererMoves(s.threads, t, u); }
      }
      assert InPlace(Execute(s, t, os));
    }
  }

  // ---------------------------------------------------------------------------
  // Which events fire, and in what order
  // ---------------------------------------------------------------------------

  function InputEvents(msgs: seq<H.Message>): seq<Event>
    decreases |msgs|
  {
    if msgs == [] then []
    else
      var last := msgs[|msgs| - 1];
      InputEvents(msgs[..|msgs| - 1]) + (if last.Input? then [last.event] else [])
  }

  function HeardEvents(heard: seq<Heard>): seq<Event> {
    seq(|heard|, k requires 0 <= k < |heard| => heard[k].event)
  }

  function FiredEvents(fired: seq<Firing>): seq<Event> {
    seq(|fired|, k requires 0 <= k < |fired| => fired[k].event)
  }

  /** The events a thread is still to push. */
  function Coming(code: Code): seq<Event> {
    match code
    case Done => []
    case Then(i, rest) => (if i.PushEvent? then [i.event] else []) + Coming(rest)
  }

  /** Every accepted event is executed, about to be, or queued, once and in order. */
  predicate Balanced(s: Client) {
    FiredEvents(s.fired) + s.pending + s.queue == Accepted(s.heard)
  }

  /** The queue is bounded, and what was taken off it is fired before more is taken. */
  predicate NothingLost(s: Client) {
    && |s.queue| <= H.EVENT_QUEUE_CAP
    && Balanced(s)
    && (s.pending != [] ==> WillFire(s.threads.Remaining(MotionThread)))
  }

  /** Every input event off the wire reached the queue, but for one the TCP thread is about to push. */
  predicate AllHeard(s: Client) {
    HeardEvents(s.heard) + Coming(s.threads.Remaining(TcpThread)) == InputEvents(s.dispatched)
  }

  lemma {:induction false} PushBalances(s: Client, e: Event, os: (int, int))
    requires Balanced(s)
    ensures Balanced(Effect(s, PushEvent(e), os))
  {
    var r := Effect(s, PushEvent(e), os);
    assert r.heard[..|r.heard| - 1] == s.heard;
    assert FiredEvents(s.fired) + s.pending + (s.queue + [e]) == (FiredEvents(s.fired) + s.pending + s.queue) + [e];
    assert Accepted(s.heard) + [] == Accepted(s.heard);
  }

  lemma {:induction false} FiringBalances(s: Client, os: (int, int))
    requires Balanced(s)
    ensures Balanced(Effect(s, FireAll, os))
  {
    if s.pending != [] {
      assert FiredEvents(Effect(s, FireAll, os).fired) == FiredEvents(s.fired) + [s.pending[0]];
      assert FiredEvents(s.fired) + [s.pending[0]] + s.pending[1..] == FiredEvents(s.fired) + s.pending;
    }
  }

  /** An instruction moves events from one place to the next, and never drops one it accepted. */
  lemma {:induction false} EffectKeepsLedger(s: Client, i: Instr, os: (int, int))
    requires |s.queue| <= H.EVENT_QUEUE_CAP && Balanced(s)
    requires i.TakeEvents? ==> s.pending == []
    ensures |Effect(s, i, os).queue| <= H.EVENT_QUEUE_CAP && Balanced(Effect(s, i, os))
  {
    var r := Effect(s, i, os);
    if i.TakeEvents? {
      assert FiredEvents(s.fired) + s.queue + [] == FiredEvents(s.fired) + [] + s.queue;
    } else if i.FireAll? {
      FiringBalances(s, os);
    } else if i.PushEvent? {
      PushBalances(s, i.event, os);
    } else {
      assert r.fired == s.fired && r.pending == s.pending && r.queue == s.queue && r.heard == s.heard;
    }
  }

  /** Events taken off the queue are fired before any more are taken. */
  lemma {:induction false} PendingStaysDue(s: Client, t: Thread, os: (int, int))
    requires ThreadDisciplined(s.threads, t)
    requires s.pending != [] ==> WillFire(s.threads.Remaining(MotionThread))
    ensures var r := Execute(s, t, os); r.pending != [] ==> WillFire(r.threads.Remaining(MotionThread))
  {
    var code := s.threads.Remaining(t);
    if code.Then? {
      var i := code.now;
      assert Permitted(t, i, code.later, HeldBy(s.threads, t), t in s.threads.placed);
      hide Threads.Proceed, Effect, Disciplined, Honest;
      EffectOnPending(s, i, os);
      if t != MotionThread {
        OthersUntouched(s.threads, t, s.pending != [], MotionThread);
      } else if WillFire(code) {
        WillFireSurvives(s.threads, t, s.pending != []);
      } else if i.TakeEvents? {
        FiringAhead(s.threads, t, s.pending != []);
      }
    }
  }

  lemma EffectOnPending(s: Client, i: Instr, os: (int, int))
    ensures var r := Effect(s, i, os);
            && (!i.TakeEvents? && !i.FireAll? ==> r.pending == s.pending)
            && (i.FireAll? ==> r.pending == if s.pending == [] then [] else s.pending[1..])
  {
  }

  /** A thread that takes events has their firing ahead of it. */
  lemma FiringAhead(s: Threads, t: Thread, firing: bool)
    requires s.Remaining(t).Then? && s.Remaining(t).now.TakeEvents? && WillFire(s.Remaining(t).later)
    ensures WillFire(s.Proceed(t, firing).Remaining(t))
  {
  }

  lemma {:induction false} WillFireSurvives(s: Threads, t: Thread, firing: bool)
    requires WillFire(s.Remaining(t))
    ensures (s.Remaining(t).now.FireAll? && !firing) || WillFire(s.Proceed(t, firing).Remaining(t))
  {
  }

  lemma {:induction false} StepKeepsEvents(s: Client, t: Thread, os: (int, int))
    requires Orderly(s.threads) && NothingLost(s)
    ensures NothingLost(Execute(s, t, os))
  {
    assert ThreadDisciplined(s.threads, t);
    PendingStaysDue(s, t, os);
    var code := s.threads.Remaining(t);
    if code.Then? {
      assert Permitted(t, code.now, code.later, HeldBy(s.threads, t), t in s.threads.placed);
      EffectKeepsLedger(s, code.now, os);
    }
  }

  lemma {:induction false} EffectIsHeard(s: Client, i: Instr, os: (int, int))
    ensures var r := Effect(s, i, os);
            r.dispatched == s.dispatched &&
            HeardEvents(r.heard) == if i.PushEvent? then HeardEvents(s.heard) + [i.event] else HeardEvents(s.heard)
  {
  }

  lemma {:induction false} ComingShrinks(s: Threads, t: Thread, firing: bool)
    requires s.Remaining(t).Then?
    ensures var i := s.Remaining(t).now;
            Coming(s.Proceed(t, firing).Remaining(t)) ==
            if i.PushEvent? then Coming(s.Remaining(t).later) else Coming(s.Remaining(t))
    ensures var i := s.Remaining(t).now;
            i.PushEvent? ==> Coming(s.Remaining(t)) == [i.event] + Coming(s.Remaining(t).later)
  {
    var later := s.Remaining(t).later;
    assert [] + Coming(later) == Coming(later);
    assert forall l :: Coming(Then(Release(l), later)) == [] + Coming(later);
  }

  lemma {:induction false} OthersKeepHeard(s: Client, t: Thread, os: (int, int))
    requires ThreadDisciplined(s.threads, t) && AllHeard(s) && t != TcpThread
    ensures AllHeard(Execute(s, t, os))
  {
    var code := s.threads.Remaining(t);
    if code.Then? {
      assert Permitted(t, code.now, code.later, HeldBy(s.threads, t), t in s.threads.placed);
      assert Honest(s.threads, t) && !code.now.PushEvent?;
      hide Effect, Threads.Proceed, Permitted, Disciplined, HeardEvents, InputEvents, Honest, Coming;
      EffectIsHeard(s, code.now, os);
      OthersUntouched(s.threads, t, s.pending != [], TcpThread);
    }
  }

  lemma {:induction false} TcpKeepsHeard(s: Client, os: (int, int))
    requires AllHeard(s)
    ensures AllHeard(Execute(s, TcpThread, os))
  {
    var code := s.threads.Remaining(TcpThread);
    if code.Then? {
      hide Effect, Threads.Proceed, HeardEvents, InputEvents, Coming;
      EffectIsHeard(s, code.now, os);
      ComingShrinks(s.threads, TcpThread, s.pending != []);
      if code.now.PushEvent? { Regroup(HeardEvents(s.heard), code.now.event, Coming(code.later)); }
    }
  }

  lemma Regroup(before: seq<Event>, e: Event, after: seq<Event>)
    ensures before + [e] + after == before + ([e] + after)
  {
  }

  lemma {:induction false} StepKeepsHeard(s: Client, t: Thread, os: (int, int))
    requires ThreadDisciplined(s.threads, t) && AllHeard(s)
    ensures AllHeard(Execute(s, t, os))
  {
    hide *;
    if t == TcpThread {
      TcpKeepsHeard(s, os);
    } else {
      OthersKeepHeard(s, t, os);
    }
  }

  lemma {:induction false} DispatchBringsItsEvent(msg: H.Message)
    ensures Coming(Dispatch(msg)) == if msg.Input? then [msg.event] else []
  {
    match msg {
      case Enter(_, x, y) =>
        var report := Under(InjectorLock, Work, Done);
        var drop := Then(Release(InjectorLock), Then(Release(MotionLock), Then(SetActive(true), report)));
        assert Coming(report) == [];
        assert Coming(Then(Release(MotionLock), Then(SetActive(true), report))) == [];
        assert Coming(drop) == [];
        assert Coming(Then(PlaceEntry(x, y), drop)) == [];
        assert Coming(Then(Acquire(InjectorLock), Then(PlaceEntry(x, y), drop))) == [];
      case Leave(_) =>
        assert Coming(Then(Work, Then(Release(MotionLock), Then(Release(InjectorLock), Done)))) == [];
      case MouseMoveRel(dx, dy) =>
        assert Coming(Then(ApplyFrame(dx, dy), Then(Release(InjectorLock), Then(Release(MotionLock), Done)))) == [];
      case MouseMoveAbs(x, y) =>
        assert Coming(Then(PlaceAbsolute(x, y), Then(Release(InjectorLock), Then(Release(MotionLock), Done)))) == [];
      case Input(e) => assert Coming(Then(Release(EventsLock), Done)) == [];
      case Other(_) =>
    }
  }

  lemma {:induction false} OnlyDispatchPushes(job: Job)
    requires !job.DispatchNext? && Runner(job) == TcpThread
    ensures Coming(Sections(job, H.Other(0))) == []
  {
    if job.FinalPlacement? {
      assert Coming(Then(PlaceFinally, Then(Release(InjectorLock), Then(Release(MotionLock), Done)))) == [];
    }
  }

  /** A job the TCP thread takes up brings exactly the events of the message it took off the wire. */
  lemma {:induction false} LoadedHears(heard: seq<Heard>, dispatched: seq<H.Message>, job: Job, msg: H.Message)
    requires HeardEvents(heard) == InputEvents(dispatched) && Runner(job) == TcpThread
    requires !job.DispatchNext? ==> msg == H.Other(0)
    ensures HeardEvents(heard) + Coming(Sections(job, msg)) ==
            InputEvents(if job.DispatchNext? then dispatched + [msg] else dispatched)
  {
    if job.DispatchNext? {
      DispatchBringsItsEvent(msg);
      assert (dispatched + [msg])[..|dispatched|] == dispatched;
    } else {
      OnlyDispatchPushes(job);
      assert HeardEvents(heard) + [] == HeardEvents(heard);
    }
  }

  /** Does the TCP thread take up this job? */
  predicate TcpBegins(s: Client, job: Job) {
    Runner(job) == TcpThread && s.threads.Remaining(TcpThread) == Done && (job.DispatchNext? ==> s.wire != [])
  }

  lemma {:induction false} BeginOnTcp(s: Client, job: Job)
    ensures var r := Begin(s, job);
            && r.heard == s.heard
            && if TcpBegins(s, job)
               then var msg := if job.DispatchNext? then s.wire[0] else H.Other(0);
                    && r.threads.Remaining(TcpThread) == Sections(job, msg)
                    && r.dispatched == if job.DispatchNext? then s.dispatched + [msg] else s.dispatched
               else r.threads.Remaining(TcpThread) == s.threads.Remaining(TcpThread) && r.dispatched == s.dispatched
  {
  }

  lemma {:induction false} StartKeepsHeard(s: Client, job: Job)
    requires AllHeard(s)
    ensures AllHeard(Begin(s, job))
  {
    hide Begin, Sections, InputEvents, HeardEvents;
    BeginOnTcp(s, job);
    if TcpBegins(s, job) {
      assert HeardEvents(s.heard) + [] == HeardEvents(s.heard);
      LoadedHears(s.heard, s.dispatched, job, if job.DispatchNext? then s.wire[0] else H.Other(0));
    }
  }

  // ---------------------------------------------------------------------------
  // The event queue as it runs
  // ---------------------------------------------------------------------------

  /** `FireAll` step by step, until nothing taken is left. */
  function FireOut(s: Client, os: (int, int)): Client
    decreases |s.pending|
  {
    if s.pending == [] then s else FireOut(Effect(s, FireAll, os), os)
  }

  class EventQueue {
    var events: seq<Event>
    var injected: seq<Event>    // what the injector was told to execute

    ghost predicate Mirrors(s: Client)
      reads this
    {
      events == s.queue && injected == FiredEvents(s.fired) && s.pending == [] && |events| <= H.EVENT_QUEUE_CAP
    }

    /** Queueing an event is the model's push: a full queue drops the newest. */
    method EnqueueEvent(e: Event, ghost s: Client, ghost os: (int, int))
      requires Mirrors(s)
      modifies this`events
      ensures Mirrors(Effect(s, PushEvent(e), os))
    {
      if |events| < H.EVENT_QUEUE_CAP {
        events := events + [e];
      }
    }

    /** Draining is the model's taking and firing: the whole queue, in order. */
    method DrainEvents(ghost s: Client, ghost os: (int, int))
      requires Mirrors(s)
      modifies this
      ensures Mirrors(FireOut(Effect(s, TakeEvents, os), os))
      ensures events == [] && injected == old(injected) + old(events)
    {
      var pending := events;
      events := [];
      ghost var now := Effect(s, TakeEvents, os);
      for k := 0 to |pending|
        invariant events == [] == now.queue && now.pending == pending[k..]
        invariant injected == FiredEvents(now.fired) == old(injected) + pending[..k]
        invariant FireOut(now, os) == FireOut(Effect(s, TakeEvents, os), os)
      {
        assert pending[..k + 1] == pending[..k] + [pending[k]];
        ghost var before := now;
        now := Effect(now, FireAll, os);
        assert FiredEvents(now.fired) == FiredEvents(before.fired) + [pending[k]];
        injected := injected + [pending[k]];
      }
    }
  }

  // ---------------------------------------------------------------------------
  // Every run
  // ---------------------------------------------------------------------------

  predicate Sound(s: Client) {
    Orderly(s.threads) && InPlace(s) && NothingLost(s) && AllHeard(s)
  }

  /** Taking up a job changes nothing but what an idle thread is to run and, for a dispatch, the wire. */
  lemma {:induction false} BeginOnlyLoads(s: Client, job: Job)
    ensures var r := Begin(s, job);
            && r.absolute == s.absolute && r.cursor == s.cursor && r.follower == s.follower
            && r.queue == s.queue && r.pending == s.pending && r.heard == s.heard && r.fired == s.fired
            && r.threads.placed == s.threads.placed
            && (s.threads.Remaining(MotionThread) == Done ||
                r.threads.Remaining(MotionThread) == s.threads.Remaining(MotionThread))
            && r.dispatched + r.wire == s.dispatched + s.wire
  {
  }

  lemma {:induction false} StartKeepsEvents(s: Client, job: Job)
    requires InPlace(s) && NothingLost(s)
    ensures InPlace(Begin(s, job)) && NothingLost(Begin(s, job))
  {
    BeginOnlyLoads(s, job);
  }

  lemma {:induction false} StartKeepsSound(s: Client, job: Job)
    requires Sound(s)
    ensures Sound(Begin(s, job))
  {
    StartKeepsOrder(s, job);
    StartKeepsHeard(s, job);
    StartKeepsEvents(s, job);
  }

  lemma {:induction false} EffectKeepsWire(s: Client, i: Instr, os: (int, int))
    ensures var r := Effect(s, i, os);
            r.dispatched == s.dispatched && r.wire == s.wire && r.absolute == s.absolute
  {
  }

  lemma {:induction false} StepKeepsSound(s: Client, t: Thread, os: (int, int))
    requires Sound(s)
    ensures Sound(Execute(s, t, os))
    ensures var r := Execute(s, t, os);
            r.dispatched == s.dispatched && r.wire == s.wire && r.absolute == s.absolute
  {
    StepKeepsOrder(s.threads, t, s.pending != []);
    StepKeepsPlace(s, t, os);
    StepKeepsEvents(s, t, os);
    assert ThreadDisciplined(s.threads, t);
    StepKeepsHeard(s, t, os);
    if s.threads.Remaining(t).Then? { EffectKeepsWire(s, s.threads.Remaining(t).now, os); }
  }

  lemma {:induction false} DoKeepsSound(s: Client, move: Move)
    requires Sound(s)
    ensures Sound(Do(s, move))
    ensures Do(s, move).dispatched + Do(s, move).wire == s.dispatched + s.wire
    ensures Do(s, move).absolute == s.absolute
  {
    match move {
      case Start(job) =>
        StartKeepsSound(s, job);
        BeginOnlyLoads(s, job);
      case Exec(t, os) => StepKeepsSound(s, t, os);
    }
  }

  lemma {:induction false} RunKeepsSound(s: Client, moves: seq<Move>)
    requires Sound(s)
    ensures Sound(DoAll(s, moves))
    ensures DoAll(s, moves).dispatched + DoAll(s, moves).wire == s.dispatched + s.wire
    ensures DoAll(s, moves).absolute == s.absolute
    decreases |moves|
  {
    if moves == [] {
    } else {
      DoKeepsSound(s, moves[0]);
      RunKeepsSound(Do(s, moves[0]), moves[1..]);
    }
  }

  /**
   Injection order and place. In every interleaving: the input events of the messages taken off the
   wire reach the queue in wire order; those there was room for are executed, about to be executed,
   or queued, each once and in that order; at most 512 wait; and on an absolute backend each fired
   with the cursor on the command.
   */
  lemma {:induction false} EventsFireInOrderAndInPlace(
      absolute: bool, follower: Follower, cursor: (int, int), wire: seq<H.Message>, moves: seq<Move>)
    ensures var s := DoAll(Initial(absolute, follower, cursor, wire), moves);
            && s.dispatched + s.wire == wire
            && HeardEvents(s.heard) <= InputEvents(s.dispatched)
            && FiredEvents(s.fired) + s.pending + s.queue == Accepted(s.heard)
            && |s.queue| <= H.EVENT_QUEUE_CAP
            && (absolute ==> forall k :: 0 <= k < |s.fired| ==> s.fired[k].cursor == s.fired[k].command)
  {
    var start := Initial(absolute, follower, cursor, wire);
    forall t ensures ThreadDisciplined(start.threads, t) { }
    RunKeepsSound(start, moves);
  }

  lemma {:induction false} NoneRefusedAllAccepted(heard: seq<Heard>)
    requires forall k :: 0 <= k < |heard| ==> heard[k].accepted
    ensures Accepted(heard) == HeardEvents(heard)
    decreases |heard|
  {
    if heard != [] {
      NoneRefusedAllAccepted(heard[..|heard| - 1]);
      assert HeardEvents(heard) == HeardEvents(heard[..|heard| - 1]) + [heard[|heard| - 1].event];
    }
  }

  /** While the queue never fills up, the executed events are the wire's, from the first on. */
  lemma {:induction false} FiredIsAPrefixOfTheWire(
      absolute: bool, follower: Follower, cursor: (int, int), wire: seq<H.Message>, moves: seq<Move>)
    requires var s := DoAll(Initial(absolute, follower, cursor, wire), moves);
             forall k :: 0 <= k < |s.heard| ==> s.heard[k].accepted
    ensures var s := DoAll(Initial(absolute, follower, cursor, wire), moves);
            FiredEvents(s.fired) <= InputEvents(s.dispatched)
  {
    EventsFireInOrderAndInPlace(absolute, follower, cursor, wire, moves);
    NoneRefusedAllAccepted(DoAll(Initial(absolute, follower, cursor, wire), moves).heard);
  }
}
