/**
 Control hand-off: the server executes session actions, every client consumes its own ordered
 channel at its own speed, and at most one machine ends up being driven.
 */
module HandOff {
  import opened Basics
  import opened MotionFollower

  const OUT_QUEUE_CAP := 1024
  const EVENT_QUEUE_CAP := 512

  // ---------------------------------------------------------------------------
  // Messages and actions
  // ---------------------------------------------------------------------------

  /** A button, key or wheel event; what it says does not matter here. */
  type InjectEvent = nat

  datatype Message =
    | Enter(screenId: nat, x: int, y: int)
    | Leave(screenId: nat)
    | MouseMoveRel(dx: int, dy: int)
    | MouseMoveAbs(x: int, y: int)
    | Input(event: InjectEvent)
    | Other(content: nat)   // clipboard, layout, keepalive, errors, traffic not meant for clients

  datatype Action =
    | Nothing
    | Send(msg: Message)
    | SwitchTo(to: nat, x: int, y: int)
    | SwitchToLocal(x: int, y: int)

  datatype Outbound = Tcp(msg: Message) | Udp(msg: Message)

  function Route(msg: Message): Outbound {
    if msg.MouseMoveRel? then Udp(msg) else Tcp(msg)
  }

  datatype EngineCall =
    | GrabInput(on: bool)
    | IsolateInput(on: bool)
    | ShowCursor(visible: bool)
    | WarpLocal(x: int, y: int)

  // ---------------------------------------------------------------------------
  // The server side
  // ---------------------------------------------------------------------------

  /** Bounded, never blocking; a full queue drops, an unknown client is gone. */
  function Enqueue(queues: map<nat, seq<Outbound>>, id: nat, msg: Message): (r: map<nat, seq<Outbound>>)
    ensures r.Keys == queues.Keys && forall k <- queues :: k != id ==> r[k] == queues[k]
    ensures forall k <- queues :: queues[k] <= r[k] && |r[k]| <= Max(|queues[k]|, OUT_QUEUE_CAP)
    ensures id in queues ==> (r[id] == queues[id] <==> |queues[id]| >= OUT_QUEUE_CAP)
  {
    if id in queues && |queues[id]| < OUT_QUEUE_CAP then queues[id := queues[id] + [Route(msg)]] else queues
  }

  datatype Server = Server(
    active: Option<nat>,
    queues: map<nat, seq<Outbound>>,
    lastHeard: map<nat, nat>,
    engine: seq<EngineCall>,
    events: seq<bool>)
  {
    /** Tell the client that has the cursor, if any, that it no longer has. */
    function Release(): Server {
      if active.None? then this
      else this.(active := None, queues := Enqueue(queues, active.value, Leave(active.value)))
    }

    function Apply(action: Action, now: nat): Server {
      match action
      case Nothing => this
      case Send(msg) =>
        if active.Some? then this.(queues := Enqueue(queues, active.value, msg)) else this
      case SwitchTo(to, x, y) =>
        var s := Release();
        Server(Some(to), Enqueue(s.queues, to, Enter(to, x, y)), lastHeard[to := now],
               engine + [GrabInput(true), IsolateInput(true), ShowCursor(false)], events + [true])
      case SwitchToLocal(x, y) =>
        Release().(engine := engine + [IsolateInput(false), GrabInput(false), WarpLocal(x, y), ShowCursor(true)],
                   events := events + [false])
    }
  }

  /** The state `apply_action` works on, updated in place. */
  class ServerControl {
    var active: Option<nat>
    var queues: map<nat, seq<Outbound>>
    var lastHeard: map<nat, nat>
    var engine: seq<EngineCall>
    var events: seq<bool>

    ghost function State(): Server
      reads this
    {
      Server(active, queues, lastHeard, engine, events)
    }

    constructor (clients: set<nat>)
      ensures State() == InitialServer(clients)
    {
      active := None;
      queues := map id | id in clients :: [];
      lastHeard := map[];
      engine := [];
      events := [];
    }

    method EnqueueFor(id: nat, msg: Message)
      modifies this`queues
      ensures queues == Enqueue(old(queues), id, msg)
    {
      if id !in queues {
        return;
      }
      if |queues[id]| < OUT_QUEUE_CAP {
        queues := queues[id := queues[id] + [Route(msg)]];
      }
    }

    /** Take the cursor from whichever client has it. */
    method ReleaseActive()
      modifies this`active, this`queues
      ensures State() == old(State()).Release()
    {
      if active.Some? {
        var previous := active.value;
        active := None;
        EnqueueFor(previous, Leave(previous));
      }
    }

    method SwitchAway(to: nat, x: int, y: int, now: nat)
      modifies this
      ensures State() == old(State()).Apply(SwitchTo(to, x, y), now).(events := old(events))
    {
      ReleaseActive();
      active := Some(to);
      lastHeard := lastHeard[to := now];
      EnqueueFor(to, Enter(to, x, y));
      engine := engine + [GrabInput(true)];
      engine := engine + [IsolateInput(true)];
      engine := engine + [ShowCursor(false)];
      assert engine == old(engine) + [GrabInput(true), IsolateInput(true), ShowCursor(false)];
    }

    method SwitchHome(x: int, y: int)
      modifies this
      ensures State() == old(State()).Apply(SwitchToLocal(x, y), 0).(events := old(events))
    {
      ReleaseActive();
      engine := engine + [IsolateInput(false)];
      engine := engine + [GrabInput(false)];
      engine := engine + [WarpLocal(x, y)];
      engine := engine + [ShowCursor(true)];
      assert engine == old(engine) + [IsolateInput(false), GrabInput(false), WarpLocal(x, y), ShowCursor(true)];
    }

    /** Execute one session action; a transition is announced once the world has settled. */
    method ApplyAction(action: Action, now: nat)
      modifies this
      ensures State() == old(State()).Apply(action, now)
    {
      var control: Option<bool> := None;
      match action {
        case Nothing =>
        case Send(msg) =>
          if active.Some? {
            EnqueueFor(active.value, msg);
          }
        case SwitchTo(to, x, y) =>
          SwitchAway(to, x, y, now);
          control := Some(true);
        case SwitchToLocal(x, y) =>
          SwitchHome(x, y);
          control := Some(false);
      }
      if control.Some? {
        events := events + [control.value];
      }
    }
  }

  function InitialServer(clients: set<nat>): Server {
    Server(None, map id | id in clients :: [], map[], [], [])
  }

  // ---------------------------------------------------------------------------
  // The client side
  // ---------------------------------------------------------------------------

  /** Is the machine driven after it has dispatched `msg`? */
  function Driven(driven: bool, msg: Message): bool {
    match msg
    case Enter(_, _, _) => true
    case Leave(_) => false
    case _ => driven
  }

  /** What the control thread of a client mutates while it dispatches. */
  class ControlledMachine {
    const follower: PositionFollower
    const absolute: bool
    var active: bool
    var entered: bool            // the injector's controlled state
    var cursor: (int, int)
    var events: seq<InjectEvent>
    var injected: seq<(int, int)>

    /** Flag, follower and injector always tell the same story. */
    ghost predicate Valid()
      reads this, follower
    {
      && follower.Valid()
      && active == entered == follower.active
      && |events| <= EVENT_QUEUE_CAP
    }

    constructor (follower: PositionFollower, absolute: bool, cursor: (int, int))
      requires follower.Valid() && !follower.active
      ensures Valid() && !active && events == [] && this.follower == follower && this.absolute == absolute
    {
      this.follower, this.absolute := follower, absolute;
      active, entered := false, false;
      this.cursor := cursor;
      events, injected := [], [];
    }

    /** Apply one server message to the local machine. */
    method Dispatch(msg: Message)
      requires Valid()
      modifies this, follower
      ensures Valid()
      ensures active == Driven(old(active), msg)
      ensures match msg
              case Enter(_, x, y) =>
                follower.State() == old(follower.State()).Enter(x, y) && cursor == (x, y)
              case Leave(_) =>
                follower.State() == old(follower.State()).Leave() && cursor == old(cursor)
              case MouseMoveRel(dx, dy) =>
                follower.State() == (if absolute then old(follower.State()).Advance(dx, dy)
                                     else old(follower.State()).Push(dx, dy).0)
              case MouseMoveAbs(x, y) =>
                follower.State() == old(follower.State()).PlaceAt(x, y) && cursor == (x, y)
              case _ => follower.State() == old(follower.State()) && cursor == old(cursor)
      ensures events == (if msg.Input? && |old(events)| < EVENT_QUEUE_CAP
                         then old(events) + [msg.event] else old(events))
      ensures injected == (if msg.MouseMoveRel? && !absolute
                           then old(injected) + [old(follower.State()).Push(msg.dx, msg.dy).1] else old(injected))
    {
      match msg {
        case MouseMoveRel(dx, dy) =>
          if absolute {
            follower.Advance(dx, dy);
          } else {
            var ix, iy := follower.Push(dx, dy);
            injected := injected + [(ix, iy)];
          }
        case MouseMoveAbs(x, y) =>
          cursor := (x, y);
          follower.Reanchor(x, y);
        case Enter(_, x, y) =>
          follower.Enter(x, y);
          entered := true;
          cursor := (x, y);
          follower.Reanchor(cursor.0, cursor.1);
          active := true;
        case Leave(_) =>
          active := false;
          follower.Leave();
          entered := false;
        case Input(event) =>
          if |events| < EVENT_QUEUE_CAP {
            events := events + [event];
          }
        case Other(_) =>
      }
    }
  }

  // ---------------------------------------------------------------------------
  // Server, channels and clients together
  // ---------------------------------------------------------------------------

  /**
   The reliable messages on their way to each client, and whether each client is driven. `dispatched`
   and `datagrams` record history, each from the client's connection on: the reliable messages the
   client has dispatched and the motion its writer has handed to the network.
   */
  datatype System = System(
    server: Server,
    wires: map<nat, seq<Message>>,
    driven: map<nat, bool>,
    dispatched: map<nat, seq<Message>>,
    datagrams: map<nat, seq<Message>>)

  predicate Shaped(s: System) {
    s.server.queues.Keys == s.wires.Keys == s.driven.Keys == s.dispatched.Keys == s.datagrams.Keys
  }

  function InitialSystem(clients: set<nat>): System {
    var nothing := map id | id in clients :: [];
    System(InitialServer(clients), nothing, map id | id in clients :: false, nothing, nothing)
  }

  /**
   The server acts, a client's writer sends its next frame, a client dispatches one, or a client
   connects: for the first time, or again, its fresh connection replacing the old one's.
   */
  datatype Step =
    | Act(action: Action, now: nat)
    | Write(id: nat)
    | Receive(id: nat)
    | Connect(id: nat)

  function Do(s: System, step: Step): System
    requires Shaped(s)
  {
    match step
    case Act(action, now) => s.(server := s.server.Apply(action, now))
    case Write(id) =>
      if id !in s.wires || s.server.queues[id] == [] then s
      else
        var head, rest := s.server.queues[id][0], s.server.queues[id][1..];
        var server := s.server.(queues := s.server.queues[id := rest]);
        if head.Tcp? then s.(server := server, wires := s.wires[id := s.wires[id] + [head.msg]])
        else s.(server := server, datagrams := s.datagrams[id := s.datagrams[id] + [head.msg]])
    case Receive(id) =>
      if id !in s.wires || s.wires[id] == [] then s
      else
        var msg := s.wires[id][0];
        s.(wires := s.wires[id := s.wires[id][1..]],
           driven := s.driven[id := Driven(s.driven[id], msg)],
           dispatched := s.dispatched[id := s.dispatched[id] + [msg]])
    case Connect(id) =>
      System(s.server.(queues := s.server.queues[id := []]), s.wires[id := []], s.driven[id := false],
             s.dispatched[id := []], s.datagrams[id := []])
  }

  lemma DoKeepsShape(s: System, step: Step)
    requires Shaped(s)
    ensures Shaped(Do(s, step))
    ensures Do(s, step).driven.Keys == if step.Connect? then s.driven.Keys + {step.id} else s.driven.Keys
  {
  }

  function DoAll(s: System, steps: seq<Step>): (r: System)
    requires Shaped(s)
    ensures Shaped(r) && s.driven.Keys <= r.driven.Keys
    decreases |steps|
  {
    if steps == [] then s
    else
      DoKeepsShape(s, steps[0]);
      DoAll(Do(s, steps[0]), steps[1..])
  }

  /** The session forwards input; entering and leaving is the executor's own business. */
  predicate Forwards(action: Action) {
    action.Send? ==> !action.msg.Enter? && !action.msg.Leave?
  }

  /**
   Does one client's queue carry the control frames an action puts in it? A client that is left
   or entered needs one free slot. One that is left and entered again at once needs two, or
   none: then both frames are dropped, and it goes on being driven.
   */
  predicate Fits(server: Server, action: Action, id: nat) {
    id in server.queues ==>
      var used := |server.queues[id]|;
      match action
      case SwitchTo(to, _, _) =>
        if server.active == Some(id) && to == id then used != OUT_QUEUE_CAP - 1
        else if server.active == Some(id) || to == id then used < OUT_QUEUE_CAP
        else true
      case SwitchToLocal(_, _) => server.active == Some(id) ==> used < OUT_QUEUE_CAP
      case _ => true
  }

  /**
   Every action of the run forwards only input, this client's queue carries what it is sent of
   control, and it does not connect while the server has it driven.
   */
  predicate Acceptable(s: System, steps: seq<Step>, id: nat)
    requires Shaped(s)
    decreases |steps|
  {
    steps == [] ||
    (DoKeepsShape(s, steps[0]);
     && (steps[0].Act? ==> Forwards(steps[0].action) && Fits(s.server, steps[0].action, id))
     && (steps[0] == Connect(id) ==> s.server.active != Some(id))
     && Acceptable(Do(s, steps[0]), steps[1..], id))
  }

  // ---------------------------------------------------------------------------
  // Agreement
  // ---------------------------------------------------------------------------

  function Fold(driven: bool, msgs: seq<Message>): bool
    decreases |msgs|
  {
    if msgs == [] then driven else Fold(Driven(driven, msgs[0]), msgs[1..])
  }

  function Reliable(queue: seq<Outbound>): seq<Message> {
    if queue == [] then []
    else if queue[0].Tcp? then [queue[0].msg] + Reliable(queue[1..])
    else Reliable(queue[1..])
  }

  lemma {:induction false} FoldAppend(driven: bool, s: seq<Message>, t: seq<Message>)
    ensures Fold(driven, s + t) == Fold(Fold(driven, s), t)
    decreases |s|
  {
    if s == [] {
      assert s + t == t;
    } else {
      assert (s + t)[0] == s[0] && (s + t)[1..] == s[1..] + t;
      FoldAppend(Driven(driven, s[0]), s[1..], t);
    }
  }

  lemma {:induction false} ReliableAppend(queue: seq<Outbound>, item: Outbound)
    ensures Reliable(queue + [item]) == Reliable(queue) + (if item.Tcp? then [item.msg] else [])
    decreases |queue|
  {
    if queue != [] {
      assert (queue + [item])[0] == queue[0] && (queue + [item])[1..] == queue[1..] + [item];
      ReliableAppend(queue[1..], item);
    }
  }

  /** What a machine will be once it has dispatched everything on its way. */
  function WillBeDriven(driven: bool, wire: seq<Message>, queue: seq<Outbound>): bool {
    Fold(driven, wire + Reliable(queue))
  }

  function Prospect(s: System, id: nat): bool
    requires Shaped(s) && id in s.driven
  {
    WillBeDriven(s.driven[id], s.wires[id], s.server.queues[id])
  }

  predicate Agrees(s: System, id: nat)
    requires Shaped(s) && id in s.driven
  {
    Prospect(s, id) == (s.server.active == Some(id))
  }

  lemma ProspectAfterAppend(driven: bool, wire: seq<Message>, queue: seq<Outbound>, msg: Message)
    ensures WillBeDriven(driven, wire, queue + [Route(msg)]) == Driven(WillBeDriven(driven, wire, queue), msg)
  {
    ReliableAppend(queue, Route(msg));
    if msg.MouseMoveRel? {
      assert Reliable(queue) + [] == Reliable(queue);
    } else {
      assert wire + (Reliable(queue) + [msg]) == (wire + Reliable(queue)) + [msg];
      FoldAppend(driven, wire + Reliable(queue), [msg]);
    }
  }

  /** What one enqueue does to one client's prospect. */
  lemma ProspectAfterEnqueue(
      driven: bool, wire: seq<Message>, queues: map<nat, seq<Outbound>>, to: nat, msg: Message, id: nat)
    requires id in queues
    ensures WillBeDriven(driven, wire, Enqueue(queues, to, msg)[id])
         == if id == to && |queues[to]| < OUT_QUEUE_CAP then Driven(WillBeDriven(driven, wire, queues[id]), msg)
            else WillBeDriven(driven, wire, queues[id])
  {
    if id == to && |queues[to]| < OUT_QUEUE_CAP {
      ProspectAfterAppend(driven, wire, queues[id], msg);
    }
  }

  /**
   Room in the queue is what agreement hangs on: whatever the action and whichever the client, a
   client that agrees with the server still agrees afterwards exactly when its own queue carries
   the control frames meant for it.
   */
  lemma ActionAgreesIffItFits(s: System, action: Action, now: nat, id: nat)
    requires Shaped(s) && id in s.driven && Agrees(s, id) && Forwards(action)
    ensures Agrees(Do(s, Act(action, now)), id) <==> Fits(s.server, action, id)
  {
    var driven, wire, q := s.driven[id], s.wires[id], s.server.queues;
    var active := s.server.active;
    match action {
      case Nothing =>
      case Send(msg) =>
        if active.Some? {
          ProspectAfterEnqueue(driven, wire, q, active.value, msg, id);
        }
      case SwitchTo(to, x, y) =>
        var released := s.server.Release().queues;
        if active.Some? {
          ProspectAfterEnqueue(driven, wire, q, active.value, Leave(active.value), id);
        }
        ProspectAfterEnqueue(driven, wire, released, to, Enter(to, x, y), id);
      case SwitchToLocal(x, y) =>
        if active.Some? {
          ProspectAfterEnqueue(driven, wire, q, active.value, Leave(active.value), id);
        }
    }
  }

  /**
   A connection starts with nothing on its way and nothing driven, so it agrees with the server
   exactly when the server does not have that client driven. In particular a client that reconnects
   while it is driven never learns that it is: nobody sends its fresh connection an `Enter`.
   */
  lemma ConnectionAgreesIff(s: System, id: nat)
    requires Shaped(s)
    ensures Shaped(Do(s, Connect(id))) && id in Do(s, Connect(id)).driven
    ensures Agrees(Do(s, Connect(id)), id) <==> s.server.active != Some(id)
  {
    DoKeepsShape(s, Connect(id));
  }

  lemma ChannelKeepsProspect(s: System, step: Step, id: nat)
    requires Shaped(s) && id in s.driven && !step.Act? && step != Connect(id)
    ensures Shaped(Do(s, step)) && Prospect(Do(s, step), id) == Prospect(s, id)
  {
    hide WillBeDriven;
    if step.id == id {
      var driven, wire, queue := s.driven[id], s.wires[id], s.server.queues[id];
      if step.Write? && queue != [] { WritingMovesOne(driven, wire, queue); }
      if step.Receive? && wire != [] { DispatchingTakesOne(driven, wire, queue); }
    }
  }

  lemma WritingMovesOne(driven: bool, wire: seq<Message>, queue: seq<Outbound>)
    requires queue != []
    ensures var sent := if queue[0].Tcp? then wire + [queue[0].msg] else wire;
            WillBeDriven(driven, sent, queue[1..]) == WillBeDriven(driven, wire, queue)
  {
    if queue[0].Tcp? { assert wire + [queue[0].msg] + Reliable(queue[1..]) == wire + Reliable(queue); }
  }

  lemma DispatchingTakesOne(driven: bool, wire: seq<Message>, queue: seq<Outbound>)
    requires wire != []
    ensures WillBeDriven(Driven(driven, wire[0]), wire[1..], queue) == WillBeDriven(driven, wire, queue)
  {
    var all := wire + Reliable(queue);
    assert all[0] == wire[0] && all[1..] == wire[1..] + Reliable(queue);
  }

  /**
   Hand-off agreement: whatever the session decides, whichever clients connect when, however fast
   each consumes its channel and however full the other clients' queues are, what a client will be
   after dispatching everything on its way is what the server believes, at every moment of the run.
   */
  lemma {:induction false} RunKeepsAgreement(s: System, steps: seq<Step>, id: nat)
    requires Shaped(s) && (id in s.driven ==> Agrees(s, id))
    requires Acceptable(s, steps, id)
    ensures id in DoAll(s, steps).driven ==> Agrees(DoAll(s, steps), id)
    decreases |steps|
  {
    if steps != [] {
      var step := steps[0];
      DoKeepsShape(s, step);
      if step == Connect(id) {
        ConnectionAgreesIff(s, id);
      } else if id in s.driven {
        if step.Act? {
          ActionAgreesIffItFits(s, step.action, step.now, id);
        } else {
          ChannelKeepsProspect(s, step, id);
          ActiveStays(s, step);
        }
      }
      RunKeepsAgreement(Do(s, step), steps[1..], id);
    }
  }

  lemma ActiveStays(s: System, step: Step)
    requires Shaped(s) && !step.Act?
    ensures Do(s, step).server.active == s.server.active
  {
  }

  /** The last word among messages on who has control, if any of them says. */
  function LastWord(msgs: seq<Message>): Option<bool>
    decreases |msgs|
  {
    if msgs == [] then None
    else if LastWord(msgs[1..]).Some? then LastWord(msgs[1..])
    else if msgs[0].Enter? then Some(true)
    else if msgs[0].Leave? then Some(false)
    else None
  }

  lemma {:induction false} TheLastWordCounts(driven: bool, msgs: seq<Message>)
    ensures Fold(driven, msgs) == if LastWord(msgs).Some? then LastWord(msgs).value else driven
    decreases |msgs|
  {
    if msgs != [] {
      TheLastWordCounts(Driven(driven, msgs[0]), msgs[1..]);
    }
  }

  /** Nothing on its way to the client says, in the end, anything about control but what it already is. */
  predicate CaughtUp(s: System, id: nat)
    requires Shaped(s) && id in s.driven
  {
    LastWord(s.wires[id] + Reliable(s.server.queues[id])) in {None, Some(s.driven[id])}
  }

  /** A client that agrees is driven exactly when the server says so if and only if it has caught up. */
  lemma DrivenAsBelievedIff(s: System, id: nat)
    requires Shaped(s) && id in s.driven && Agrees(s, id)
    ensures s.driven[id] == (s.server.active == Some(id)) <==> CaughtUp(s, id)
  {
    TheLastWordCounts(s.driven[id], s.wires[id] + Reliable(s.server.queues[id]));
  }

  /**
   Input, clipboard and keepalives still on their way do not matter: with no control frame pending
   a client has caught up.
   */
  lemma NoWordIsCaughtUp(s: System, id: nat)
    requires Shaped(s) && id in s.driven
    requires forall m <- s.wires[id] + Reliable(s.server.queues[id]) :: !m.Enter? && !m.Leave?
    ensures CaughtUp(s, id)
  {
    NoWord(s.wires[id] + Reliable(s.server.queues[id]));
  }

  lemma {:induction false} NoWord(msgs: seq<Message>)
    requires forall m <- msgs :: !m.Enter? && !m.Leave?
    ensures LastWord(msgs) == None
    decreases |msgs|
  {
    if msgs != [] {
      assert msgs[0] in msgs && forall m <- msgs[1..] :: m in msgs;
      NoWord(msgs[1..]);
    }
  }

  /**
   On every run, a client is driven exactly when the server says so if and only if it has caught up;
   of the clients that have, at most one is driven.
   */
  lemma AtMostOneDriven(clients: set<nat>, steps: seq<Step>, i: nat, j: nat)
    requires Acceptable(InitialSystem(clients), steps, i) && Acceptable(InitialSystem(clients), steps, j)
    requires i in DoAll(InitialSystem(clients), steps).driven && j in DoAll(InitialSystem(clients), steps).driven
    ensures var s := DoAll(InitialSystem(clients), steps);
            && (s.driven[i] == (s.server.active == Some(i)) <==> CaughtUp(s, i))
            && (CaughtUp(s, i) && CaughtUp(s, j) && s.driven[i] && s.driven[j] ==> i == j)
  {
    RunKeepsAgreement(InitialSystem(clients), steps, i);
    RunKeepsAgreement(InitialSystem(clients), steps, j);
    DrivenAsBelievedIff(DoAll(InitialSystem(clients), steps), i);
    DrivenAsBelievedIff(DoAll(InitialSystem(clients), steps), j);
  }

  /** A crossing to `to` that its channel carries through at once. */
  function CrossOver(s: System, to: nat): (r: System)
    requires Shaped(s)
    ensures Shaped(r) && r.driven.Keys == s.driven.Keys
  {
    DoKeepsShape(s, Act(SwitchTo(to, 0, 0), 0));
    var s1 := Do(s, Act(SwitchTo(to, 0, 0), 0));
    DoKeepsShape(s1, Write(to));
    var s2 := Do(s1, Write(to));
    DoKeepsShape(s2, Receive(to));
    Do(s2, Receive(to))
  }

  lemma EntryIsQueued(s: System, to: nat)
    requires Shaped(s) && to in s.driven && s.server.queues[to] == [] && s.server.active != Some(to)
    ensures var r := Do(s, Act(SwitchTo(to, 0, 0), 0));
            && Shaped(r) && r.wires == s.wires && r.driven == s.driven
            && r.server.queues[to] == [Tcp(Enter(to, 0, 0))]
            && forall id <- s.driven :: id != to && s.server.active != Some(id) ==>
                 r.server.queues[id] == s.server.queues[id]
  {
  }

  lemma OneMessageThrough(s: System, to: nat, msg: Message)
    requires Shaped(s) && to in s.driven && s.wires[to] == [] && s.server.queues[to] == [Tcp(msg)]
    ensures Shaped(Do(s, Write(to)))
    ensures var r := Do(Do(s, Write(to)), Receive(to));
            && r.wires == s.wires && r.driven == s.driven[to := Driven(s.driven[to], msg)]
            && r.server.queues == s.server.queues[to := []]
  {
    var w := Do(s, Write(to));
    assert [] + [msg] == [msg];
    assert w.wires == s.wires[to := [msg]] && w.driven == s.driven;
  }

  lemma CrossOverDrives(s: System, to: nat)
    requires Shaped(s) && to in s.driven
    requires s.wires[to] == [] && s.server.queues[to] == [] && s.server.active != Some(to)
    ensures var r := CrossOver(s, to);
            && r.driven == s.driven[to := true]
            && r.wires == s.wires
            && forall id <- s.driven :: s.server.active != Some(id) ==> r.server.queues[id] == s.server.queues[id]
  {
    EntryIsQueued(s, to);
    var entered := Do(s, Act(SwitchTo(to, 0, 0), 0));
    OneMessageThrough(entered, to, Enter(to, 0, 0));
    hide Do;
  }

  /**
   Catching up matters: until a slow client has dispatched its `Leave`, two machines can be driven
   at once.
   */
  lemma TwoDrivenWhileDraining()
    ensures var s := CrossOver(CrossOver(InitialSystem({1, 2}), 1), 2);
            s.driven[1] && s.driven[2]
  {
    var start := InitialSystem({1, 2});
    CrossOverDrives(start, 1);
    CrossOverDrives(CrossOver(start, 1), 2);
  }

  // ---------------------------------------------------------------------------
  // What reaches a client
  // ---------------------------------------------------------------------------

  /** Who has the cursor after an action. */
  function NextActive(active: Option<nat>, action: Action): Option<nat> {
    match action
    case SwitchTo(to, _, _) => Some(to)
    case SwitchToLocal(_, _) => None
    case _ => active
  }

  /** What an action has to tell client `id`, in order: input while it is active, leaving it, entering it. */
  function Meant(active: Option<nat>, action: Action, id: nat): seq<Message> {
    var leave := if active == Some(id) then [Leave(id)] else [];
    match action
    case Nothing => []
    case Send(msg) => if active == Some(id) then [msg] else []
    case SwitchTo(to, x, y) => leave + (if to == id then [Enter(id, x, y)] else [])
    case SwitchToLocal(_, _) => leave
  }

  /**
   One client as the steps alone tell it: who is active, whether it is connected, how many of its
   messages wait in its queue, and which were accepted since it connected.
   */
  datatype View = View(active: Option<nat>, here: bool, waiting: nat, accepted: seq<Message>)

  /** A full queue refuses the newest. */
  function Watch(v: View, step: Step, id: nat): View {
    match step
    case Act(action, _) =>
      var meant := Meant(v.active, action, id);
      var room := if v.here then Max(OUT_QUEUE_CAP - v.waiting, 0) else 0;
      var taken := Min(|meant|, room);
      View(NextActive(v.active, action), v.here, v.waiting + taken, v.accepted + meant[..taken])
    case Write(to) => if to == id then v.(waiting := Max(v.waiting - 1, 0)) else v
    case Receive(_) => v
    case Connect(to) => if to == id then View(v.active, true, 0, []) else v
  }

  function WatchAll(v: View, steps: seq<Step>, id: nat): View
    decreases |steps|
  {
    if steps == [] then v else WatchAll(Watch(v, steps[0], id), steps[1..], id)
  }

  /** Relative motion travels on its own, beside the reliable messages. */
  function Messages(accepted: seq<Message>, motion: bool): seq<Message> {
    if accepted == [] then []
    else (if accepted[0].MouseMoveRel? == motion then [accepted[0]] else []) + Messages(accepted[1..], motion)
  }

  function Motion(queue: seq<Outbound>): seq<Message> {
    if queue == [] then []
    else (if queue[0].Udp? then [queue[0].msg] else []) + Motion(queue[1..])
  }

  /** Everything accepted is dispatched, on the wire or queued, once and in order; so is motion. */
  predicate Balanced(
      dispatched: seq<Message>, wire: seq<Message>, queue: seq<Outbound>, datagrams: seq<Message>,
      accepted: seq<Message>)
  {
    && dispatched + wire + Reliable(queue) == Messages(accepted, false)
    && datagrams + Motion(queue) == Messages(accepted, true)
  }

  predicate Delivers(v: View, s: System, id: nat)
    requires Shaped(s)
  {
    && v.active == s.server.active && (v.here <==> id in s.driven)
    && (v.here ==>
          && |s.server.queues[id]| == v.waiting
          && Balanced(s.dispatched[id], s.wires[id], s.server.queues[id], s.datagrams[id], v.accepted))
  }

  lemma {:induction false} MessagesAppend(a: seq<Message>, msg: Message, motion: bool)
    ensures Messages(a + [msg], motion) ==
            Messages(a, motion) + (if msg.MouseMoveRel? == motion then [msg] else [])
    decreases |a|
  {
    if a == [] {
      assert [] + [msg] == [msg];
    } else {
      assert (a + [msg])[0] == a[0] && (a + [msg])[1..] == a[1..] + [msg];
      MessagesAppend(a[1..], msg, motion);
    }
  }

  lemma {:induction false} MotionAppend(queue: seq<Outbound>, item: Outbound)
    ensures Motion(queue + [item]) == Motion(queue) + (if item.Udp? then [item.msg] else [])
    decreases |queue|
  {
    if queue == [] {
      assert [] + [item] == [item];
    } else {
      assert (queue + [item])[0] == queue[0] && (queue + [item])[1..] == queue[1..] + [item];
      MotionAppend(queue[1..], item);
    }
  }

  lemma AcceptOne(
      dispatched: seq<Message>, wire: seq<Message>, queue: seq<Outbound>, datagrams: seq<Message>,
      accepted: seq<Message>, msg: Message)
    requires Balanced(dispatched, wire, queue, datagrams, accepted)
    ensures Balanced(dispatched, wire, queue + [Route(msg)], datagrams, accepted + [msg])
  {
    ReliableAppend(queue, Route(msg));
    MotionAppend(queue, Route(msg));
    MessagesAppend(accepted, msg, false);
    MessagesAppend(accepted, msg, true);
    hide Reliable, Motion, Messages;
    if msg.MouseMoveRel? {
      assert Reliable(queue) + [] == Reliable(queue) && Messages(accepted, false) + [] == Messages(accepted, false);
      assert datagrams + (Motion(queue) + [msg]) == (datagrams + Motion(queue)) + [msg];
    } else {
      assert Motion(queue) + [] == Motion(queue) && Messages(accepted, true) + [] == Messages(accepted, true);
      assert dispatched + wire + (Reliable(queue) + [msg]) == (dispatched + wire + Reliable(queue)) + [msg];
    }
  }

  function Routed(msgs: seq<Message>): seq<Outbound> {
    seq(|msgs|, k requires 0 <= k < |msgs| => Route(msgs[k]))
  }

  lemma {:induction false} AcceptAll(
      dispatched: seq<Message>, wire: seq<Message>, queue: seq<Outbound>, datagrams: seq<Message>,
      accepted: seq<Message>, msgs: seq<Message>)
    requires Balanced(dispatched, wire, queue, datagrams, accepted)
    ensures Balanced(dispatched, wire, queue + Routed(msgs), datagrams, accepted + msgs)
    decreases |msgs|
  {
    if msgs == [] {
      assert queue + Routed(msgs) == queue && accepted + msgs == accepted;
    } else {
      var msg, rest := msgs[0], msgs[1..];
      AcceptOne(dispatched, wire, queue, datagrams, accepted, msg);
      AcceptAll(dispatched, wire, queue + [Route(msg)], datagrams, accepted + [msg], rest);
      assert queue + [Route(msg)] + Routed(rest) == queue + Routed(msgs);
      assert accepted + [msg] + rest == accepted + msgs;
    }
  }

  /** What an action leaves in one client's queue. */
  lemma ActionFillsQueue(server: Server, action: Action, now: nat, id: nat)
    requires id in server.queues
    ensures var meant, q := Meant(server.active, action, id), server.queues[id];
            var r := server.Apply(action, now);
            && r.queues.Keys == server.queues.Keys && r.active == NextActive(server.active, action)
            && r.queues[id] == q + Routed(meant[..Min(|meant|, Max(OUT_QUEUE_CAP - |q|, 0))])
  {
    var q := server.queues[id];
    var meant := Meant(server.active, action, id);
    assert q + Routed([]) == q;
    if |meant| == 1 {
      assert Routed(meant) == [Route(meant[0])] && meant[..1] == meant;
    } else if |meant| == 2 {
      assert Routed(meant) == [Route(meant[0]), Route(meant[1])] && meant[..2] == meant;
      assert Routed(meant[..1]) == [Route(meant[0])];
      assert q + [Route(meant[0])] + [Route(meant[1])] == q + Routed(meant);
    }
    hide Route, Routed;
  }

  lemma ActionDelivers(v: View, s: System, action: Action, now: nat, id: nat)
    requires Shaped(s) && Delivers(v, s, id)
    ensures var r := Do(s, Act(action, now)); Shaped(r) && Delivers(Watch(v, Act(action, now), id), r, id)
  {
    DoKeepsShape(s, Act(action, now));
    if id in s.driven {
      ActionFillsQueue(s.server, action, now, id);
      hide Server.Apply, Meant, NextActive, Balanced;
      var q, meant := s.server.queues[id], Meant(v.active, action, id);
      AcceptAll(s.dispatched[id], s.wires[id], q, s.datagrams[id], v.accepted,
                meant[..Min(|meant|, Max(OUT_QUEUE_CAP - |q|, 0))]);
    }
  }

  lemma WriteDelivers(v: View, s: System, id: nat)
    requires Shaped(s) && Delivers(v, s, id) && id in s.driven
    ensures Shaped(Do(s, Write(id))) && Delivers(Watch(v, Write(id), id), Do(s, Write(id)), id)
  {
    var q := s.server.queues[id];
    if q != [] {
      var msg, rest := q[0].msg, q[1..];
      assert s.dispatched[id] + (s.wires[id] + [msg]) + Reliable(rest)
          == s.dispatched[id] + s.wires[id] + ([msg] + Reliable(rest));
      assert s.datagrams[id] + [msg] + Motion(rest) == s.datagrams[id] + ([msg] + Motion(rest));
      assert [] + Motion(rest) == Motion(rest);
    }
  }

  lemma ReceiveDelivers(v: View, s: System, id: nat)
    requires Shaped(s) && Delivers(v, s, id) && id in s.driven
    ensures Shaped(Do(s, Receive(id))) && Delivers(Watch(v, Receive(id), id), Do(s, Receive(id)), id)
  {
    hide Reliable, Motion, Messages;
    var done, wire := s.dispatched[id], s.wires[id];
    if wire != [] { assert done + [wire[0]] + wire[1..] == done + wire; }
  }

  lemma ConnectDelivers(v: View, s: System, id: nat)
    requires Shaped(s) && Delivers(v, s, id)
    ensures Shaped(Do(s, Connect(id))) && Delivers(Watch(v, Connect(id), id), Do(s, Connect(id)), id)
  {
  }

  lemma OthersDoNotMatter(v: View, s: System, step: Step, id: nat)
    requires Shaped(s) && Delivers(v, s, id) && !step.Act? && (step.id == id ==> id !in s.driven && !step.Connect?)
    ensures Shaped(Do(s, step)) && Delivers(Watch(v, step, id), Do(s, step), id)
  {
    hide Balanced;
  }

  lemma StepDelivers(v: View, s: System, step: Step, id: nat)
    requires Shaped(s) && Delivers(v, s, id)
    ensures Shaped(Do(s, step)) && Delivers(Watch(v, step, id), Do(s, step), id)
  {
    hide *;
    if step.Act? {
      ActionDelivers(v, s, step.action, step.now, id);
    } else if step == Connect(id) {
      ConnectDelivers(v, s, id);
    } else if step == Write(id) && id in s.driven {
      WriteDelivers(v, s, id);
    } else if step == Receive(id) && id in s.driven {
      ReceiveDelivers(v, s, id);
    } else {
      OthersDoNotMatter(v, s, step, id);
    }
  }

  lemma {:induction false} RunDelivers(v: View, s: System, steps: seq<Step>, id: nat)
    requires Shaped(s) && Delivers(v, s, id)
    ensures Delivers(WatchAll(v, steps, id), DoAll(s, steps), id)
    decreases |steps|
  {
    if steps != [] {
      StepDelivers(v, s, steps[0], id);
      RunDelivers(Watch(v, steps[0], id), Do(s, steps[0]), steps[1..], id);
    }
  }

  /**
   The delivery ledger. On every run, what a client has dispatched since it connected, then what is on
   its wire, then the reliable messages in its queue, is exactly what its queue accepted of what was
   meant for it: the input of the session while it was active, and its own entries, with their entry
   points, and leaves. Relative motion keeps the same ledger on its own channel. `WatchAll` reads all
   that off the steps.
   */
  lemma InputReachesItsClient(clients: set<nat>, steps: seq<Step>, id: nat)
    requires id in DoAll(InitialSystem(clients), steps).driven
    ensures var s := DoAll(InitialSystem(clients), steps);
            var accepted := WatchAll(View(None, id in clients, 0, []), steps, id).accepted;
            && s.dispatched[id] + s.wires[id] + Reliable(s.server.queues[id]) == Messages(accepted, false)
            && s.datagrams[id] + Motion(s.server.queues[id]) == Messages(accepted, true)
  {
    RunDelivers(View(None, id in clients, 0, []), InitialSystem(clients), steps, id);
  }

  /** Messages of one action that find room are accepted, in order; nothing is meant for anyone else. */
  lemma RoomyQueueTakesAll(v: View, action: Action, now: nat, id: nat)
    requires v.here && v.waiting + 2 <= OUT_QUEUE_CAP
    ensures Watch(v, Act(action, now), id).accepted == v.accepted + Meant(v.active, action, id)
  {
  }

  // ---------------------------------------------------------------------------
  // When a client was last heard, and what the user is told
  // ---------------------------------------------------------------------------

  function Lookup(m: map<nat, nat>, id: nat): Option<nat> {
    if id in m then Some(m[id]) else None
  }

  /** When a step sends the cursor to the client, if it does. */
  function Stamp(before: Option<nat>, step: Step, id: nat): Option<nat> {
    if step.Act? && step.action.SwitchTo? && step.action.to == id then Some(step.now) else before
  }

  function LastEntry(before: Option<nat>, steps: seq<Step>, id: nat): Option<nat>
    decreases |steps|
  {
    if steps == [] then before else LastEntry(Stamp(before, steps[0], id), steps[1..], id)
  }

  /** What a step announces: control went away, or came home. */
  function Announcement(step: Step): seq<bool> {
    if step.Act? && step.action.SwitchTo? then [true]
    else if step.Act? && step.action.SwitchToLocal? then [false]
    else []
  }

  function Announced(steps: seq<Step>): seq<bool> {
    if steps == [] then [] else Announcement(steps[0]) + Announced(steps[1..])
  }

  /** Where a step brings the local cursor back, if it does. */
  function Return(step: Step): seq<(int, int)> {
    if step.Act? && step.action.SwitchToLocal? then [(step.action.x, step.action.y)] else []
  }

  function Returns(steps: seq<Step>): seq<(int, int)> {
    if steps == [] then [] else Return(steps[0]) + Returns(steps[1..])
  }

  function Warps(calls: seq<EngineCall>): seq<(int, int)>
    decreases |calls|
  {
    if calls == [] then []
    else
      var last := calls[|calls| - 1];
      Warps(calls[..|calls| - 1]) + (if last.WarpLocal? then [(last.x, last.y)] else [])
  }

  lemma WarpsAppend(calls: seq<EngineCall>, call: EngineCall)
    ensures Warps(calls + [call]) == Warps(calls) + (if call.WarpLocal? then [(call.x, call.y)] else [])
  {
    assert (calls + [call])[..|calls|] == calls;
  }

  lemma WarpsAway(e: seq<EngineCall>)
    ensures Warps(e + [GrabInput(true), IsolateInput(true), ShowCursor(false)]) == Warps(e)
  {
    var e1 := e + [GrabInput(true)];
    var e2 := e1 + [IsolateInput(true)];
    WarpsAppend(e, GrabInput(true));
    WarpsAppend(e1, IsolateInput(true));
    WarpsAppend(e2, ShowCursor(false));
    assert e2 + [ShowCursor(false)] == e + [GrabInput(true), IsolateInput(true), ShowCursor(false)];
  }

  lemma WarpsHome(e: seq<EngineCall>, x: int, y: int)
    ensures Warps(e + [IsolateInput(false), GrabInput(false), WarpLocal(x, y), ShowCursor(true)]) == Warps(e) + [(x, y)]
  {
    var e1 := e + [IsolateInput(false)];
    var e2 := e1 + [GrabInput(false)];
    var e3 := e2 + [WarpLocal(x, y)];
    WarpsAppend(e, IsolateInput(false));
    WarpsAppend(e1, GrabInput(false));
    WarpsAppend(e2, WarpLocal(x, y));
    WarpsAppend(e3, ShowCursor(true));
    assert e3 + [ShowCursor(true)] == e + [IsolateInput(false), GrabInput(false), WarpLocal(x, y), ShowCursor(true)];
  }

  lemma StepKeepsRecords(s: System, step: Step, id: nat)
    requires Shaped(s)
    ensures var r := Do(s, step).server;
            && Lookup(r.lastHeard, id) == Stamp(Lookup(s.server.lastHeard, id), step, id)
            && r.events == s.server.events + Announcement(step)
            && Warps(r.engine) == Warps(s.server.engine) + Return(step)
  {
    hide Warps;
    if step.Act? && step.action.SwitchTo? {
      WarpsAway(s.server.engine);
    } else if step.Act? && step.action.SwitchToLocal? {
      WarpsHome(s.server.engine, step.action.x, step.action.y);
    }
  }

  /**
   On every run: a client's liveness stamp is the moment the cursor was last sent to it, the user is
   told of exactly the transitions, in order, and the local cursor is warped exactly to where each
   return says.
   */
  lemma {:induction false} RunKeepsRecords(s: System, steps: seq<Step>, id: nat)
    requires Shaped(s)
    ensures var r := DoAll(s, steps).server;
            && Lookup(r.lastHeard, id) == LastEntry(Lookup(s.server.lastHeard, id), steps, id)
            && r.events == s.server.events + Announced(steps)
            && Warps(r.engine) == Warps(s.server.engine) + Returns(steps)
    decreases |steps|
  {
    hide Warps, Do, Stamp, Announcement, Return;
    if steps == [] {
      assert s.server.events + [] == s.server.events && Warps(s.server.engine) + [] == Warps(s.server.engine);
    } else {
      DoKeepsShape(s, steps[0]);
      StepKeepsRecords(s, steps[0], id);
      RunKeepsRecords(Do(s, steps[0]), steps[1..], id);
    }
  }

  // ---------------------------------------------------------------------------
  // The server's own machine
  // ---------------------------------------------------------------------------

  datatype LocalInput = LocalInput(grabbed: bool, isolated: bool, visible: bool)

  function AfterCall(l: LocalInput, call: EngineCall): LocalInput {
    match call
    case GrabInput(on) => l.(grabbed := on)
    case IsolateInput(on) => l.(isolated := on)
    case ShowCursor(visible) => l.(visible := visible)
    case WarpLocal(_, _) => l
  }

  function AfterCalls(calls: seq<EngineCall>): LocalInput {
    if calls == [] then LocalInput(false, false, true)
    else AfterCall(AfterCalls(calls[..|calls| - 1]), calls[|calls| - 1])
  }

  /** Every warp reaches a desktop that owns its input again. */
  predicate WarpsAtHome(calls: seq<EngineCall>) {
    forall k | 0 <= k < |calls| && calls[k].WarpLocal? ::
      !AfterCalls(calls[..k]).grabbed && !AfterCalls(calls[..k]).isolated
  }

  /** Input is grabbed and isolated, and the cursor hidden, all together and exactly while away. */
  predicate EngineMatches(server: Server) {
    var away := server.active.Some?;
    && AfterCalls(server.engine) == LocalInput(away, away, !away)
    && WarpsAtHome(server.engine)
    && (if server.events == [] then !away else server.events[|server.events| - 1] == away)
  }

  lemma AfterOneMore(calls: seq<EngineCall>, call: EngineCall)
    ensures AfterCalls(calls + [call]) == AfterCall(AfterCalls(calls), call)
    ensures WarpsAtHome(calls) && (call.WarpLocal? ==> !AfterCalls(calls).grabbed && !AfterCalls(calls).isolated)
            ==> WarpsAtHome(calls + [call])
  {
    var all := calls + [call];
    assert all[..|all| - 1] == calls;
    assert forall k | 0 <= k < |calls| :: all[..k] == calls[..k];
  }

  lemma GoingAway(e: seq<EngineCall>)
    requires WarpsAtHome(e)
    ensures var after := e + [GrabInput(true), IsolateInput(true), ShowCursor(false)];
            AfterCalls(after) == LocalInput(true, true, false) && WarpsAtHome(after)
  {
    var e1 := e + [GrabInput(true)];
    var e2 := e1 + [IsolateInput(true)];
    AfterOneMore(e, GrabInput(true));
    AfterOneMore(e1, IsolateInput(true));
    AfterOneMore(e2, ShowCursor(false));
    assert e2 + [ShowCursor(false)] == e + [GrabInput(true), IsolateInput(true), ShowCursor(false)];
  }

  lemma ComingHome(e: seq<EngineCall>, x: int, y: int)
    requires WarpsAtHome(e)
    ensures var after := e + [IsolateInput(false), GrabInput(false), WarpLocal(x, y), ShowCursor(true)];
            AfterCalls(after) == LocalInput(false, false, true) && WarpsAtHome(after)
  {
    var e1 := e + [IsolateInput(false)];
    var e2 := e1 + [GrabInput(false)];
    var e3 := e2 + [WarpLocal(x, y)];
    AfterOneMore(e, IsolateInput(false));
    AfterOneMore(e1, GrabInput(false));
    AfterOneMore(e2, WarpLocal(x, y));
    AfterOneMore(e3, ShowCursor(true));
    assert e3 + [ShowCursor(true)] == e + [IsolateInput(false), GrabInput(false), WarpLocal(x, y), ShowCursor(true)];
  }

  lemma ActKeepsEngine(server: Server, action: Action, now: nat)
    requires EngineMatches(server)
    ensures EngineMatches(server.Apply(action, now))
  {
    match action {
      case Nothing =>
      case Send(_) =>
      case SwitchTo(_, _, _) => GoingAway(server.engine);
      case SwitchToLocal(x, y) => ComingHome(server.engine, x, y);
    }
  }

  lemma StepKeepsEngine(s: System, step: Step)
    requires Shaped(s) && EngineMatches(s.server)
    ensures EngineMatches(Do(s, step).server)
  {
    hide AfterCalls, WarpsAtHome, Server.Apply;
    if step.Act? { ActKeepsEngine(s.server, step.action, step.now); }
  }

  /**
   Over every run: grab, isolation and the hidden cursor are on exactly while a client has the
   cursor, local warps only happen with grab and isolation released, and the last control event
   tells the truth.
   */
  lemma {:induction false} RunKeepsEngine(s: System, steps: seq<Step>)
    requires Shaped(s) && EngineMatches(s.server)
    ensures EngineMatches(DoAll(s, steps).server)
    decreases |steps|
  {
    hide Do, EngineMatches;
    if steps != [] {
      DoKeepsShape(s, steps[0]);
      StepKeepsEngine(s, steps[0]);
      RunKeepsEngine(Do(s, steps[0]), steps[1..]);
    }
  }
}
