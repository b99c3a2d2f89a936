/**
 Clipboard synchronisation: every machine polls its own clipboard and passes changes on, and the
 question is how much traffic one copy can cause.
 */
module ClipboardSync {
  import opened Basics

  /** A clipboard's MIME type and data, taken as one value. */
  type Content = nat

  /** Worth passing on: present, not passed on before, and not what arrived from elsewhere. */
  predicate IsNews(content: Option<Content>, lastSeen: Option<Content>, lastInjected: Option<Content>) {
    content.Some? && lastSeen != content && lastInjected != content
  }

  // ---------------------------------------------------------------------------
  // The machines together
  // ---------------------------------------------------------------------------

  /** A client: its clipboard, its poller, its two channels, and how often it copied and sent. */
  datatype Client = Client(
    content: Option<Content>, lastInjected: Option<Content>, lastSeen: Option<Content>,
    up: seq<Content>, down: seq<Content>, copies: nat, sends: nat)
  {
    function Copy(c: Content): Client {
      this.(content := Some(c), copies := copies + 1)
    }

    function Poll(): Client {
      if IsNews(content, lastSeen, lastInjected)
      then this.(lastSeen := content, up := up + [content.value], sends := sends + 1)
      else this
    }

    function Receive(): Client {
      if down == [] then this
      else this.(content := Some(down[0]), lastInjected := Some(down[0]), down := down[1..])
    }

    /** One if the next poll would send. */
    function News(): nat {
      if IsNews(content, lastSeen, lastInjected) then 1 else 0
    }
  }

  /** The server: its clipboard, what its poll has read so far, and how often it copied, received and broadcast. */
  datatype Server = Server(
    content: Option<Content>, lastInjected: Option<Content>, lastSeen: Option<Content>,
    reading: Option<Option<Content>>, copies: nat, received: nat, broadcasts: nat)
  {
    function Copy(c: Content): Server {
      this.(content := Some(c), copies := copies + 1)
    }

    function Receive(c: Content): Server {
      this.(content := Some(c), lastInjected := Some(c), received := received + 1)
    }

    /** The poll's first hold. */
    function Read(): Server {
      if reading.Some? then this else this.(reading := Some(content))
    }

    /** Does the poll's second hold lead to a broadcast? */
    predicate Broadcasting() {
      reading.Some? && IsNews(reading.value, lastSeen, lastInjected)
    }

    function Decide(): Server {
      if reading.None? then this
      else if Broadcasting() then this.(lastSeen := reading.value, reading := None, broadcasts := broadcasts + 1)
      else this.(reading := None)
    }

    /** How many broadcasts what is read and what is on the clipboard may still cause. */
    function News(): nat {
      (if Broadcasting() then 1 else 0) +
      (if IsNews(content, if reading.Some? then reading.value else lastSeen, lastInjected) then 1 else 0)
    }
  }

  /** The server takes over content one client after another sends. */
  function ReceiveAll(s: Server, arrivals: seq<Content>): Server
    decreases |arrivals|
  {
    if arrivals == [] then s else ReceiveAll(s.Receive(arrivals[0]), arrivals[1..])
  }

  // ---------------------------------------------------------------------------
  // The pollers as they run
  // ---------------------------------------------------------------------------

  class Clipboard {
    var content: Option<Content>
    var lastInjected: Option<Content>

    method Set(c: Content)
      modifies this
      ensures content == lastInjected == Some(c)
    {
      content, lastInjected := Some(c), Some(c);
    }
  }

  class Poller {
    var lastSeen: Option<Content>

    ghost predicate IsClient(c: Client, clipboard: Clipboard)
      reads this, clipboard
    {
      clipboard.content == c.content && clipboard.lastInjected == c.lastInjected && lastSeen == c.lastSeen
    }

    ghost predicate IsServer(s: Server, clipboard: Clipboard)
      reads this, clipboard
    {
      clipboard.content == s.content && clipboard.lastInjected == s.lastInjected && lastSeen == s.lastSeen
    }

    /** The client's poll, with the clipboard's lock held from the read to the decision, is the model's. */
    method PollClient(clipboard: Clipboard, ghost c: Client) returns (sent: Option<Content>)
      requires IsClient(c, clipboard)
      modifies this
      ensures IsClient(c.Poll(), clipboard)
      ensures c.Poll().up == if sent.Some? then c.up + [sent.value] else c.up
      ensures var cur := clipboard.content;
              sent == if old(lastSeen) != cur && clipboard.lastInjected != cur then cur else None
    {
      sent := None;
      var cur := clipboard.content;
      if cur.Some? {
        if lastSeen != cur && clipboard.lastInjected != cur {
          sent := cur;
          lastSeen := cur;
        }
      }
    }

    /** The server's poll has two lock holds: it is the model's read, whatever arrives in between, and its decision. */
    method PollServer(clipboard: Clipboard, arrivals: seq<Content>, ghost s: Server) returns (sent: Option<Content>)
      requires IsServer(s, clipboard) && s.reading.None?
      modifies this, clipboard
      ensures IsServer(ReceiveAll(s.Read(), arrivals).Decide(), clipboard)
      ensures var before := ReceiveAll(s.Read(), arrivals);
              && (sent.Some? <==> before.Broadcasting())
              && (sent.Some? ==> before.reading == Some(sent))
      ensures var cur := old(clipboard.content);
              var last := if arrivals == [] then old(clipboard.lastInjected) else Some(arrivals[|arrivals| - 1]);
              sent == if old(lastSeen) != cur && last != cur then cur else None
    {
      sent := None;
      var cur := clipboard.content;
      ghost var now := s.Read();
      for k := 0 to |arrivals|
        invariant IsServer(now, clipboard) && now.reading == Some(cur)
        invariant ReceiveAll(now, arrivals[k..]) == ReceiveAll(s.Read(), arrivals)
      {
        clipboard.Set(arrivals[k]);
        now := now.Receive(arrivals[k]);
        assert arrivals[k..][1..] == arrivals[k + 1..];
      }
      AfterArrivals(s.Read(), arrivals);
      var lastInjected := clipboard.lastInjected;
      if cur.Some? {
        if lastSeen != cur && lastInjected != cur {
          sent := cur;
          lastSeen := cur;
        }
      }
    }
  }

  datatype System = System(server: Server, clients: seq<Client>)

  datatype Event =
    | CopyOn(id: nat, content: Content)
    | PollOn(id: nat)
    | DeliverTo(id: nat)
    | DeliverFrom(id: nat)
    | CopyOnServer(content: Content)
    | ReadOnServer
    | DecideOnServer(refused: set<nat>)   // clients whose outbound queue is full, or who are gone

  function Broadcast(clients: seq<Client>, c: Content, refused: set<nat>): (r: seq<Client>)
    ensures |r| == |clients|
    ensures forall i :: 0 <= i < |r| ==>
              r[i] == if i in refused then clients[i] else clients[i].(down := clients[i].down + [c])
  {
    seq(|clients|, i requires 0 <= i < |clients| =>
      if i in refused then clients[i] else clients[i].(down := clients[i].down + [c]))
  }

  function Happen(s: System, event: Event): System {
    match event
    case CopyOn(id, c) => if id < |s.clients| then s.(clients := s.clients[id := s.clients[id].Copy(c)]) else s
    case PollOn(id) => if id < |s.clients| then s.(clients := s.clients[id := s.clients[id].Poll()]) else s
    case DeliverTo(id) => if id < |s.clients| then s.(clients := s.clients[id := s.clients[id].Receive()]) else s
    case DeliverFrom(id) =>
      if id >= |s.clients| || s.clients[id].up == [] then s
      else
        System(s.server.Receive(s.clients[id].up[0]),
               s.clients[id := s.clients[id].(up := s.clients[id].up[1..])])
    case CopyOnServer(c) => s.(server := s.server.Copy(c))
    case ReadOnServer => s.(server := s.server.Read())
    case DecideOnServer(refused) =>
      if s.server.Broadcasting() then
        System(s.server.Decide(), Broadcast(s.clients, s.server.reading.value.value, refused))
      else s.(server := s.server.Decide())
  }

  function HappenAll(s: System, events: seq<Event>): (r: System)
    decreases |events|
  {
    if events == [] then s else HappenAll(Happen(s, events[0]), events[1..])
  }

  // ---------------------------------------------------------------------------
  // What each machine may send
  // ---------------------------------------------------------------------------

  /** From `before` to `after` a client sent no more than it had news of and its user copied. */
  predicate ClientWithinBudget(before: Client, after: Client) {
    && before.copies <= after.copies
    && after.sends + after.News() <= before.sends + before.News() + (after.copies - before.copies)
  }

  predicate ServerWithinBudget(before: Server, after: Server) {
    && before.copies <= after.copies && before.received <= after.received
    && after.broadcasts + after.News() <=
       before.broadcasts + before.News() + (after.copies - before.copies) + (after.received - before.received)
  }

  lemma {:induction false} EventKeepsBudgets(s: System, event: Event)
    ensures var r := Happen(s, event);
            && |r.clients| == |s.clients|
            && ServerWithinBudget(s.server, r.server)
            && forall i :: 0 <= i < |s.clients| ==> ClientWithinBudget(s.clients[i], r.clients[i])
  {
  }

  /**
   Over every run from every state: a client sends at most what it had news of plus its user's
   copies, so what it receives it never sends on; the server broadcasts at most what it had news
   of plus its user's copies plus what it received.
   */
  lemma {:induction false} RunKeepsBudgets(s: System, events: seq<Event>)
    ensures var r := HappenAll(s, events);
            && |r.clients| == |s.clients|
            && ServerWithinBudget(s.server, r.server)
            && forall i :: 0 <= i < |s.clients| ==> ClientWithinBudget(s.clients[i], r.clients[i])
    decreases |events|
  {
    if events != [] {
      EventKeepsBudgets(s, events[0]);
      RunKeepsBudgets(Happen(s, events[0]), events[1..]);
    }
  }

  /** A client that has just taken over content sends nothing at all until its user copies. */
  lemma {:induction false} ReceivedContentStays(s: System, id: nat, events: seq<Event>)
    requires id < |s.clients| && s.clients[id].down != []
    ensures var r := HappenAll(Happen(s, DeliverTo(id)), events);
            && |r.clients| == |s.clients|
            && (r.clients[id].copies == s.clients[id].copies ==> r.clients[id].sends <= s.clients[id].sends)
  {
    RunKeepsBudgets(Happen(s, DeliverTo(id)), events);
  }

  // ---------------------------------------------------------------------------
  // What all of them send together
  // ---------------------------------------------------------------------------

  function Sends(clients: seq<Client>): nat
    decreases |clients|
  {
    if clients == [] then 0 else Sends(clients[..|clients| - 1]) + clients[|clients| - 1].sends
  }

  function Copies(clients: seq<Client>): nat
    decreases |clients|
  {
    if clients == [] then 0 else Copies(clients[..|clients| - 1]) + clients[|clients| - 1].copies
  }

  /** Messages on their way to the server. */
  function Underway(clients: seq<Client>): nat
    decreases |clients|
  {
    if clients == [] then 0 else Underway(clients[..|clients| - 1]) + |clients[|clients| - 1].up|
  }

  lemma {:induction false} SumsAfterUpdate(clients: seq<Client>, id: nat, c: Client)
    requires id < |clients|
    ensures Sends(clients[id := c]) == Sends(clients) - clients[id].sends + c.sends
    ensures Underway(clients[id := c]) == Underway(clients) - |clients[id].up| + |c.up|
    decreases |clients|
  {
    var n := |clients| - 1;
    if id == n {
      assert clients[id := c][..n] == clients[..n];
    } else {
      assert clients[id := c][..n] == clients[..n][id := c];
      SumsAfterUpdate(clients[..n], id, c);
    }
  }

  lemma {:induction false} SumsAfterBroadcast(clients: seq<Client>, r: seq<Client>)
    requires |r| == |clients|
    requires forall i :: 0 <= i < |r| ==> r[i].sends == clients[i].sends && r[i].up == clients[i].up
    ensures Sends(r) == Sends(clients) && Underway(r) == Underway(clients)
    decreases |clients|
  {
    if clients != [] {
      SumsAfterBroadcast(clients[..|clients| - 1], r[..|r| - 1]);
    }
  }

  /** Everything sent has been received or is underway. */
  lemma {:induction false} EventConserves(s: System, event: Event)
    requires s.server.received + Underway(s.clients) == Sends(s.clients)
    ensures var r := Happen(s, event); r.server.received + Underway(r.clients) == Sends(r.clients)
  {
    match event {
      case CopyOn(id, c) => if id < |s.clients| { SumsAfterUpdate(s.clients, id, s.clients[id].Copy(c)); }
      case PollOn(id) => if id < |s.clients| { SumsAfterUpdate(s.clients, id, s.clients[id].Poll()); }
      case DeliverTo(id) => if id < |s.clients| { SumsAfterUpdate(s.clients, id, s.clients[id].Receive()); }
      case DeliverFrom(id) =>
        if id < |s.clients| && s.clients[id].up != [] {
          SumsAfterUpdate(s.clients, id, s.clients[id].(up := s.clients[id].up[1..]));
        }
      case DecideOnServer(refused) =>
        if s.server.Broadcasting() {
          SumsAfterBroadcast(s.clients, Broadcast(s.clients, s.server.reading.value.value, refused));
        }
      case _ =>
    }
  }

  lemma {:induction false} RunConserves(s: System, events: seq<Event>)
    requires s.server.received + Underway(s.clients) == Sends(s.clients)
    ensures var r := HappenAll(s, events); r.server.received + Underway(r.clients) == Sends(r.clients)
    decreases |events|
  {
    if events != [] {
      EventConserves(s, events[0]);
      RunConserves(Happen(s, events[0]), events[1..]);
    }
  }

  /** The start of a session: whatever the clipboards hold, nothing sent and nothing underway. */
  predicate Starts(s: System) {
    && s.server.reading.None? && s.server.copies == s.server.received == s.server.broadcasts == 0
    && forall c <- s.clients :: c.copies == c.sends == 0 && c.up == [] && c.down == []
  }

  lemma {:induction false} NothingYet(clients: seq<Client>)
    requires forall c <- clients :: c.copies == c.sends == 0 && c.up == []
    ensures Sends(clients) == Underway(clients) == 0
    decreases |clients|
  {
    if clients != [] {
      var n := |clients| - 1;
      assert clients[n] in clients && forall c <- clients[..n] :: c in clients;
      NothingYet(clients[..n]);
    }
  }

  lemma {:induction false} SendsAgainstCopies(clients: seq<Client>)
    requires forall i :: 0 <= i < |clients| ==> clients[i].sends <= clients[i].copies + 1
    ensures Sends(clients) <= Copies(clients) + |clients|
    decreases |clients|
  {
    if clients != [] {
      var n := |clients| - 1;
      assert forall i :: 0 <= i < n ==> clients[..n][i] == clients[i];
      SendsAgainstCopies(clients[..n]);
    }
  }

  /**
   No echo storm: in every run of a session with N clients, each client sends at most its user's
   copies plus one, and the server broadcasts at most all users' copies together plus N plus one.
   The counters say what the events did.
   */
  lemma {:induction false} TrafficIsBoundedByCopies(start: System, events: seq<Event>)
    requires Starts(start)
    ensures var r := HappenAll(start, events);
            && |r.clients| == |start.clients|
            && (forall i: nat :: i < |r.clients| ==>
                  && r.clients[i].sends <= r.clients[i].copies + 1
                  && r.clients[i].sends == |AllPassed(start, events, i)| && r.clients[i].copies == CopiesIn(events, i))
            && r.server.broadcasts <= r.server.copies + r.server.received + 1
            && r.server.broadcasts <= r.server.copies + Copies(r.clients) + |start.clients| + 1
  {
    NothingYet(start.clients);
    RunKeepsBudgets(start, events);
    RunConserves(start, events);
    var r := HappenAll(start, events);
    forall i: nat | i < |r.clients|
      ensures r.clients[i].sends <= r.clients[i].copies + 1
      ensures r.clients[i].sends == |AllPassed(start, events, i)| && r.clients[i].copies == CopiesIn(events, i)
    {
      assert start.clients[i] in start.clients;
      assert ClientWithinBudget(start.clients[i], r.clients[i]);
      ChannelsKeepOrder(start, events, i);
    }
    SendsAgainstCopies(r.clients);
  }

  // ---------------------------------------------------------------------------
  // What arrives where
  // ---------------------------------------------------------------------------

  function Held(content: Option<Content>): seq<Content> {
    if content.Some? then [content.value] else []
  }

  /** What an event has a client pass on: when it polls, what is there, unless it was last sent or last arrived. */
  function Passed(s: System, e: Event, id: nat): seq<Content>
    requires id < |s.clients|
  {
    var c := s.clients[id];
    if e == PollOn(id) && c.content != c.lastSeen && c.content != c.lastInjected then Held(c.content) else []
  }

  /** What the server's clipboard holds after a message from a client. */
  function Taken(s: System, e: Event, id: nat): seq<Content>
    requires id < |s.clients|
  {
    if e == DeliverFrom(id) && s.clients[id].up != [] then Held(Happen(s, e).server.content) else []
  }

  /** What a decision of the server passes on: what was read, unless it was last passed on or last arrived. */
  function Announced(s: System, e: Event): seq<Content> {
    if e.DecideOnServer? && s.server.reading.Some? &&
       s.server.reading.value != s.server.lastSeen && s.server.reading.value != s.server.lastInjected
    then Held(s.server.reading.value)
    else []
  }

  function Told(s: System, e: Event, id: nat): seq<Content> {
    if e.DecideOnServer? && id in e.refused then [] else Announced(s, e)
  }

  /** What a client's clipboard holds after a message from the server. */
  function Arrived(s: System, e: Event, id: nat): seq<Content>
    requires id < |s.clients|
  {
    EventKeepsBudgets(s, e);
    if e == DeliverTo(id) && s.clients[id].down != [] then Held(Happen(s, e).clients[id].content) else []
  }

  function AllPassed(s: System, events: seq<Event>, id: nat): seq<Content>
    requires id < |s.clients|
    decreases |events|
  {
    if events == [] then []
    else
      EventKeepsBudgets(s, events[0]);
      Passed(s, events[0], id) + AllPassed(Happen(s, events[0]), events[1..], id)
  }

  function AllTaken(s: System, events: seq<Event>, id: nat): seq<Content>
    requires id < |s.clients|
    decreases |events|
  {
    if events == [] then []
    else
      EventKeepsBudgets(s, events[0]);
      Taken(s, events[0], id) + AllTaken(Happen(s, events[0]), events[1..], id)
  }

  function AllAnnounced(s: System, events: seq<Event>): seq<Content>
    decreases |events|
  {
    if events == [] then [] else Announced(s, events[0]) + AllAnnounced(Happen(s, events[0]), events[1..])
  }

  function AllTold(s: System, events: seq<Event>, id: nat): seq<Content>
    decreases |events|
  {
    if events == [] then [] else Told(s, events[0], id) + AllTold(Happen(s, events[0]), events[1..], id)
  }

  function AllArrived(s: System, events: seq<Event>, id: nat): seq<Content>
    requires id < |s.clients|
    decreases |events|
  {
    if events == [] then []
    else
      EventKeepsBudgets(s, events[0]);
      Arrived(s, events[0], id) + AllArrived(Happen(s, events[0]), events[1..], id)
  }

  function CopiesIn(events: seq<Event>, id: nat): nat {
    if events == [] then 0
    else (if events[0].CopyOn? && events[0].id == id then 1 else 0) + CopiesIn(events[1..], id)
  }

  function ServerCopiesIn(events: seq<Event>): nat {
    if events == [] then 0 else (if events[0].CopyOnServer? then 1 else 0) + ServerCopiesIn(events[1..])
  }

  lemma {:induction false} EventIsChanneled(s: System, e: Event, id: nat)
    requires id < |s.clients|
    ensures var r := Happen(s, e); var before := s.clients[id];
            && id < |r.clients|
            && (var after := r.clients[id];
                && before.up + Passed(s, e, id) == Taken(s, e, id) + after.up
                && before.down + Told(s, e, id) == Arrived(s, e, id) + after.down
                && after.sends == before.sends + |Passed(s, e, id)|
                && after.copies == before.copies + CopiesIn([e], id))
            && r.server.copies == s.server.copies + ServerCopiesIn([e])
            && r.server.broadcasts == s.server.broadcasts + |Announced(s, e)|
  {
    EventKeepsBudgets(s, e);
  }

  lemma Regroup(a: seq<Content>, b: seq<Content>, c: seq<Content>, d: seq<Content>, e: seq<Content>, f: seq<Content>,
                g: seq<Content>)
    requires a + b == c + d && d + e == f + g
    ensures a + (b + e) == (c + f) + g
  {
    assert a + (b + e) == (a + b) + e == (c + d) + e == c + (d + e) == c + (f + g);
  }

  /**
   Both channels of every client keep order and lose nothing, on every run: the server's clipboard takes
   exactly what the client's polls had to pass on, and the client's exactly what the server's decisions
   had to tell it, each once and in order; what has not arrived is underway. The counters count that.
   */
  lemma {:induction false} ChannelsKeepOrder(s: System, events: seq<Event>, id: nat)
    requires id < |s.clients|
    ensures var r := HappenAll(s, events);
            && id < |r.clients|
            && s.clients[id].up + AllPassed(s, events, id) == AllTaken(s, events, id) + r.clients[id].up
            && s.clients[id].down + AllTold(s, events, id) == AllArrived(s, events, id) + r.clients[id].down
            && r.clients[id].sends == s.clients[id].sends + |AllPassed(s, events, id)|
            && r.clients[id].copies == s.clients[id].copies + CopiesIn(events, id)
            && r.server.broadcasts == s.server.broadcasts + |AllAnnounced(s, events)|
            && r.server.copies == s.server.copies + ServerCopiesIn(events)
    decreases |events|
  {
    if events != [] {
      var e, rest := events[0], events[1..];
      EventIsChanneled(s, e, id);
      var r := Happen(s, e);
      ChannelsKeepOrder(r, rest, id);
      var c, next, end := s.clients[id], r.clients[id], HappenAll(s, events).clients[id];
      hide Happen, Passed, Taken, Told, Arrived, Announced;
      Regroup(c.up, Passed(s, e, id), Taken(s, e, id), next.up, AllPassed(r, rest, id), AllTaken(r, rest, id), end.up);
      Regroup(c.down, Told(s, e, id), Arrived(s, e, id), next.down, AllTold(r, rest, id), AllArrived(r, rest, id),
              end.down);
    }
  }

  /** Events during which the server's poll stays between its two holds; a poll under way starts no other. */
  predicate Between(events: seq<Event>) {
    forall e <- events :: !e.DecideOnServer?
  }

  lemma {:induction false} PollWaits(s: System, events: seq<Event>)
    requires Between(events) && (s.server.reading.Some? || forall e <- events :: !e.ReadOnServer?)
    ensures var r := HappenAll(s, events);
            && |r.clients| == |s.clients|
            && r.server.reading == s.server.reading && r.server.lastSeen == s.server.lastSeen
    decreases |events|
  {
    if events != [] {
      assert events[0] in events && forall e <- events[1..] :: e in events;
      PollWaits(Happen(s, events[0]), events[1..]);
    }
  }

  /**
   A whole poll of the server, whatever happens between its two holds: it tells every client that can be
   reached what the clipboard held at the first one, exactly if that was not the last thing told and is
   not what arrived last by the second one, and remembers it exactly then.
   */
  lemma ServerPollTellsWhatItRead(s: System, events: seq<Event>, refused: set<nat>, id: nat)
    requires s.server.reading.None? && Between(events) && id < |s.clients|
    ensures var x := s.server.content;
            var m := HappenAll(Happen(s, ReadOnServer), events);
            var r := Happen(m, DecideOnServer(refused));
            var tells := x.Some? && x != s.server.lastSeen && x != m.server.lastInjected;
            && id < |m.clients| && id < |r.clients|
            && r.server.reading.None? && r.server.content == m.server.content
            && r.server.lastSeen == (if tells then x else s.server.lastSeen)
            && r.clients[id].down == m.clients[id].down + (if tells && id !in refused then [x.value] else [])
            && r.clients[id].content == m.clients[id].content && r.clients[id].up == m.clients[id].up
  {
    PollWaits(Happen(s, ReadOnServer), events);
  }

  /** What a user copies stays on the clipboard until something else is copied or arrives there. */
  lemma {:induction false} CopiesStay(s: System, events: seq<Event>, id: nat)
    requires id < |s.clients|
    requires forall e <- events :: e != DeliverTo(id) && !(e.CopyOn? && e.id == id)
    ensures var r := HappenAll(s, events);
            && id < |r.clients| && r.clients[id].content == s.clients[id].content
            && r.clients[id].lastInjected == s.clients[id].lastInjected
    decreases |events|
  {
    if events != [] {
      assert events[0] in events && forall e <- events[1..] :: e in events;
      CopiesStay(Happen(s, events[0]), events[1..], id);
    }
  }

  /**
   What a client's user copies is passed on by its next poll, exactly once, unless it is what was last
   sent or what last arrived; whatever else happens in between.
   */
  lemma CopyIsPassedOnOnce(s: System, c: Content, id: nat, events: seq<Event>)
    requires id < |s.clients|
    requires forall e <- events :: e != DeliverTo(id) && e != PollOn(id) && !(e.CopyOn? && e.id == id)
    ensures var m := HappenAll(Happen(s, CopyOn(id, c)), events);
            && id < |m.clients| && id < |Happen(m, PollOn(id)).clients|
            && m.clients[id].content == Some(c)
            && Passed(m, PollOn(id), id)
               == (if Some(c) != s.clients[id].lastSeen && Some(c) != s.clients[id].lastInjected then [c] else [])
            && Passed(Happen(m, PollOn(id)), PollOn(id), id) == []
  {
    var a := Happen(s, CopyOn(id, c));
    CopiesStay(a, events, id);
    SeenStays(a, events, id);
    EventKeepsBudgets(HappenAll(a, events), PollOn(id));
  }

  lemma {:induction false} SeenStays(s: System, events: seq<Event>, id: nat)
    requires id < |s.clients| && forall e <- events :: e != PollOn(id)
    ensures var r := HappenAll(s, events); id < |r.clients| && r.clients[id].lastSeen == s.clients[id].lastSeen
    decreases |events|
  {
    if events != [] {
      assert events[0] in events && forall e <- events[1..] :: e in events;
      SeenStays(Happen(s, events[0]), events[1..], id);
    }
  }

  /** Every clipboard holds what was copied there or arrived there last, and remembers the arrival. */
  lemma ArrivalTakesOver(s: System, id: nat)
    requires id < |s.clients|
    ensures var c, r := s.clients[id], Happen(s, DeliverTo(id));
            c.down != [] ==> id < |r.clients| && r.clients[id].content == r.clients[id].lastInjected == Some(c.down[0])
    ensures var c, r := s.clients[id], Happen(s, DeliverFrom(id));
            c.up != [] ==> r.server.content == r.server.lastInjected == Some(c.up[0])
    ensures forall x: Content :: Happen(s, CopyOnServer(x)).server.content == Some(x)
  {
  }

  lemma {:induction false} AfterArrivals(s: Server, arrivals: seq<Content>)
    ensures var r := ReceiveAll(s, arrivals);
            && r.reading == s.reading && r.lastSeen == s.lastSeen && r.broadcasts == s.broadcasts
            && r.lastInjected == (if arrivals == [] then s.lastInjected else Some(arrivals[|arrivals| - 1]))
    decreases |arrivals|
  {
    if arrivals != [] {
      AfterArrivals(s.Receive(arrivals[0]), arrivals[1..]);
    }
  }

  /**
   Content that arrived from a client is broadcast back exactly when something else arrives last
   between the poll's two reads, and it was not the last content broadcast already.
   */
  lemma ArrivedContentEchoesIff(s: Server, x: Content, arrivals: seq<Content>)
    requires s.reading.None? && s.content == s.lastInjected == Some(x)
    ensures ReceiveAll(s.Read(), arrivals).Broadcasting() <==>
              arrivals != [] && arrivals[|arrivals| - 1] != x && s.lastSeen != Some(x)
  {
    AfterArrivals(s.Read(), arrivals);
  }

  /** The same of the poll as it runs; what it sends then is the content that had arrived. */
  method PollAfterArrival(
      poller: Poller, clipboard: Clipboard, x: Content, arrivals: seq<Content>, ghost s: Server)
    returns (sent: Option<Content>)
    requires poller.IsServer(s, clipboard) && s.reading.None? && s.content == s.lastInjected == Some(x)
    modifies poller, clipboard
    ensures sent == if arrivals != [] && arrivals[|arrivals| - 1] != x && old(poller.lastSeen) != Some(x)
                    then Some(x) else None
  {
    ArrivedContentEchoesIff(s, x, arrivals);
    AfterArrivals(s.Read(), arrivals);
    sent := poller.PollServer(clipboard, arrivals, s);
  }

  /** Two clients' contents, the second between the two reads: the first goes back to every client. */
  lemma ArrivalBetweenReadsEchoes(x: Content, y: Content)
    requires x != y
    ensures var s := Server(Some(x), Some(x), None, None, 0, 1, 0);
            && s.News() == 0
            && s.Read().Decide().broadcasts == 0
            && s.Read().Receive(y).Decide().broadcasts == 1
            && s.Read().Receive(y).Decide().lastSeen == Some(x)
  {
    var s := Server(Some(x), Some(x), None, None, 0, 1, 0);
    assert [y][1..] == [];
    assert ReceiveAll(s.Read(), [y]) == ReceiveAll(s.Read().Receive(y), []);
    ArrivedContentEchoesIff(s, x, [y]);
    ArrivedContentEchoesIff(s, x, []);
  }
}
