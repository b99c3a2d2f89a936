/**
 Which connection owns a client id. Connections register and tear down concurrently under one
 mutex; the id-keyed maps must always name the latest connection and its address.
 */
module Registration {
  import opened Basics

  /** One accepted connection; `serial` is its identity, `id` the screen it serves, `ip` its peer. */
  datatype Conn = Conn(serial: nat, id: nat, ip: nat)

  /**
   A thread at work on a connection: number 0, its reader, registers it and in the end tears it
   down; any number of others, like the watchdog over its beacons, may tear it down as well.
   */
  datatype Worker = Worker(conn: Conn, number: nat)

  // ---------------------------------------------------------------------------
  // Every interleaving of the steps
  // ---------------------------------------------------------------------------

  /** Where a worker is. */
  datatype Phase =
    | Fresh          // wants the lock to register
    | MappingIp      // holds the lock, about to record the address
    | MappingConn    // holds the lock, about to replace the map entry
    | Registered     // holds the lock, about to let go
    | Serving        // wants the lock for the first look of a teardown, sooner or later
    | Looking        // holds the lock, about to compare and let go
    | Leaving        // saying farewell; wants the lock again
    | Comparing      // holds the lock, about to compare again and unregister
    | DroppingIp     // holds the lock, entry removed, address still mapped
    | Dropped        // holds the lock, about to let go
    | Finished

  predicate Holding(p: Phase) {
    !p.Fresh? && !p.Serving? && !p.Leaving? && !p.Finished?
  }

  /**
   The last four fields only record history. `latest` is the last connection to register each id,
   `gone` the connections whose entry they themselves or the operator removed. `orphaned` holds the
   ids whose recorded address the operator's disconnect erased under a registration, `leftover`
   those whose entry it removed while the address is still recorded.
   */
  datatype Registry = Registry(
    clients: map<nat, Conn>,
    tcpIps: map<nat, nat>,
    lock: Option<Worker>,
    phases: map<Worker, Phase>,
    latest: map<nat, Conn>,
    gone: set<Conn>,
    orphaned: set<nat>,
    leftover: set<nat>)

  function Empty(workers: set<Worker>): Registry {
    Registry(map[], map[], None, map w | w in workers :: if w.number == 0 then Fresh else Serving, map[], {}, {}, {})
  }

  predicate IsRegistered(r: Registry, c: Conn) {
    c.id in r.clients && r.clients[c.id] == c
  }

  predicate At(r: Registry, w: Worker, p: Phase) {
    w in r.phases && r.phases[w] == p
  }

  /** Who wants the lock waits while it is taken; who has finished does nothing more. */
  predicate Waits(p: Phase, lock: Option<Worker>) {
    match p
    case Finished => true
    case _ => !Holding(p) && lock.Some?
  }

  function NextPhase(p: Phase, registered: bool): Phase {
    match p
    case Fresh => MappingIp
    case MappingIp => MappingConn
    case MappingConn => Registered
    case Registered => Serving
    case Serving => Looking
    case Looking => if registered then Leaving else Finished
    case Leaving => Comparing
    case Comparing => if registered then DroppingIp else Dropped
    case DroppingIp => Dropped
    case Dropped => Finished
    case Finished => Finished
  }

  /** What a worker's step does to the maps. */
  function Work(r: Registry, p: Phase, c: Conn): Registry {
    match p
    case MappingIp =>
      r.(tcpIps := r.tcpIps[c.id := c.ip], orphaned := r.orphaned - {c.id}, leftover := r.leftover - {c.id})
    case MappingConn => r.(clients := r.clients[c.id := c], latest := r.latest[c.id := c])
    case Comparing =>
      if IsRegistered(r, c) then r.(clients := r.clients - {c.id}, gone := r.gone + {c}) else r
    case DroppingIp =>
      r.(tcpIps := r.tcpIps - {c.id}, orphaned := r.orphaned - {c.id}, leftover := r.leftover - {c.id})
    case _ => r
  }

  /** The next step of one worker. */
  function Advance(r: Registry, w: Worker): Registry {
    if w !in r.phases || Waits(r.phases[w], r.lock) then r
    else
      var next := NextPhase(r.phases[w], IsRegistered(r, w.conn));
      Work(r, r.phases[w], w.conn)
        .(phases := r.phases[w := next], lock := if Holding(next) then Some(w) else None)
  }

  /** The operator's disconnect removes the entry in one lock hold ... */
  function OperatorDrop(r: Registry, id: nat): Registry {
    if r.lock.Some? || id !in r.clients then r
    else
      r.(clients := r.clients - {id}, gone := r.gone + {r.clients[id]},
         orphaned := r.orphaned - {id}, leftover := if id in r.orphaned then r.leftover else r.leftover + {id})
  }

  /** ... and the recorded address later, without that lock, whoever holds it. */
  function OperatorForget(r: Registry, id: nat): Registry {
    r.(tcpIps := r.tcpIps - {id}, leftover := r.leftover - {id},
       orphaned := if SafeToForget(r, id) then r.orphaned else r.orphaned + {id})
  }

  /** Nobody is registered under the id, and no registration has recorded its address without its entry. */
  predicate SafeToForget(r: Registry, id: nat) {
    id !in r.clients && !AtMappingConn(r, id)
  }

  predicate AtMappingConn(r: Registry, id: nat) {
    HeldAt(r, id, MappingConn)
  }

  /** Does a worker on this id hold the lock, at this phase? */
  predicate HeldAt(r: Registry, id: nat, p: Phase) {
    r.lock.Some? && r.lock.value.conn.id == id && r.lock.value in r.phases && r.phases[r.lock.value] == p
  }

  /** A worker, or the operator's disconnect of an id, takes its next step. */
  datatype Move = Thread(w: Worker) | Drop(id: nat) | Forget(id: nat)

  function Do(r: Registry, move: Move): Registry {
    match move
    case Thread(w) => Advance(r, w)
    case Drop(id) => OperatorDrop(r, id)
    case Forget(id) => OperatorForget(r, id)
  }

  function DoAll(r: Registry, moves: seq<Move>): Registry
    decreases |moves|
  {
    if moves == [] then r else DoAll(Do(r, moves[0]), moves[1..])
  }

  // ---------------------------------------------------------------------------
  // Invariant
  // ---------------------------------------------------------------------------

  /** Both maps agree about one id. */
  predicate Agree(r: Registry, id: nat) {
    && (id in r.clients <==> id in r.tcpIps)
    && (id in r.clients ==> r.tcpIps[id] == r.clients[id].ip)
  }

  /** How the maps differ about one id, whoever is at work on it. */
  predicate Accounted(r: Registry, id: nat) {
    && (id in r.clients ==> r.clients[id].id == id && id !in r.leftover)
    && (if AtMappingConn(r, id) then
          && id !in r.leftover
          && (id in r.tcpIps <==> id !in r.orphaned)
          && (id in r.tcpIps ==> r.tcpIps[id] == r.lock.value.conn.ip)
        else if HeldAt(r, id, DroppingIp) then id !in r.clients
        else if id in r.clients then
          && (id in r.tcpIps <==> id !in r.orphaned)
          && (id in r.tcpIps ==> r.tcpIps[id] == r.clients[id].ip)
        else
          id !in r.orphaned && (id in r.tcpIps <==> id in r.leftover))
  }

  /** The entry of an id is its last registrant, unless that very connection has been removed. */
  predicate LatestWins(r: Registry, id: nat) {
    if id in r.latest && r.latest[id] !in r.gone then id in r.clients && r.clients[id] == r.latest[id]
    else id !in r.clients
  }

  /** The lock holder is inside a critical section, and nobody else is. */
  predicate LockDiscipline(r: Registry) {
    && (r.lock.Some? ==> r.lock.value in r.phases)
    && (forall w <- r.phases :: Holding(r.phases[w]) <==> r.lock == Some(w))
  }

  predicate PastRegistering(p: Phase) {
    !p.Fresh? && !p.MappingIp? && !p.MappingConn?
  }

  /** Has the connection's reader registered it? */
  predicate Past(r: Registry, c: Conn) {
    Worker(c, 0) in r.phases && PastRegistering(r.phases[Worker(c, 0)])
  }

  /** Only readers register, a connection that was removed never does again, and whoever has an entry has. */
  predicate OnceOnly(r: Registry) {
    && (forall w <- r.phases :: w.number > 0 ==> PastRegistering(r.phases[w]))
    && (forall c <- r.gone :: Past(r, c))
    && (forall id <- r.clients :: Past(r, r.clients[id]))
  }

  ghost predicate Invariant(r: Registry) {
    && LockDiscipline(r) && OnceOnly(r)
    && (forall id: nat :: Accounted(r, id))
    && (forall id: nat :: LatestWins(r, id))
  }

  lemma AdvanceKeepsDiscipline(r: Registry, w: Worker)
    requires LockDiscipline(r)
    ensures LockDiscipline(Advance(r, w))
  {
    hide NextPhase, Work;
  }

  /** A worker past registering stays past it, whoever moves. */
  lemma NobodyRegistersTwice(r: Registry, w: Worker, v: Worker)
    requires v in r.phases && PastRegistering(r.phases[v])
    ensures v in Advance(r, w).phases && PastRegistering(Advance(r, w).phases[v])
  {
    hide Work;
  }

  /** What a worker's step adds to the entries and to those gone has registered by then. */
  lemma NewcomersArePast(r: Registry, w: Worker)
    requires OnceOnly(r)
    ensures var a := Advance(r, w);
            && a.phases.Keys == r.phases.Keys
            && (forall id <- a.clients ::
                  (id in r.clients && a.clients[id] == r.clients[id]) || Past(a, a.clients[id]))
            && (forall c <- a.gone :: c in r.gone || IsRegistered(r, c))
  {
    if w in r.phases && r.phases[w].MappingConn? {
      assert w == Worker(w.conn, 0);
    }
  }

  lemma AdvanceKeepsOnceOnly(r: Registry, w: Worker)
    requires OnceOnly(r)
    ensures OnceOnly(Advance(r, w))
  {
    var a := Advance(r, w);
    NewcomersArePast(r, w);
    hide Advance;
    forall v | v in a.phases && v.number > 0 ensures PastRegistering(a.phases[v]) {
      NobodyRegistersTwice(r, w, v);
    }
    forall c | c in a.gone ensures Past(a, c) {
      assert Past(r, c);
      NobodyRegistersTwice(r, w, Worker(c, 0));
    }
    forall id | id in a.clients ensures Past(a, a.clients[id]) {
      if id in r.clients && a.clients[id] == r.clients[id] { NobodyRegistersTwice(r, w, Worker(r.clients[id], 0)); }
    }
  }

  lemma AdvanceKeepsAccounts(r: Registry, w: Worker, id: nat)
    requires LockDiscipline(r) && Accounted(r, id)
    ensures Accounted(Advance(r, w), id)
  {
    if w in r.phases {
      assert Holding(r.phases[w]) <==> r.lock == Some(w);
    }
  }

  lemma AdvanceKeepsLatest(r: Registry, w: Worker, id: nat)
    requires OnceOnly(r) && LatestWins(r, id)
    requires id in r.clients ==> r.clients[id].id == id
    ensures LatestWins(Advance(r, w), id)
  {
    if w in r.phases && r.phases[w].MappingConn? {
      assert w == Worker(w.conn, 0) && !Past(r, w.conn);
    }
  }

  lemma OperatorKeepsInvariant(r: Registry, id: nat)
    requires Invariant(r)
    ensures Invariant(OperatorDrop(r, id)) && Invariant(OperatorForget(r, id))
  {
    var d, f := OperatorDrop(r, id), OperatorForget(r, id);
    assert Accounted(r, id) && LatestWins(r, id);
    forall k: nat ensures Accounted(d, k) && LatestWins(d, k) {
      assert Accounted(r, k) && LatestWins(r, k);
    }
    forall k: nat ensures Accounted(f, k) && LatestWins(f, k) {
      assert Accounted(r, k) && LatestWins(r, k);
    }
  }

  lemma DoKeepsInvariant(r: Registry, move: Move)
    requires Invariant(r)
    ensures Invariant(Do(r, move))
  {
    match move {
      case Thread(w) =>
        AdvanceKeepsDiscipline(r, w);
        AdvanceKeepsOnceOnly(r, w);
        forall id: nat ensures Accounted(Advance(r, w), id) && LatestWins(Advance(r, w), id) {
          assert Accounted(r, id) && LatestWins(r, id);
          AdvanceKeepsAccounts(r, w, id);
          AdvanceKeepsLatest(r, w, id);
        }
      case Drop(id) => OperatorKeepsInvariant(r, id);
      case Forget(id) => OperatorKeepsInvariant(r, id);
    }
  }

  lemma {:induction false} RunKeepsInvariant(r: Registry, moves: seq<Move>)
    requires Invariant(r)
    ensures Invariant(DoAll(r, moves))
    decreases |moves|
  {
    if moves != [] {
      DoKeepsInvariant(r, moves[0]);
      RunKeepsInvariant(Do(r, moves[0]), moves[1..]);
    }
  }

  // ---------------------------------------------------------------------------
  // Who is registered, and where
  // ---------------------------------------------------------------------------

  /**
   Registration identity, with the operator's disconnects among the steps: after any interleaving
   of any number of registrations, teardowns and disconnects, whenever the lock is free, the entry
   of an id is the last connection that registered it, unless that very connection was removed;
   and both maps agree about the id exactly when no disconnect erased the address under the
   registration, and none is still to erase what it left behind.
   */
  lemma RegistrationIdentity(workers: set<Worker>, moves: seq<Move>, id: nat)
    ensures var r := DoAll(Empty(workers), moves);
            r.lock.None? ==>
              LatestWins(r, id) && (Agree(r, id) <==> id !in r.orphaned && id !in r.leftover)
  {
    RunKeepsInvariant(Empty(workers), moves);
    var r := DoAll(Empty(workers), moves);
    assert Accounted(r, id) && LatestWins(r, id);
  }

  /** Does every disconnect of the schedule that erases an address do so while that is safe? */
  predicate ForgetsSafely(r: Registry, moves: seq<Move>)
    decreases |moves|
  {
    moves == [] ||
    ((moves[0].Forget? ==> SafeToForget(r, moves[0].id)) && ForgetsSafely(Do(r, moves[0]), moves[1..]))
  }

  lemma {:induction false} SafeForgetsOrphanNothing(r: Registry, moves: seq<Move>)
    requires ForgetsSafely(r, moves) && r.orphaned == {}
    ensures DoAll(r, moves).orphaned == {}
    decreases |moves|
  {
    if moves != [] { SafeForgetsOrphanNothing(Do(r, moves[0]), moves[1..]); }
  }

  /** Registrations and teardowns alone, however many and however interleaved, never part the maps. */
  lemma {:induction false} WithoutOperator(r: Registry, moves: seq<Move>)
    requires r.orphaned == {} && r.leftover == {} && forall m <- moves :: m.Thread?
    ensures DoAll(r, moves).orphaned == {} && DoAll(r, moves).leftover == {}
    decreases |moves|
  {
    if moves != [] {
      assert moves[0] in moves && forall m <- moves[1..] :: m in moves;
      WithoutOperator(Do(r, moves[0]), moves[1..]);
    }
  }

  /**
   So without disconnects the maps agree whenever the lock is free; and with disconnects that only
   erase while it is safe, every registered connection keeps its address.
   */
  lemma MapsStayTogether(workers: set<Worker>, moves: seq<Move>, id: nat)
    ensures var r := DoAll(Empty(workers), moves);
            && (r.lock.None? && (forall m <- moves :: m.Thread?) ==> Agree(r, id))
            && (r.lock.None? && ForgetsSafely(Empty(workers), moves) && id in r.clients ==> Agree(r, id))
  {
    RegistrationIdentity(workers, moves, id);
    RunKeepsInvariant(Empty(workers), moves);
    assert Accounted(DoAll(Empty(workers), moves), id);
    if forall m <- moves :: m.Thread? { WithoutOperator(Empty(workers), moves); }
    if ForgetsSafely(Empty(workers), moves) { SafeForgetsOrphanNothing(Empty(workers), moves); }
  }

  /** The state in which the lock holder, undisturbed, lets go. */
  function LetGo(r: Registry): (s: Registry)
    requires LockDiscipline(r)
    ensures s.lock.None? && LockDiscipline(s)
    decreases if r.lock.None? then 0 else Remaining(r.phases[r.lock.value])
  {
    if r.lock.None? then r
    else
      AdvanceKeepsDiscipline(r, r.lock.value);
      LetGo(Advance(r, r.lock.value))
  }

  function Remaining(p: Phase): nat {
    match p
    case MappingIp => 3
    case MappingConn => 2
    case Registered => 1
    case Looking => 1
    case Comparing => 3
    case DroppingIp => 2
    case Dropped => 1
    case _ => 0
  }

  /** Will the lock holder put right what a disconnect erases: by recording the address, or by unregistering? */
  predicate HolderMends(r: Registry, id: nat) {
    HeldAt(r, id, MappingIp) || (HeldAt(r, id, Comparing) && IsRegistered(r, r.lock.value.conn))
  }

  /**
   The exact moment: erasing an address in any reachable state leaves the maps agreeing about the
   id, once whoever holds the lock has let go, exactly when it was safe to forget, or the lock
   holder is just about to record the address or to remove the entry itself.
   */
  lemma ForgetKeepsAgreementIff(r: Registry, id: nat)
    requires Invariant(r)
    ensures LockDiscipline(OperatorForget(r, id))
    ensures Agree(LetGo(OperatorForget(r, id)), id) <==> SafeToForget(r, id) || HolderMends(r, id)
  {
    OperatorKeepsInvariant(r, id);
    var f := OperatorForget(r, id);
    LettingGoKeepsInvariant(f);
    HolderDecides(f, id);
    assert Accounted(r, id) && Accounted(f, id);
  }

  lemma {:induction false} LettingGoKeepsInvariant(r: Registry)
    requires Invariant(r)
    ensures Invariant(LetGo(r))
    decreases if r.lock.None? then 0 else Remaining(r.phases[r.lock.value])
  {
    if r.lock.Some? {
      DoKeepsInvariant(r, Thread(r.lock.value));
      LettingGoKeepsInvariant(Advance(r, r.lock.value));
    }
  }

  /** Will the maps agree about an id once the lock holder has let go? */
  predicate WillAgree(r: Registry, id: nat) {
    (id !in r.orphaned && id !in r.leftover) || HolderMends(r, id) || HeldAt(r, id, DroppingIp)
  }

  lemma HolderKeepsProspect(r: Registry, id: nat)
    requires LockDiscipline(r) && Accounted(r, id) && r.lock.Some?
    ensures WillAgree(Advance(r, r.lock.value), id) <==> WillAgree(r, id)
  {
    assert Holding(r.phases[r.lock.value]);
  }

  lemma {:induction false} HolderDecides(r: Registry, id: nat)
    requires Invariant(r)
    ensures Agree(LetGo(r), id) <==> WillAgree(r, id)
    decreases if r.lock.None? then 0 else Remaining(r.phases[r.lock.value])
  {
    assert Accounted(r, id);
    if r.lock.Some? {
      hide Advance, Accounted, LatestWins, WillAgree;
      HolderKeepsProspect(r, id);
      DoKeepsInvariant(r, Thread(r.lock.value));
      HolderDecides(Advance(r, r.lock.value), id);
    }
  }

  // ---------------------------------------------------------------------------
  // Superseded connections
  // ---------------------------------------------------------------------------

  /** A connection without an entry, which no worker is registering or in the middle of unregistering. */
  predicate Superseded(r: Registry, c: Conn) {
    && !IsRegistered(r, c)
    && forall w <- r.phases :: w.conn == c ==> PastRegistering(r.phases[w]) && !r.phases[w].DroppingIp?
  }

  /** Once superseded, always superseded ... */
  lemma SupersededStays(r: Registry, c: Conn, move: Move)
    requires Superseded(r, c)
    ensures Superseded(Do(r, move), c)
  {
    if move.Thread? {
      var w := move.w;
      forall v | v in Advance(r, w).phases && v.conn == c
        ensures PastRegistering(Advance(r, w).phases[v]) && !Advance(r, w).phases[v].DroppingIp?
      {
        NobodyRegistersTwice(r, w, v);
      }
    }
  }

  /** ... and no step of its workers changes either map. */
  lemma SupersededIsHarmless(r: Registry, w: Worker)
    requires Superseded(r, w.conn)
    ensures Advance(r, w).clients == r.clients && Advance(r, w).tcpIps == r.tcpIps
  {
  }

  /** In every interleaving, from any moment a connection is superseded, its workers' steps touch no map. */
  lemma {:induction false} StaleTeardownIsHarmless(r: Registry, stale: Worker, moves: seq<Move>)
    requires Superseded(r, stale.conn)
    ensures var s := DoAll(r, moves);
            && Superseded(s, stale.conn)
            && Advance(s, stale).clients == s.clients && Advance(s, stale).tcpIps == s.tcpIps
    decreases |moves|
  {
    SupersededIsHarmless(r, stale);
    if moves != [] {
      SupersededStays(r, stale.conn, moves[0]);
      StaleTeardownIsHarmless(Do(r, moves[0]), stale, moves[1..]);
    }
  }

  /**
   A teardown that has looked says farewell, and comes back for the lock, exactly when its connection
   was registered; it lets go of the lock either way.
   */
  lemma FarewellIffRegistered(r: Registry, w: Worker)
    requires LockDiscipline(r) && At(r, w, Looking)
    ensures var s := Advance(r, w);
            && s.lock.None? && s.clients == r.clients && s.tcpIps == r.tcpIps
            && (At(s, w, Leaving) <==> w.conn.id in r.clients && r.clients[w.conn.id] == w.conn)
            && (At(s, w, Finished) <==> !At(s, w, Leaving))
  {
    assert Holding(r.phases[w]) <==> r.lock == Some(w);
  }

  /** So no worker of a superseded connection that was not about to ever says farewell, in any interleaving. */
  lemma {:induction false} StaleSaysNoFarewell(r: Registry, stale: Worker, moves: seq<Move>)
    requires Superseded(r, stale.conn) && !At(r, stale, Leaving)
    ensures !At(DoAll(r, moves), stale, Leaving)
    decreases |moves|
  {
    if moves != [] {
      SupersededStays(r, stale.conn, moves[0]);
      StaleSaysNoFarewell(Do(r, moves[0]), stale, moves[1..]);
    }
  }

  /**
   The operator's disconnect takes exactly the entry of the id, and later exactly its address; while a
   worker holds the lock it waits with the entry, but not with the address.
   */
  lemma DisconnectTakesTheId(r: Registry, id: nat)
    ensures var d := OperatorDrop(r, id);
            && d.tcpIps == r.tcpIps && d.phases == r.phases && d.lock == r.lock
            && (r.lock.None? ==> id !in d.clients && forall k :: k != id ==>
                  (k in d.clients <==> k in r.clients) && (k in r.clients ==> d.clients[k] == r.clients[k]))
            && (r.lock.Some? ==> d.clients == r.clients)
    ensures var f := OperatorForget(r, id);
            && f.clients == r.clients && f.phases == r.phases && f.lock == r.lock && id !in f.tcpIps
            && forall k :: k != id ==>
                 (k in f.tcpIps <==> k in r.tcpIps) && (k in r.tcpIps ==> f.tcpIps[k] == r.tcpIps[k])
  {
  }

  /**
   However many teardowns of a connection run at once, it is unregistered at most once: from the
   moment one of them, or the operator, has removed its entry, it never has one again.
   */
  lemma RemovedOnce(workers: set<Worker>, moves: seq<Move>, later: seq<Move>, c: Conn)
    requires c in DoAll(Empty(workers), moves).gone
    ensures !IsRegistered(DoAll(Empty(workers), moves + later), c)
  {
    var r := DoAll(Empty(workers), moves);
    RunSplits(Empty(workers), moves, later);
    RunKeepsInvariant(Empty(workers), moves);
    RunKeepsInvariant(r, later);
    GoneStaysGone(r, later, c);
    var s := DoAll(r, later);
    assert LatestWins(s, c.id);
  }

  lemma {:induction false} GoneStaysGone(r: Registry, moves: seq<Move>, c: Conn)
    requires c in r.gone
    ensures c in DoAll(r, moves).gone
    decreases |moves|
  {
    if moves != [] { GoneStaysGone(Do(r, moves[0]), moves[1..], c); }
  }

  // ---------------------------------------------------------------------------
  // The operator's race
  // ---------------------------------------------------------------------------

  function Steps(w: Worker, n: nat): seq<Move> {
    seq(n, _ => Thread(w))
  }

  lemma {:induction false} RunSplits(r: Registry, first: seq<Move>, second: seq<Move>)
    ensures DoAll(r, first + second) == DoAll(DoAll(r, first), second)
    decreases |first|
  {
    if first == [] {
      assert first + second == second;
    } else {
      assert (first + second)[1..] == first[1..] + second;
      RunSplits(Do(r, first[0]), first[1..], second);
    }
  }

  lemma FourSteps(r: Registry, w: Worker)
    ensures DoAll(r, Steps(w, 4)) == Advance(Advance(Advance(Advance(r, w), w), w), w)
    ensures DoAll(r, Steps(w, 3)) == Advance(Advance(Advance(r, w), w), w)
    ensures DoAll(r, Steps(w, 2)) == Advance(Advance(r, w), w)
  {
    var a := Advance(r, w);
    var b := Advance(a, w);
    var c := Advance(b, w);
    hide Advance;
    assert Steps(w, 4)[1..] == Steps(w, 3) && Steps(w, 3)[1..] == Steps(w, 2) && Steps(w, 2)[1..] == Steps(w, 1);
    assert Steps(w, 1)[1..] == [];
    assert DoAll(a, Steps(w, 1)) == b && DoAll(b, Steps(w, 1)) == c && DoAll(c, Steps(w, 1)) == Advance(c, w);
    assert DoAll(b, Steps(w, 2)) == DoAll(c, Steps(w, 1)) && DoAll(a, Steps(w, 2)) == DoAll(b, Steps(w, 1));
    assert DoAll(a, Steps(w, 3)) == DoAll(b, Steps(w, 2));
  }

  lemma AddressRecorded(r: Registry, w: Worker)
    requires r.lock.None? && At(r, w, Fresh)
    ensures var s := DoAll(r, Steps(w, 2));
            && s.lock == Some(w) && s.phases == r.phases[w := MappingConn]
            && s.clients == r.clients && s.tcpIps == r.tcpIps[w.conn.id := w.conn.ip]
  {
    FourSteps(r, w);
    hide DoAll, Steps;
    var a := Advance(r, w);
    assert a.lock == Some(w) && a.phases == r.phases[w := MappingIp] && a.clients == r.clients && a.tcpIps == r.tcpIps;
  }

  lemma EntryInserted(r: Registry, w: Worker)
    requires r.lock == Some(w) && At(r, w, MappingConn)
    ensures var s := DoAll(r, Steps(w, 2));
            && s.lock.None? && s.phases == r.phases[w := Serving]
            && s.clients == r.clients[w.conn.id := w.conn] && s.tcpIps == r.tcpIps
  {
    FourSteps(r, w);
    hide DoAll, Steps;
    var a := Advance(r, w);
    assert a.phases == r.phases[w := Registered] && a.lock == Some(w) && a.tcpIps == r.tcpIps;
    assert a.clients == r.clients[w.conn.id := w.conn];
  }

  lemma RegisterRuns(r: Registry, w: Worker)
    requires r.lock.None? && At(r, w, Fresh)
    ensures var s := DoAll(r, Steps(w, 4));
            && s.lock.None? && s.phases == r.phases[w := Serving]
            && s.clients == r.clients[w.conn.id := w.conn] && s.tcpIps == r.tcpIps[w.conn.id := w.conn.ip]
  {
    AddressRecorded(r, w);
    EntryInserted(DoAll(r, Steps(w, 2)), w);
    assert Steps(w, 4) == Steps(w, 2) + Steps(w, 2);
    RunSplits(r, Steps(w, 2), Steps(w, 2));
  }

  /**
   It can happen: the client reconnects between the two removals, and its fresh connection stays
   registered without an address, so its cursor stream is refused. The reconnection need not even
   have inserted its entry when the address is erased.
   */
  lemma OperatorRaceLosesAddress(id: nat, ip: nat, early: bool)
    ensures var first, second := Worker(Conn(1, id, ip), 0), Worker(Conn(2, id, ip), 0);
            var r := DoAll(DoAll(Empty({first, second}), Steps(first, 4)), [Drop(id)]);
            var s := if early then DoAll(DoAll(DoAll(r, Steps(second, 2)), [Forget(id)]), Steps(second, 2))
                     else DoAll(DoAll(r, Steps(second, 4)), [Forget(id)]);
            s.lock.None? && id in s.clients && s.clients[id] == second.conn && id !in s.tcpIps
  {
    var first, second := Worker(Conn(1, id, ip), 0), Worker(Conn(2, id, ip), 0);
    var start := Empty({first, second});
    RegisterRuns(start, first);
    var a := DoAll(start, Steps(first, 4));
    OneMove(a, Drop(id));
    var r := OperatorDrop(a, id);
    hide Steps, DoAll, Advance;
    if early {
      AddressRecorded(r, second);
      var half := DoAll(r, Steps(second, 2));
      OneMove(half, Forget(id));
      EntryInserted(OperatorForget(half, id), second);
    } else {
      RegisterRuns(r, second);
      OneMove(DoAll(r, Steps(second, 4)), Forget(id));
    }
  }

  lemma OneMove(r: Registry, move: Move)
    ensures DoAll(r, [move]) == Do(r, move)
  {
    assert [move][1..] == [];
  }

  lemma EntryRemoved(r: Registry, w: Worker)
    requires r.lock.None? && At(r, w, Leaving) && IsRegistered(r, w.conn)
    ensures var s := DoAll(r, Steps(w, 2));
            && s.lock == Some(w) && At(s, w, DroppingIp)
            && s.clients == r.clients - {w.conn.id} && s.tcpIps == r.tcpIps
  {
    FourSteps(r, w);
    hide DoAll, Steps;
    var a := Advance(r, w);
    assert At(a, w, Comparing) && IsRegistered(a, w.conn) && a.clients == r.clients && a.tcpIps == r.tcpIps;
  }

  lemma AddressRemoved(r: Registry, w: Worker)
    requires r.lock == Some(w) && At(r, w, DroppingIp)
    ensures var s := DoAll(r, Steps(w, 2));
            && s.lock.None? && At(s, w, Finished)
            && s.clients == r.clients && s.tcpIps == r.tcpIps - {w.conn.id}
  {
    FourSteps(r, w);
    hide DoAll, Steps;
    var a := Advance(r, w);
    assert At(a, w, Dropped) && a.lock == Some(w) && a.clients == r.clients && a.tcpIps == r.tcpIps - {w.conn.id};
  }

  lemma RegisteredUnregisters(r: Registry, w: Worker)
    requires r.lock.None? && At(r, w, Leaving) && IsRegistered(r, w.conn)
    ensures var s := DoAll(r, Steps(w, 4));
            && s.lock.None? && At(s, w, Finished)
            && s.clients == r.clients - {w.conn.id} && s.tcpIps == r.tcpIps - {w.conn.id}
  {
    EntryRemoved(r, w);
    AddressRemoved(DoAll(r, Steps(w, 2)), w);
    assert Steps(w, 4) == Steps(w, 2) + Steps(w, 2);
    RunSplits(r, Steps(w, 2), Steps(w, 2));
  }

  lemma UnregisteredFinishes(r: Registry, w: Worker)
    requires r.lock.None? && At(r, w, Leaving) && !IsRegistered(r, w.conn)
    ensures var s := DoAll(r, Steps(w, 3));
            s.lock.None? && At(s, w, Finished) && s.clients == r.clients && s.tcpIps == r.tcpIps
  {
    FourSteps(r, w);
    hide DoAll, Steps;
    var a := Advance(r, w);
    assert At(a, w, Comparing) && !IsRegistered(a, w.conn) && a.clients == r.clients && a.tcpIps == r.tcpIps;
    var b := Advance(a, w);
    assert At(b, w, Dropped) && b.clients == r.clients && b.tcpIps == r.tcpIps;
  }

  // ---------------------------------------------------------------------------
  // The critical sections as they are written
  // ---------------------------------------------------------------------------

  /** The maps keyed by client id that registration and teardown share. */
  class ClientMaps {
    var clients: map<nat, Conn>
    var tcpIps: map<nat, nat>
    var addrs: map<nat, nat>
    var seqs: map<nat, nat>
    var lastHeard: map<nat, nat>

    /** The maps are those of the registry, and nobody holds its lock. */
    ghost predicate Mirrors(r: Registry)
      reads this
    {
      clients == r.clients && tcpIps == r.tcpIps && r.lock.None?
    }

    constructor ()
      ensures Mirrors(Empty({})) && addrs == map[] && seqs == map[] && lastHeard == map[]
    {
      clients, tcpIps, addrs, seqs, lastHeard := map[], map[], map[], map[], map[];
    }

    /** The registration block is four uninterrupted steps of a fresh reader; it reports who was replaced. */
    method Register(c: Conn, ghost r: Registry) returns (replaced: Option<Conn>)
      requires Mirrors(r) && At(r, Worker(c, 0), Fresh)
      modifies this`clients, this`tcpIps
      ensures Mirrors(DoAll(r, Steps(Worker(c, 0), 4))) && At(DoAll(r, Steps(Worker(c, 0), 4)), Worker(c, 0), Serving)
      ensures clients == old(clients)[c.id := c] && tcpIps == old(tcpIps)[c.id := c.ip]
      ensures replaced == if c.id in old(clients) then Some(old(clients)[c.id]) else None
    {
      tcpIps := tcpIps[c.id := c.ip];
      replaced := if c.id in clients then Some(clients[c.id]) else None;
      clients := clients[c.id := c];
      hide DoAll, Steps, Advance;
      RegisterRuns(r, Worker(c, 0));
    }

    /** Teardown's first hold is two steps of a worker, which goes on exactly when its connection is registered. */
    method StillRegistered(c: Conn, ghost w: Worker, ghost r: Registry) returns (registered: bool)
      requires Mirrors(r) && w.conn == c && At(r, w, Serving)
      ensures Mirrors(DoAll(r, Steps(w, 2)))
      ensures At(DoAll(r, Steps(w, 2)), w, if registered then Leaving else Finished)
      ensures registered <==> c.id in clients && clients[c.id] == c
    {
      FourSteps(r, w);
      return c.id in clients && clients[c.id] == c;
    }

    /** Teardown's second hold is the rest of a leaving worker's steps; it removes all five entries or none. */
    method Unregister(c: Conn, ghost w: Worker, ghost r: Registry) returns (removed: bool)
      requires Mirrors(r) && w.conn == c && At(r, w, Leaving)
      modifies this
      ensures Mirrors(DoAll(r, Steps(w, if removed then 4 else 3)))
      ensures At(DoAll(r, Steps(w, if removed then 4 else 3)), w, Finished)
      ensures removed <==> c.id in old(clients) && old(clients)[c.id] == c
      ensures var keys := if removed then {c.id} else {};
              && clients == old(clients) - keys && tcpIps == old(tcpIps) - keys
              && addrs == old(addrs) - keys && seqs == old(seqs) - keys && lastHeard == old(lastHeard) - keys
    {
      hide DoAll, Steps;
      if c.id !in clients || clients[c.id] != c {
        UnregisteredFinishes(r, w);
        return false;
      }
      RegisteredUnregisters(r, w);
      clients := clients - {c.id};
      tcpIps := tcpIps - {c.id};
      addrs := addrs - {c.id};
      seqs := seqs - {c.id};
      lastHeard := lastHeard - {c.id};
      return true;
    }
  }
}
