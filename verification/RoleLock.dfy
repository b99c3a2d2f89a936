/**
 One role per machine: lock files, probes and crashes of any number of processes, step by step.
 */
module RoleLock {
  import opened Basics

  datatype Role = ServerRole | ClientRole {
    function Other(): Role {
      if ServerRole? then ClientRole else ServerRole
    }
  }

  function ParseRole(name: string): Option<Role> {
    if name == "server" then Some(ServerRole) else if name == "client" then Some(ClientRole) else None
  }

  /** A process acquiring a role, or a controller probing whether one is taken. */
  datatype Holder = Process(id: nat) | Prober(id: nat)

  lemma {:induction false} NobodyHolds(holders: map<Role, Holder>)
    requires ServerRole !in holders && ClientRole !in holders
    ensures holders == map[]
  {
    forall r: Role ensures r !in holders {
      assert r == ServerRole || r == ClientRole;
    }
  }

  // ---------------------------------------------------------------------------
  // One process acquiring a role while nothing else moves
  // ---------------------------------------------------------------------------

  /** The lock files of a machine's state directory. */
  class StateDir {
    var holders: map<Role, Holder>

    /** Take a lock if it is free and its file can be opened. */
    method LockFile(r: Role, who: Holder, opens: bool) returns (ok: bool)
      modifies this
      ensures ok == (opens && r !in old(holders))
      ensures holders == if ok then old(holders)[r := who] else old(holders)
    {
      ok := opens && r !in holders;
      if ok {
        holders := holders[r := who];
      }
    }

    method Drop(r: Role)
      modifies this
      ensures holders == old(holders) - {r}
    {
      holders := holders - {r};
    }

    /**
     Granted exactly while nobody holds either lock, and then holding its own; refused, it leaves no
     trace. Uninterrupted, that is what the steps of the interleaved model come to.
     */
    method AcquireIn(name: string, id: nat, oursOpens: bool, otherOpens: bool, ghost m: Machine) returns (granted: bool)
      requires holders == m.holders && id !in m.procs
      modifies this
      ensures ParseRole(name).Some? ==>
                var n := TakeAll(m, Acquisition(id, name, oursOpens, otherOpens));
                holders == n.holders && id in n.procs && (granted <==> n.procs[id].phase.Granted?)
      ensures granted <==> name in {"server", "client"} && old(holders) == map[] && oursOpens && otherOpens
      ensures holders == if granted then map[if name == "server" then ServerRole else ClientRole := Process(id)]
                         else old(holders)
    {
      if ParseRole(name).Some? { UninterruptedAcquisition(m, id, name, oursOpens, otherOpens); }
      if name != "server" && name != "client" {
        return false;
      }
      var role := if name == "server" then ServerRole else ClientRole;
      assert ParseRole(name) == Some(role);
      var ours := LockFile(role, Process(id), oursOpens);
      if !ours {
        return false;
      }
      var other := if role == ServerRole then ClientRole else ServerRole;
      var probe := LockFile(other, Process(id), otherOpens);
      if !probe {
        Drop(role);
        assert holders == old(holders);
        return false;
      }
      Drop(other);
      NobodyHolds(old(holders));
      granted := true;
    }

    /** Is a process of this role running? Probes the lock; a file that cannot be opened counts as free. */
    method RoleActive(r: Role, who: Holder, opens: bool) returns (active: bool)
      modifies this
      ensures active <==> opens && r in holders
      ensures holders == old(holders)
    {
      if !opens {
        return false;
      }
      var free := LockFile(r, who, true);
      if free {
        Drop(r);
        assert holders == old(holders);
        return false;
      }
      active := true;
    }
  }

  // ---------------------------------------------------------------------------
  // Any number of processes, interleaved
  // ---------------------------------------------------------------------------

  /** How far a process has got: `Denied` holds its own lock for one more step. */
  datatype Phase = Starting | HasOwn | Probing | Denied | Granted | Gone

  datatype Proc = Proc(role: Role, phase: Phase) {
    predicate Holds(r: Role) {
      (r == role && (phase.HasOwn? || phase.Probing? || phase.Denied? || phase.Granted?)) ||
      (r == role.Other() && phase.Probing?)
    }

    /** Has its probe of the other role succeeded? */
    predicate Passed() {
      phase.Probing? || phase.Granted?
    }
  }

  datatype Machine = Machine(procs: map<nat, Proc>, holders: map<Role, Holder>) {
    function With(id: nat, phase: Phase): Machine
      requires id in procs
    {
      this.(procs := procs[id := procs[id].(phase := phase)])
    }
  }

  /** `opens` is false when the lock file itself cannot be opened. */
  datatype Step =
    | Launch(id: nat, name: string)
    | TakeOwn(id: nat, opens: bool)
    | TryOther(id: nat, opens: bool)
    | DropProbe(id: nat)
    | DropOurs(id: nat)
    | Crash(id: nat)               // or exit: the system frees what it held
    | Probe(prober: nat, role: Role)
    | EndProbe(prober: nat, role: Role)

  function Take(m: Machine, step: Step): Machine {
    match step
    case Launch(id, name) =>
      if id in m.procs || ParseRole(name).None? then m
      else m.(procs := m.procs[id := Proc(ParseRole(name).value, Starting)])
    case TakeOwn(id, opens) =>
      if id !in m.procs || !m.procs[id].phase.Starting? then m
      else if opens && m.procs[id].role !in m.holders then
        m.With(id, HasOwn).(holders := m.holders[m.procs[id].role := Process(id)])
      else m.With(id, Gone)
    case TryOther(id, opens) =>
      if id !in m.procs || !m.procs[id].phase.HasOwn? then m
      else if opens && m.procs[id].role.Other() !in m.holders then
        m.With(id, Probing).(holders := m.holders[m.procs[id].role.Other() := Process(id)])
      else m.With(id, Denied)
    case DropProbe(id) =>
      if id !in m.procs || !m.procs[id].phase.Probing? then m
      else m.With(id, Granted).(holders := m.holders - {m.procs[id].role.Other()})
    case DropOurs(id) =>
      if id !in m.procs || !m.procs[id].phase.Denied? then m
      else m.With(id, Gone).(holders := m.holders - {m.procs[id].role})
    case Crash(id) =>
      if id !in m.procs then m
      else m.With(id, Gone).(holders := m.holders - Held(m.procs[id]))
    case Probe(prober, role) =>
      if role in m.holders then m else m.(holders := m.holders[role := Prober(prober)])
    case EndProbe(prober, role) =>
      if role in m.holders && m.holders[role] == Prober(prober) then m.(holders := m.holders - {role}) else m
  }

  function Held(p: Proc): set<Role> {
    (if p.Holds(ServerRole) then {ServerRole} else {}) + (if p.Holds(ClientRole) then {ClientRole} else {})
  }

  function TakeAll(m: Machine, steps: seq<Step>): Machine
    decreases |steps|
  {
    if steps == [] then m else TakeAll(Take(m, steps[0]), steps[1..])
  }

  const EMPTY := Machine(map[], map[])

  /** The lock files say exactly which live process holds what. */
  ghost predicate LocksAreTrue(m: Machine) {
    && (forall id, r :: id in m.procs && m.procs[id].Holds(r) ==> r in m.holders && m.holders[r] == Process(id))
    && (forall r :: r in m.holders && m.holders[r].Process? ==>
          m.holders[r].id in m.procs && m.procs[m.holders[r].id].Holds(r))
  }

  /** No two processes of opposite roles have both got past their probe. */
  ghost predicate NoOpposites(m: Machine) {
    forall p, q :: p in m.procs && q in m.procs && m.procs[p].role != m.procs[q].role ==>
      !(m.procs[p].Passed() && m.procs[q].Passed())
  }

  lemma {:induction false} HeldIsWhatItHolds(p: Proc, r: Role)
    ensures r in Held(p) <==> p.Holds(r)
  {
    assert r == ServerRole || r == ClientRole;
  }

  lemma {:induction false} HoldersStayHolders(m: Machine, step: Step, id: nat, r: Role)
    requires LocksAreTrue(m)
    requires id in Take(m, step).procs && Take(m, step).procs[id].Holds(r)
    ensures var n := Take(m, step); r in n.holders && n.holders[r] == Process(id)
  {
    if id in m.procs && m.procs[id].Holds(r) {
      assert m.holders[r] == Process(id);
    }
    if step.Crash? && step.id in m.procs { HeldIsWhatItHolds(m.procs[step.id], r); }
    if (step.DropProbe? || step.DropOurs?) && step.id in m.procs && step.id != id {
      var q := m.procs[step.id];
      assert q.phase.Probing? ==> q.Holds(q.role.Other());
      assert q.phase.Denied? ==> q.Holds(q.role);
    }
  }

  lemma {:induction false} LocksStayTrue(m: Machine, step: Step, r: Role)
    requires LocksAreTrue(m)
    requires r in Take(m, step).holders && Take(m, step).holders[r].Process?
    ensures var n := Take(m, step); n.holders[r].id in n.procs && n.procs[n.holders[r].id].Holds(r)
  {
    if r in m.holders && m.holders[r].Process? {
      assert m.procs[m.holders[r].id].Holds(r);
    }
    if step.Crash? && step.id in m.procs { HeldIsWhatItHolds(m.procs[step.id], r); }
  }

  lemma {:induction false} StepKeepsLocksTrue(m: Machine, step: Step)
    requires LocksAreTrue(m)
    ensures LocksAreTrue(Take(m, step))
  {
    var n := Take(m, step);
    forall id, r | id in n.procs && n.procs[id].Holds(r) ensures r in n.holders && n.holders[r] == Process(id) {
      HoldersStayHolders(m, step, id, r);
    }
    forall r | r in n.holders && n.holders[r].Process?
      ensures n.holders[r].id in n.procs && n.procs[n.holders[r].id].Holds(r)
    {
      LocksStayTrue(m, step, r);
    }
  }

  lemma {:induction false} StepKeepsOppositesApart(m: Machine, step: Step)
    requires LocksAreTrue(m) && NoOpposites(m)
    ensures NoOpposites(Take(m, step))
  {
    var n := Take(m, step);
    forall p, q | p in n.procs && q in n.procs && n.procs[p].role != n.procs[q].role
      ensures !(n.procs[p].Passed() && n.procs[q].Passed())
    {
      if step.TryOther? && p == step.id && q in m.procs && p in m.procs {
        assert m.procs[q].Passed() ==> m.procs[q].Holds(m.procs[q].role);
      } else if step.TryOther? && q == step.id && q in m.procs && p in m.procs {
        assert m.procs[p].Passed() ==> m.procs[p].Holds(m.procs[p].role);
      }
    }
  }

  lemma {:induction false} RunKeepsLocks(m: Machine, steps: seq<Step>)
    requires LocksAreTrue(m) && NoOpposites(m)
    ensures LocksAreTrue(TakeAll(m, steps)) && NoOpposites(TakeAll(m, steps))
    decreases |steps|
  {
    if steps != [] {
      StepKeepsLocksTrue(m, steps[0]);
      StepKeepsOppositesApart(m, steps[0]);
      RunKeepsLocks(Take(m, steps[0]), steps[1..]);
    }
  }

  /** In every interleaving, with crashes and probes anywhere, at most one process holds a granted role. */
  lemma {:induction false} OneRolePerMachine(steps: seq<Step>, p: nat, q: nat)
    requires var procs := TakeAll(EMPTY, steps).procs;
             p in procs && q in procs && procs[p].phase.Granted? && procs[q].phase.Granted?
    ensures p == q
  {
    RunKeepsLocks(EMPTY, steps);
    var m := TakeAll(EMPTY, steps);
    assert m.procs[p].Holds(m.procs[p].role) && m.procs[q].Holds(m.procs[q].role);
    assert m.procs[p].Passed() && m.procs[q].Passed();
    assert m.procs[p].role == m.procs[q].role;
    assert Process(p) == m.holders[m.procs[p].role] == m.holders[m.procs[q].role] == Process(q);
  }

  /** Is everyone either done with acquiring or not there, and no probe under way? */
  ghost predicate Quiet(m: Machine) {
    && (forall id :: id in m.procs ==>
          m.procs[id].phase.Starting? || m.procs[id].phase.Granted? || m.procs[id].phase.Gone?)
    && (forall r :: r in m.holders ==> m.holders[r].Process?)
  }

  /** Once things are quiet a role's lock is held exactly when a granted process of that role lives. */
  lemma {:induction false} QuietLocksTellTheTruth(steps: seq<Step>, r: Role)
    requires Quiet(TakeAll(EMPTY, steps))
    ensures var m := TakeAll(EMPTY, steps);
            r in m.holders <==> exists id :: id in m.procs && m.procs[id] == Proc(r, Granted)
  {
    RunKeepsLocks(EMPTY, steps);
    var m := TakeAll(EMPTY, steps);
    if r in m.holders {
      var id := m.holders[r].id;
      assert m.procs[id].Holds(r) && m.procs[id] == Proc(r, Granted);
    }
    if id :| id in m.procs && m.procs[id] == Proc(r, Granted) {
      assert m.procs[id].Holds(r);
    }
  }

  /**
   Whatever a process held is free once it is gone, however it went, and nobody else's lock is; it is
   never seen running again.
   */
  lemma {:induction false} CrashFreesItsLocks(steps: seq<Step>, id: nat)
    requires id in TakeAll(EMPTY, steps).procs
    ensures var m := TakeAll(EMPTY, steps); var n := Take(m, Crash(id));
            && n.procs == m.procs[id := Proc(m.procs[id].role, Gone)]
            && forall r :: (r in n.holders <==> r in m.holders && m.holders[r] != Process(id)) &&
                           (r in n.holders ==> n.holders[r] == m.holders[r])
  {
    var m := TakeAll(EMPTY, steps);
    RunKeepsLocks(EMPTY, steps);
    forall r: Role ensures r in Held(m.procs[id]) <==> r in m.holders && m.holders[r] == Process(id) {
      HeldIsWhatItHolds(m.procs[id], r);
    }
  }

  /** A probe takes a lock for its while exactly when it is free, and then leaves everything as it was. */
  lemma ProbeLeavesNoTrace(m: Machine, prober: nat, r: Role)
    ensures var n := Take(m, Probe(prober, r));
            && n.procs == m.procs && r in n.holders
            && (r in m.holders ==> n == m)
            && (r !in m.holders ==> n.holders == m.holders[r := Prober(prober)] && Take(n, EndProbe(prober, r)) == m)
  {
    if r !in m.holders { assert m.holders[r := Prober(prober)] - {r} == m.holders; }
  }

  /** The steps of one process that acquires a role without interruption. */
  function Acquisition(id: nat, name: string, oursOpens: bool, otherOpens: bool): seq<Step> {
    [Launch(id, name), TakeOwn(id, oursOpens), TryOther(id, otherOpens), DropProbe(id), DropOurs(id)]
  }

  lemma {:induction false} FiveSteps(m: Machine, a: Step, b: Step, c: Step, d: Step, e: Step)
    ensures TakeAll(m, [a, b, c, d, e]) == Take(Take(Take(Take(Take(m, a), b), c), d), e)
  {
    var m1 := Take(m, a);
    var m2 := Take(m1, b);
    var m3 := Take(m2, c);
    var m4 := Take(m3, d);
    hide Take;
    assert [a, b, c, d, e][1..] == [b, c, d, e] && [b, c, d, e][1..] == [c, d, e];
    assert [c, d, e][1..] == [d, e] && [d, e][1..] == [e] && [e][1..] == [];
    assert TakeAll(m4, [e]) == TakeAll(Take(m4, e), []);
    assert TakeAll(m3, [d, e]) == TakeAll(m4, [e]);
    assert TakeAll(m2, [c, d, e]) == TakeAll(m3, [d, e]);
    assert TakeAll(m1, [b, c, d, e]) == TakeAll(m2, [c, d, e]);
  }

  /**
   Run without interruption, in any state, an acquisition is granted exactly when nobody holds either
   lock and both files open; granted, it holds its own lock alone, and refused it leaves none.
   */
  lemma {:induction false} UninterruptedAcquisition(m: Machine, id: nat, name: string,
                                                    oursOpens: bool, otherOpens: bool)
    requires id !in m.procs && ParseRole(name).Some?
    ensures var n := TakeAll(m, Acquisition(id, name, oursOpens, otherOpens));
            && id in n.procs
            && (n.procs[id].phase.Granted? <==> m.holders == map[] && oursOpens && otherOpens)
            && n.holders == (if n.procs[id].phase.Granted?
                             then map[ParseRole(name).value := Process(id)]
                             else m.holders)
            && (!n.procs[id].phase.Granted? ==> n.procs[id].phase.Gone?)
  {
    var role := ParseRole(name).value;
    FiveSteps(m, Launch(id, name), TakeOwn(id, oursOpens), TryOther(id, otherOpens), DropProbe(id), DropOurs(id));
    var a := Take(m, Launch(id, name));
    assert a.procs[id] == Proc(role, Starting) && a.holders == m.holders;
    var b := Take(a, TakeOwn(id, oursOpens));
    if oursOpens && role !in m.holders {
      var c := Take(b, TryOther(id, otherOpens));
      if otherOpens && role.Other() !in m.holders {
        NobodyHolds(m.holders);
        assert Take(c, DropProbe(id)).holders == map[role := Process(id)];
      } else {
        assert c.procs[id].phase.Denied?;
        assert Take(Take(c, DropProbe(id)), DropOurs(id)).holders == m.holders;
      }
    }
  }

  /** In particular after any history, when every file opens. */
  lemma {:induction false} UndisturbedAcquisition(steps: seq<Step>, id: nat, name: string)
    requires id !in TakeAll(EMPTY, steps).procs && ParseRole(name).Some?
    ensures var m := TakeAll(EMPTY, steps);
            var n := TakeAll(m, Acquisition(id, name, true, true));
            var role := ParseRole(name).value;
            && id in n.procs
            && (n.procs[id].phase.Granted? <==> m.holders == map[])
            && (n.procs[id].phase.Granted? ==> n.holders == map[role := Process(id)])
            && (!n.procs[id].phase.Granted? ==> n.procs[id].phase.Gone? && n.holders == m.holders)
  {
    UninterruptedAcquisition(TakeAll(EMPTY, steps), id, name, true, true);
  }

  /** Does a prober hold this lock just now? */
  predicate Probed(m: Machine, r: Role) {
    r in m.holders && m.holders[r].Prober?
  }

  /** Who holds a role's lock, when it is not a prober: someone of the role, or someone probing it. */
  ghost predicate Occupied(m: Machine, r: Role) {
    exists q :: q in m.procs && m.procs[q].Holds(r)
  }

  lemma {:induction false} HeldIff(steps: seq<Step>, r: Role)
    ensures var m := TakeAll(EMPTY, steps); r in m.holders <==> Probed(m, r) || Occupied(m, r)
  {
    RunKeepsLocks(EMPTY, steps);
    var m := TakeAll(EMPTY, steps);
    if r in m.holders && m.holders[r].Process? {
      assert m.procs[m.holders[r].id].Holds(r);
    }
  }

  /**
   In every interleaving, a starter fails to take its own lock exactly when the file does not open, a
   prober holds it, a process of its role is past taking it and not gone, or a process of the other
   role is just probing it.
   */
  lemma {:induction false} OwnLockIsRefusedIff(steps: seq<Step>, p: nat, opens: bool)
    requires var procs := TakeAll(EMPTY, steps).procs; p in procs && procs[p].phase.Starting?
    ensures var m := TakeAll(EMPTY, steps);
            var role := m.procs[p].role;
            Take(m, TakeOwn(p, opens)).procs[p].phase.Gone? <==>
              || !opens || Probed(m, role)
              || (exists q :: q in m.procs && m.procs[q].role == role && PastOwn(m.procs[q].phase))
              || (exists q :: q in m.procs && m.procs[q] == Proc(role.Other(), Probing))
  {
    HeldIff(steps, TakeAll(EMPTY, steps).procs[p].role);
    var m := TakeAll(EMPTY, steps);
    var role := m.procs[p].role;
    if q :| q in m.procs && m.procs[q].Holds(role) {
      assert m.procs[q].role == role || m.procs[q] == Proc(role.Other(), Probing);
    }
    if q :| q in m.procs && m.procs[q].role == role && PastOwn(m.procs[q].phase) {
      assert m.procs[q].Holds(role);
    }
    if q :| q in m.procs && m.procs[q] == Proc(role.Other(), Probing) {
      assert m.procs[q].Holds(role);
    }
  }

  /** Between taking its own lock and letting go of it. */
  predicate PastOwn(phase: Phase) {
    phase.HasOwn? || phase.Probing? || phase.Denied? || phase.Granted?
  }

  /**
   In every interleaving, a starter that has its own lock is refused exactly when the other file does
   not open, a prober holds the other lock, or a process of the other role has taken it, whether or
   not that process will be granted anything.
   */
  lemma {:induction false} StarterIsRefusedIff(steps: seq<Step>, p: nat, opens: bool)
    requires var procs := TakeAll(EMPTY, steps).procs; p in procs && procs[p].phase.HasOwn?
    ensures var m := TakeAll(EMPTY, steps);
            var other := m.procs[p].role.Other();
            Take(m, TryOther(p, opens)).procs[p].phase.Denied? <==>
              || !opens || Probed(m, other)
              || exists q :: q in m.procs && m.procs[q].role == other &&
                             (m.procs[q].phase.HasOwn? || m.procs[q].phase.Denied? || m.procs[q].phase.Granted?)
  {
    RunKeepsLocks(EMPTY, steps);
    var m := TakeAll(EMPTY, steps);
    var role := m.procs[p].role;
    var other := role.Other();
    HeldIff(steps, other);
    assert m.procs[p].Holds(role) && m.holders[role] == Process(p);
    if q :| q in m.procs && m.procs[q].Holds(other) {
      var proc := m.procs[q];
      assert !proc.Holds(role);
      assert proc.phase.Probing? ==> proc.Holds(role);
      assert proc.role == other;
    }
    if q :| q in m.procs && m.procs[q].role == other &&
            (m.procs[q].phase.HasOwn? || m.procs[q].phase.Denied? || m.procs[q].phase.Granted?) {
      assert m.procs[q].Holds(other);
    }
  }

  /** Two opposite starters may refuse each other: exclusion holds, but nobody gets the machine. */
  lemma {:induction false} BothMayBeRefused()
    ensures var steps := [Launch(0, "server"), Launch(1, "client"), TakeOwn(0, true), TakeOwn(1, true)];
            var m := TakeAll(EMPTY, steps);
            && 0 in m.procs && 1 in m.procs
            && Take(m, TryOther(0, true)).procs[0].phase.Denied?
            && Take(Take(m, TryOther(0, true)), TryOther(1, true)).procs[1].phase.Denied?
  {
    var a, b := Launch(0, "server"), Launch(1, "client");
    var c, d := TakeOwn(0, true), TakeOwn(1, true);
    FourSteps(EMPTY, a, b, c, d);
    assert ParseRole("server") == Some(ServerRole) && ParseRole("client") == Some(ClientRole);
    var one, two := Take(EMPTY, a), Take(Take(EMPTY, a), b);
    assert one.procs[0] == Proc(ServerRole, Starting) && two.procs[0] == Proc(ServerRole, Starting);
    assert two.procs[1] == Proc(ClientRole, Starting) && two.holders == map[];
    var three := Take(two, c);
    assert three.procs[0] == Proc(ServerRole, HasOwn) && three.procs[1] == Proc(ClientRole, Starting);
    assert three.holders == map[ServerRole := Process(0)];
    var four := Take(three, d);
    assert four.procs[0] == Proc(ServerRole, HasOwn) && four.procs[1] == Proc(ClientRole, HasOwn);
    var steps := [a, b, c, d];
    StarterIsRefusedIff(steps, 0, true);
    FiveSteps(EMPTY, a, b, c, d, TryOther(0, true));
    StarterIsRefusedIff([a, b, c, d, TryOther(0, true)], 1, true);
  }

  lemma {:induction false} FourSteps(m: Machine, a: Step, b: Step, c: Step, d: Step)
    ensures TakeAll(m, [a, b, c, d]) == Take(Take(Take(Take(m, a), b), c), d)
  {
    var m1 := Take(m, a);
    var m2 := Take(m1, b);
    var m3 := Take(m2, c);
    hide Take;
    assert [a, b, c, d][1..] == [b, c, d] && [b, c, d][1..] == [c, d] && [c, d][1..] == [d] && [d][1..] == [];
    assert TakeAll(m3, [d]) == TakeAll(Take(m3, d), []);
    assert TakeAll(m2, [c, d]) == TakeAll(m3, [d]);
    assert TakeAll(m1, [b, c, d]) == TakeAll(m2, [c, d]);
  }
}
