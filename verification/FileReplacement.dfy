/**
 Replacing a set of installed files as one transaction, on a file system whose every step may fail.
 */
module FileReplacement {

  type Path = string

  /** Where a target is put aside while its replacement moves in. */
  function Aside(target: Path): Path {
    target + ".old"
  }

  lemma AsidesDiffer(a: Path, b: Path)
    requires a != b
    ensures Aside(a) != Aside(b)
  {
    assert Aside(a)[..|a|] == a && Aside(b)[..|b|] == b;
  }

  /** What goes wrong with one target, of all that can. */
  datatype Faults = Faults(
    stale: bool,        // a stale aside cannot be removed
    denied: bool,       // the status query denies that the target exists
    pinned: bool,       // the target cannot be renamed aside
    elsewhere: bool,    // the source cannot be renamed, as across devices
    unreadable: bool,   // the source cannot be opened
    unopened: bool,     // the target cannot be opened for the copy
    cut: bool,          // the copy is cut short
    unfinished: bool,   // the copied file cannot be closed or made executable
    stuck: bool,        // the rollback cannot remove the target
    lingering: bool)    // the aside of a finished set cannot be removed

  // ---------------------------------------------------------------------------
  // What the steps do to the files
  // ---------------------------------------------------------------------------

  function Removed<T>(files: map<Path, T>, p: Path, fault: bool): map<Path, T> {
    if fault then files else files - {p}
  }

  function Renamed<T>(files: map<Path, T>, from: Path, to: Path, fault: bool): map<Path, T> {
    if from in files && !fault then (files - {from})[to := files[from]] else files
  }

  /** Does moving the source in come to opening the target for a copy? */
  predicate Copies<T>(files: map<Path, T>, src: Path, f: Faults) {
    src in files && f.elsewhere && !f.unreadable && !f.unopened
  }

  /** Rename when possible, copy otherwise; a copy cut short leaves `garbage`. */
  function MovedIn<T>(files: map<Path, T>, src: Path, dst: Path, f: Faults, garbage: T): (map<Path, T>, bool) {
    if src in files && !f.elsewhere then (Renamed(files, src, dst, false), true)
    else if !Copies(files, src, f) then (files, false)
    else (files[dst := if f.cut then garbage else files[src]], !f.cut && !f.unfinished)
  }

  /** One target: put it aside, move its source in, and put it back if that fails. */
  function One<T>(files: map<Path, T>, dst: Path, src: Path, f: Faults, garbage: T): (map<Path, T>, bool) {
    var cleared := Removed(files, Aside(dst), f.stale);
    var present := dst in cleared && !f.denied;
    if present && f.pinned then (cleared, false)
    else
      var put := if present then Renamed(cleared, dst, Aside(dst), false) else cleared;
      var (after, moved) := MovedIn(put, src, dst, f, garbage);
      (if moved then after else Renamed(after, Aside(dst), dst, false), moved)
  }

  /** A finished target brought back from its aside. */
  function BroughtBack<T>(files: map<Path, T>, d: Path, f: Faults): map<Path, T> {
    Renamed(Removed(files, d, f.stuck), Aside(d), d, false)
  }

  function RolledBack<T>(files: map<Path, T>, done: seq<Path>, faults: Path -> Faults): map<Path, T>
    decreases |done|
  {
    if done == [] then files
    else RolledBack(BroughtBack(files, done[0], faults(done[0])), done[1..], faults)
  }

  function Cleaned<T>(files: map<Path, T>, done: seq<Path>, faults: Path -> Faults): map<Path, T>
    decreases |done|
  {
    if done == [] then files
    else Cleaned(Removed(files, Aside(done[0]), faults(done[0]).lingering), done[1..], faults)
  }

  /** The whole set, one target after the other in the given order, with `done` finished before. */
  function InOrder<T>(
      files: map<Path, T>, order: seq<Path>, done: seq<Path>, replacements: map<Path, Path>, faults: Path -> Faults,
      garbage: T): (map<Path, T>, bool)
    requires forall d <- order :: d in replacements
    decreases |order|
  {
    if order == [] then (Cleaned(files, done, faults), true)
    else
      var d := order[0];
      var (next, moved) := One(files, d, replacements[d], faults(d), garbage);
      assert forall e <- order[1..] :: e in order;
      if moved then InOrder(next, order[1..], done + [d], replacements, faults, garbage)
      else (RolledBack(next, done, faults), false)
  }

  // ---------------------------------------------------------------------------
  // The transaction as it runs
  // ---------------------------------------------------------------------------

  /** Files by path. Every operation fails when it must, and when its fault says so. */
  class Disk<T(==)> {
    var files: map<Path, T>

    method Remove(p: Path, fault: bool)
      modifies this
      ensures files == Removed(old(files), p, fault)
    {
      if !fault {
        files := files - {p};
      }
    }

    method Rename(from: Path, to: Path, fault: bool) returns (ok: bool)
      modifies this
      ensures files == Renamed(old(files), from, to, fault) && ok == (from in old(files) && !fault)
    {
      ok := from in files && !fault;
      if ok {
        files := (files - {from})[to := files[from]];
      }
    }

    method MoveInto(src: Path, dst: Path, f: Faults, garbage: T) returns (ok: bool)
      modifies this
      ensures (files, ok) == MovedIn(old(files), src, dst, f, garbage)
    {
      ok := Rename(src, dst, f.elsewhere);
      if ok {
        return true;
      }
      if src !in files || f.unreadable || f.unopened {
        return false;
      }
      if f.cut {
        files := files[dst := garbage];
        return false;
      }
      files := files[dst := files[src]];
      ok := !f.unfinished;
    }

    method ReplaceOne(dst: Path, src: Path, f: Faults, garbage: T) returns (moved: bool)
      modifies this
      ensures (files, moved) == One(old(files), dst, src, f, garbage)
    {
      Remove(Aside(dst), f.stale);
      if dst in files && !f.denied {
        var put := Rename(dst, Aside(dst), f.pinned);
        if !put {
          return false;
        }
      }
      moved := MoveInto(src, dst, f, garbage);
      if !moved {
        if Aside(dst) in files {
          var restored := Rename(Aside(dst), dst, false);
        }
      }
    }

    method Rollback(done: seq<Path>, faults: Path -> Faults)
      modifies this
      ensures files == RolledBack(old(files), done, faults)
    {
      for k := 0 to |done|
        invariant RolledBack(files, done[k..], faults) == RolledBack(old(files), done, faults)
      {
        Remove(done[k], faults(done[k]).stuck);
        var restored := Rename(Aside(done[k]), done[k], false);
        assert done[k..][1..] == done[k + 1..];
      }
    }

    method RemoveAsides(done: seq<Path>, faults: Path -> Faults)
      modifies this
      ensures files == Cleaned(old(files), done, faults)
    {
      for k := 0 to |done|
        invariant Cleaned(files, done[k..], faults) == Cleaned(old(files), done, faults)
      {
        Remove(Aside(done[k]), faults(done[k]).lingering);
        assert done[k..][1..] == done[k + 1..];
      }
    }

    /** The transaction, with the map's entries in whatever order iterating over it yields them. */
    method ReplaceSet(order: seq<Path>, replacements: map<Path, Path>, faults: Path -> Faults, garbage: T)
        returns (ok: bool)
      requires Enumerates(order, replacements)
      modifies this
      ensures (files, ok) == InOrder(old(files), order, [], replacements, faults, garbage)
    {
      var done: seq<Path> := [];
      for k := 0 to |order|
        invariant forall d <- order[k..] :: d in replacements
        invariant InOrder(files, order[k..], done, replacements, faults, garbage)
               == InOrder(old(files), order, [], replacements, faults, garbage)
      {
        var dst := order[k];
        assert order[k..][1..] == order[k + 1..];
        assert forall e <- order[k + 1..] :: e in order[k..];
        var moved := ReplaceOne(dst, replacements[dst], faults(dst), garbage);
        if !moved {
          Rollback(done, faults);
          return false;
        }
        done := done + [dst];
      }
      RemoveAsides(done, faults);
      ok := true;
    }
  }

  /** An order in which the map's entries come: each target once. */
  ghost predicate Enumerates(order: seq<Path>, replacements: map<Path, Path>) {
    Distinct(order) && forall d :: d in order <==> d in replacements
  }

  predicate Distinct(order: seq<Path>) {
    forall i, j :: 0 <= i < j < |order| ==> order[i] != order[j]
  }

  // ---------------------------------------------------------------------------
  // Each target is on its own
  // ---------------------------------------------------------------------------

  /** Targets, their asides and the sources are all different files. */
  ghost predicate NonClashing(replacements: map<Path, Path>) {
    && (forall d, e :: d in replacements && e in replacements ==>
          Aside(d) != e && replacements[d] != e && replacements[d] != Aside(e))
    && (forall d, e :: d in replacements && e in replacements && d != e ==> replacements[d] != replacements[e])
  }

  /** Same file, or its absence, at `p`. */
  predicate SameAt<T(==)>(before: map<Path, T>, after: map<Path, T>, p: Path) {
    (p in before <==> p in after) && (p in before ==> before[p] == after[p])
  }

  /** Same target, aside and source. */
  predicate Near<T(==)>(before: map<Path, T>, after: map<Path, T>, dst: Path, src: Path) {
    SameAt(before, after, dst) && SameAt(before, after, Aside(dst)) && SameAt(before, after, src)
  }

  lemma MovingInIsLocal<T>(a: map<Path, T>, b: map<Path, T>, dst: Path, src: Path, f: Faults, garbage: T)
    requires Near(a, b, dst, src) && src != dst && src != Aside(dst) && Aside(dst) != dst
    ensures MovedIn(a, src, dst, f, garbage).1 == MovedIn(b, src, dst, f, garbage).1
    ensures Near(MovedIn(a, src, dst, f, garbage).0, MovedIn(b, src, dst, f, garbage).0, dst, src)
  {
  }

  lemma RemovingIsLocal<T>(a: map<Path, T>, b: map<Path, T>, dst: Path, src: Path, p: Path, fault: bool)
    requires Near(a, b, dst, src)
    ensures Near(Removed(a, p, fault), Removed(b, p, fault), dst, src)
  {
  }

  lemma RenamingIsLocal<T>(a: map<Path, T>, b: map<Path, T>, dst: Path, src: Path, back: bool)
    requires Near(a, b, dst, src)
    ensures var (from, to) := if back then (Aside(dst), dst) else (dst, Aside(dst));
            Near(Renamed(a, from, to, false), Renamed(b, from, to, false), dst, src)
  {
  }

  /** What happens to a target depends on it, its aside and its source alone. */
  lemma OneIsLocal<T>(a: map<Path, T>, b: map<Path, T>, dst: Path, src: Path, f: Faults, garbage: T)
    requires Near(a, b, dst, src) && src != dst && src != Aside(dst)
    ensures One(a, dst, src, f, garbage).1 == One(b, dst, src, f, garbage).1
    ensures SameAt(One(a, dst, src, f, garbage).0, One(b, dst, src, f, garbage).0, dst)
    ensures SameAt(One(a, dst, src, f, garbage).0, One(b, dst, src, f, garbage).0, Aside(dst))
  {
    assert Aside(dst) != dst by { assert |Aside(dst)| != |dst|; }
    hide Removed, Renamed, MovedIn, Aside;
    var clearedA, clearedB := Removed(a, Aside(dst), f.stale), Removed(b, Aside(dst), f.stale);
    RemovingIsLocal(a, b, dst, src, Aside(dst), f.stale);
    var present := dst in clearedA && !f.denied;
    assert present <==> dst in clearedB && !f.denied;
    hide SameAt;
    if !(present && f.pinned) {
      var putA := if present then Renamed(clearedA, dst, Aside(dst), false) else clearedA;
      var putB := if present then Renamed(clearedB, dst, Aside(dst), false) else clearedB;
      RenamingIsLocal(clearedA, clearedB, dst, src, false);
      MovingInIsLocal(putA, putB, dst, src, f, garbage);
      RenamingIsLocal(MovedIn(putA, src, dst, f, garbage).0, MovedIn(putB, src, dst, f, garbage).0, dst, src, true);
    }
  }

  /** And nothing else happens. */
  lemma OneTouchesOnlyIts<T>(files: map<Path, T>, dst: Path, src: Path, f: Faults, garbage: T, p: Path)
    requires p != dst && p != Aside(dst) && p != src
    ensures SameAt(files, One(files, dst, src, f, garbage).0, p)
  {
  }

  lemma BringingBackIsLocal<T>(a: map<Path, T>, b: map<Path, T>, d: Path, f: Faults)
    requires SameAt(a, b, d) && SameAt(a, b, Aside(d))
    ensures SameAt(BroughtBack(a, d, f), BroughtBack(b, d, f), d)
  {
    assert |Aside(d)| != |d|;
  }

  lemma BringingBackTouchesOnlyIts<T>(files: map<Path, T>, d: Path, f: Faults, p: Path)
    requires p != d && p != Aside(d)
    ensures SameAt(files, BroughtBack(files, d, f), p)
  {
  }

  /** Different targets, none of them another's aside. */
  ghost predicate Apart(done: seq<Path>) {
    Distinct(done) && forall d, e :: d in done && e in done ==> Aside(d) != e
  }

  /** The rollback treats each finished target on its own, and nothing else. */
  lemma {:induction false} RollbackIsLocal<T>(files: map<Path, T>, done: seq<Path>, faults: Path -> Faults, p: Path)
    requires Apart(done)
    ensures p in done ==> SameAt(BroughtBack(files, p, faults(p)), RolledBack(files, done, faults), p)
    ensures p !in done && (forall d :: d in done ==> p != Aside(d)) ==>
              SameAt(files, RolledBack(files, done, faults), p)
    decreases |done|
  {
    if done != [] {
      var d, rest := done[0], done[1..];
      assert d in done && forall e <- rest :: e in done;
      assert d !in rest;
      var next := BroughtBack(files, d, faults(d));
      RollbackIsLocal(next, rest, faults, p);
      if p == d {
      } else if p in done {
        assert p in rest;
        AsidesDiffer(p, d);
        BringingBackTouchesOnlyIts(files, d, faults(d), p);
        BringingBackTouchesOnlyIts(files, d, faults(d), Aside(p));
        BringingBackIsLocal(files, next, p, faults(p));
      } else if forall e :: e in done ==> p != Aside(e) {
        BringingBackTouchesOnlyIts(files, d, faults(d), p);
      }
    }
  }

  lemma {:induction false} CleaningTouchesOnlyAsides<T>(
      files: map<Path, T>, done: seq<Path>, faults: Path -> Faults, p: Path)
    requires forall d :: d in done ==> p != Aside(d)
    ensures SameAt(files, Cleaned(files, done, faults), p)
    decreases |done|
  {
    if done != [] {
      assert done[0] in done && forall e <- done[1..] :: e in done;
      CleaningTouchesOnlyAsides(Removed(files, Aside(done[0]), faults(done[0]).lingering), done[1..], faults, p);
    }
  }

  // ---------------------------------------------------------------------------
  // The whole set
  // ---------------------------------------------------------------------------

  /** A replacement job: what is to replace what, what goes wrong, and what a cut copy leaves. */
  datatype Job<T> = Job(replacements: map<Path, Path>, faults: Path -> Faults, garbage: T) {
    /** What one target's step makes of the files the job started with. */
    function Alone(start: map<Path, T>, d: Path): (map<Path, T>, bool)
      requires d in replacements
    {
      One(start, d, replacements[d], faults(d), garbage)
    }

    /** The job part way: what is to do is untouched, what is done is as if done alone. */
    ghost predicate Underway(start: map<Path, T>, files: map<Path, T>, todo: seq<Path>, done: seq<Path>) {
      && (forall d :: d in todo ==> d in replacements && Near(start, files, d, replacements[d]))
      && (forall d :: d in done ==>
            && d in replacements && Alone(start, d).1
            && SameAt(Alone(start, d).0, files, d) && SameAt(Alone(start, d).0, files, Aside(d)))
    }

    /** How many targets, in this order, move in before one does not. */
    function FirstFailure(start: map<Path, T>, order: seq<Path>): (k: nat)
      requires forall d <- order :: d in replacements
      ensures k <= |order| && (k < |order| ==> !Alone(start, order[k]).1)
      ensures forall i :: 0 <= i < k ==> Alone(start, order[i]).1
      decreases |order|
    {
      if order == [] || !Alone(start, order[0]).1 then 0
      else
        assert forall d <- order[1..] :: d in order;
        1 + FirstFailure(start, order[1..])
    }

    function Run(files: map<Path, T>, order: seq<Path>, done: seq<Path>): (map<Path, T>, bool)
      requires forall d <- order :: d in replacements
    {
      InOrder(files, order, done, replacements, faults, garbage)
    }
  }

  lemma StepSparesOthers<T>(job: Job<T>, files: map<Path, T>, d: Path, e: Path)
    requires NonClashing(job.replacements) && d in job.replacements && e in job.replacements && e != d
    ensures Near(files, job.Alone(files, d).0, e, job.replacements[e])
  {
    AsidesDiffer(e, d);
    var src := job.replacements[d];
    OneTouchesOnlyIts(files, d, src, job.faults(d), job.garbage, e);
    OneTouchesOnlyIts(files, d, src, job.faults(d), job.garbage, Aside(e));
    OneTouchesOnlyIts(files, d, src, job.faults(d), job.garbage, job.replacements[e]);
  }

  lemma OneMore<T>(job: Job<T>, start: map<Path, T>, files: map<Path, T>, todo: seq<Path>, done: seq<Path>)
    requires NonClashing(job.replacements) && todo != [] && Distinct(todo + done)
    requires job.Underway(start, files, todo, done)
    ensures var d := todo[0];
            && job.Alone(files, d).1 == job.Alone(start, d).1
            && SameAt(job.Alone(start, d).0, job.Alone(files, d).0, d)
            && SameAt(job.Alone(start, d).0, job.Alone(files, d).0, Aside(d))
            && job.Underway(start, job.Alone(files, d).0, todo[1..], done)
  {
    var d := todo[0];
    var next := job.Alone(files, d).0;
    assert d in todo && (todo + done)[0] == d;
    OneIsLocal(start, files, d, job.replacements[d], job.faults(d), job.garbage);
    forall e | e in todo[1..] ensures e in job.replacements && Near(start, next, e, job.replacements[e]) {
      assert e in todo;
      var i :| 1 <= i < |todo| && todo[i] == e;
      assert (todo + done)[i] == e;
      StepSparesOthers(job, files, d, e);
    }
    forall e | e in done
      ensures e in job.replacements && job.Alone(start, e).1
      ensures SameAt(job.Alone(start, e).0, next, e) && SameAt(job.Alone(start, e).0, next, Aside(e))
    {
      var i :| 0 <= i < |done| && done[i] == e;
      assert (todo + done)[|todo| + i] == e;
      StepSparesOthers(job, files, d, e);
    }
  }

  lemma FirstGoesLast(todo: seq<Path>, done: seq<Path>)
    requires todo != [] && Distinct(todo + done)
    ensures Distinct(todo[1..] + (done + [todo[0]]))
    ensures forall e :: e in todo <==> e == todo[0] || e in todo[1..]
  {
    assert todo[1..] + (done + [todo[0]]) == (todo + done)[1..] + [todo[0]];
    assert forall i :: 1 <= i < |todo + done| ==> (todo + done)[i] != (todo + done)[0];
    assert todo == [todo[0]] + todo[1..];
  }

  /** Where target `d` stands at the end: moved in, failed, brought back, or never reached. */
  ghost predicate Ends<T>(job: Job<T>, start: map<Path, T>, order: seq<Path>, done: seq<Path>,
                          end: map<Path, T>, d: Path)
    requires (forall e <- order :: e in job.replacements) && d in job.replacements
  {
    var k := job.FirstFailure(start, order);
    var alone := job.Alone(start, d).0;
    if k == |order| then SameAt(alone, end, d)
    else if d in done || d in order[..k] then SameAt(BroughtBack(alone, d, job.faults(d)), end, d)
    else if d == order[k] then SameAt(alone, end, d)
    else SameAt(start, end, d)
  }

  lemma {:induction false} EveryTarget<T>(
      job: Job<T>, start: map<Path, T>, files: map<Path, T>, todo: seq<Path>, done: seq<Path>, d: Path)
    requires NonClashing(job.replacements) && Distinct(todo + done) && job.Underway(start, files, todo, done)
    requires d in todo || d in done
    ensures job.Run(files, todo, done).1 <==> job.FirstFailure(start, todo) == |todo|
    ensures Ends(job, start, todo, done, job.Run(files, todo, done).0, d)
    decreases |todo|
  {
    hide One, InOrder, Job.Run, Job.FirstFailure, Job.Alone, Ends, NonClashing, Distinct;
    if todo == [] {
      NothingLeft(job, start, files, done, d);
    } else {
      var x := todo[0];
      assert x in todo;
      OneMore(job, start, files, todo, done);
      if job.Alone(start, x).1 {
        var next := job.Alone(files, x).0;
        FirstGoesLast(todo, done);
        assert job.Underway(start, next, todo[1..], done + [x]);
        RunGoesOn(job, start, files, todo, done);
        EveryTarget(job, start, next, todo[1..], done + [x], d);
        ShiftEnds(job, start, todo, done, job.Run(files, todo, done).0, d);
      } else {
        RunStops(job, start, files, todo, done);
        FailureEnds(job, start, files, todo, done, d);
      }
    }
  }

  lemma NothingLeft<T>(job: Job<T>, start: map<Path, T>, files: map<Path, T>, done: seq<Path>, d: Path)
    requires NonClashing(job.replacements) && job.Underway(start, files, [], done) && d in done
    ensures job.Run(files, [], done).1 && job.FirstFailure(start, []) == 0
    ensures Ends(job, start, [], done, job.Run(files, [], done).0, d)
  {
    CleaningTouchesOnlyAsides(files, done, job.faults, d);
  }

  lemma RunGoesOn<T>(job: Job<T>, start: map<Path, T>, files: map<Path, T>, todo: seq<Path>, done: seq<Path>)
    requires todo != [] && (forall e <- todo :: e in job.replacements) && todo[0] in job.replacements
    requires (forall e <- todo[1..] :: e in todo) && job.Alone(start, todo[0]).1 && job.Alone(files, todo[0]).1
    ensures job.Run(files, todo, done) == job.Run(job.Alone(files, todo[0]).0, todo[1..], done + [todo[0]])
    ensures job.FirstFailure(start, todo) == 1 + job.FirstFailure(start, todo[1..])
  {
  }

  lemma ShiftEnds<T>(job: Job<T>, start: map<Path, T>, todo: seq<Path>, done: seq<Path>, end: map<Path, T>, d: Path)
    requires todo != [] && (forall e <- todo :: e in job.replacements) && d in job.replacements
    requires (forall e <- todo[1..] :: e in todo) && job.Alone(start, todo[0]).1
    requires Ends(job, start, todo[1..], done + [todo[0]], end, d)
    ensures Ends(job, start, todo, done, end, d)
  {
    var k := job.FirstFailure(start, todo[1..]);
    assert todo[..k + 1] == [todo[0]] + todo[1..][..k];
  }

  lemma RunStops<T>(job: Job<T>, start: map<Path, T>, files: map<Path, T>, todo: seq<Path>, done: seq<Path>)
    requires todo != [] && forall e <- todo :: e in job.replacements
    requires todo[0] in job.replacements && !job.Alone(start, todo[0]).1 && !job.Alone(files, todo[0]).1
    ensures job.Run(files, todo, done) == (RolledBack(job.Alone(files, todo[0]).0, done, job.faults), false)
    ensures job.FirstFailure(start, todo) == 0
  {
  }

  lemma FailureEnds<T>(
      job: Job<T>, start: map<Path, T>, files: map<Path, T>, todo: seq<Path>, done: seq<Path>, d: Path)
    requires NonClashing(job.replacements) && todo != [] && Distinct(todo + done)
    requires job.Underway(start, files, todo, done) && (d in todo || d in done) && !job.Alone(start, todo[0]).1
    ensures Ends(job, start, todo, done, job.Run(files, todo, done).0, d)
  {
    var x := todo[0];
    assert x in todo;
    OneMore(job, start, files, todo, done);
    RunStops(job, start, files, todo, done);
    DoneStandApart(job.replacements, todo, done, d);
    var next := job.Alone(files, x).0;
    RollbackIsLocal(next, done, job.faults, d);
    hide NonClashing, Distinct, Apart, One, BroughtBack, RolledBack, InOrder, Job.Run, Job.FirstFailure, Job.Alone;
    if d in done {
      BringingBackIsLocal(job.Alone(start, d).0, next, d, job.faults(d));
    } else {
      assert d == x || d in todo[1..];
    }
  }

  lemma DoneStandApart(replacements: map<Path, Path>, todo: seq<Path>, done: seq<Path>, d: Path)
    requires NonClashing(replacements) && Distinct(todo + done) && d in replacements
    requires forall e :: e in done ==> e in replacements
    ensures Apart(done) && forall e :: e in done ==> d != Aside(e)
  {
    assert forall i :: 0 <= i < |done| ==> done[i] == (todo + done)[|todo| + i] && done[i] in done;
  }

  lemma {:induction false} CleaningIsLocal<T>(files: map<Path, T>, done: seq<Path>, faults: Path -> Faults, d: Path)
    requires Distinct(done) && d in done
    ensures SameAt(Removed(files, Aside(d), faults(d).lingering), Cleaned(files, done, faults), Aside(d))
    decreases |done|
  {
    var x, rest := done[0], done[1..];
    var next := Removed(files, Aside(x), faults(x).lingering);
    if x == d {
      forall e | e in rest ensures Aside(d) != Aside(e) { AsidesDiffer(d, e); }
      CleaningTouchesOnlyAsides(next, rest, faults, Aside(d));
    } else {
      assert d in rest;
      AsidesDiffer(d, x);
      CleaningIsLocal(next, rest, faults, d);
    }
  }

  lemma {:induction false} AsidesAtSuccess<T>(
      job: Job<T>, start: map<Path, T>, files: map<Path, T>, todo: seq<Path>, done: seq<Path>, d: Path)
    requires NonClashing(job.replacements) && Distinct(todo + done) && job.Underway(start, files, todo, done)
    requires (d in todo || d in done) && job.Run(files, todo, done).1
    ensures SameAt(Removed(job.Alone(start, d).0, Aside(d), job.faults(d).lingering),
                   job.Run(files, todo, done).0, Aside(d))
    decreases |todo|
  {
    if todo == [] {
      assert todo + done == done;
      CleaningIsLocal(files, done, job.faults, d);
    } else {
      OneMore(job, start, files, todo, done);
      FirstGoesLast(todo, done);
      AsidesAtSuccess(job, start, job.Alone(files, todo[0]).0, todo[1..], done + [todo[0]], d);
    }
  }

  ghost predicate Unrelated(replacements: map<Path, Path>, p: Path) {
    forall d :: d in replacements ==> p != d && p != Aside(d) && p != replacements[d]
  }

  /** Nothing but targets, asides and sources is touched, success or failure. */
  lemma {:induction false} OthersAreUntouched<T>(
      job: Job<T>, files: map<Path, T>, todo: seq<Path>, done: seq<Path>, p: Path)
    requires NonClashing(job.replacements) && Unrelated(job.replacements, p) && Distinct(todo + done)
    requires (forall d <- todo :: d in job.replacements) && (forall d <- done :: d in job.replacements)
    ensures SameAt(files, job.Run(files, todo, done).0, p)
    decreases |todo|
  {
    if todo == [] {
      CleaningTouchesOnlyAsides(files, done, job.faults, p);
    } else {
      var x := todo[0];
      assert x in todo && forall d <- todo[1..] :: d in todo;
      OneTouchesOnlyIts(files, x, job.replacements[x], job.faults(x), job.garbage, p);
      var next := job.Alone(files, x).0;
      if job.Alone(files, x).1 {
        FirstGoesLast(todo, done);
        OthersAreUntouched(job, next, todo[1..], done + [x], p);
      } else {
        assert forall i :: 0 <= i < |done| ==> done[i] == (todo + done)[|todo| + i] && done[i] in done;
        RollbackIsLocal(next, done, job.faults, p);
      }
    }
  }

  // ---------------------------------------------------------------------------
  // All or nothing
  // ---------------------------------------------------------------------------

  /** Is the target put aside before its replacement moves in? */
  predicate PutAside<T>(start: map<Path, T>, d: Path, f: Faults) {
    d in start && !f.denied
  }

  /** Does an aside from an interrupted run survive? */
  predicate StaleAside<T>(start: map<Path, T>, d: Path, f: Faults) {
    Aside(d) in start && f.stale
  }

  /** A replacement moves in exactly when its target can be put aside and its source renamed or fully copied. */
  lemma MovesIff<T>(start: map<Path, T>, d: Path, src: Path, f: Faults, garbage: T)
    requires src != d && src != Aside(d)
    ensures One(start, d, src, f, garbage).1 <==>
              && !(PutAside(start, d, f) && f.pinned)
              && src in start
              && (!f.elsewhere || (!f.unreadable && !f.unopened && !f.cut && !f.unfinished))
  {
    assert |Aside(d)| != |d|;
  }

  lemma Begin<T>(job: Job<T>, start: map<Path, T>, order: seq<Path>)
    requires Enumerates(order, job.replacements)
    ensures order + [] == order && job.Underway(start, start, order, [])
  {
  }

  /** The set succeeds exactly when every target on its own would, whatever the order. */
  lemma SucceedsIffAllMove<T>(job: Job<T>, start: map<Path, T>, order: seq<Path>)
    requires NonClashing(job.replacements) && Enumerates(order, job.replacements)
    ensures job.Run(start, order, []).1 <==> forall d :: d in job.replacements ==> job.Alone(start, d).1
  {
    Begin(job, start, order);
    if order == [] {
      assert forall d :: d in job.replacements ==> d in order;
    } else {
      EveryTarget(job, start, start, order, [], order[0]);
      var k := job.FirstFailure(start, order);
      if k < |order| {
        assert order[k] in order;
      } else {
        forall d | d in job.replacements ensures job.Alone(start, d).1 {
          assert d in order;
        }
      }
    }
  }

  /**
   All: after a success every target holds its source's content, and an aside is left exactly where
   it could not be removed, with the old content.
   */
  lemma AllOnSuccess<T>(job: Job<T>, start: map<Path, T>, order: seq<Path>, d: Path)
    requires NonClashing(job.replacements) && Enumerates(order, job.replacements) && d in job.replacements
    requires job.Run(start, order, []).1
    ensures var (end, f) := (job.Run(start, order, []).0, job.faults(d));
            && job.replacements[d] in start && d in end && end[d] == start[job.replacements[d]]
            && (PutAside(start, d, f) ==>
                  (Aside(d) in end <==> f.lingering) && (f.lingering ==> end[Aside(d)] == start[d]))
  {
    Begin(job, start, order);
    assert d in order;
    EveryTarget(job, start, start, order, [], d);
    AsidesAtSuccess(job, start, start, order, [], d);
    SucceedsIffAllMove(job, start, order);
    MovedAlone(start, d, job.replacements[d], job.faults(d), job.garbage);
  }

  lemma MovedAlone<T>(start: map<Path, T>, d: Path, src: Path, f: Faults, garbage: T)
    requires src != d && src != Aside(d) && One(start, d, src, f, garbage).1
    ensures var end := One(start, d, src, f, garbage).0;
            && src in start && d in end && end[d] == start[src]
            && (PutAside(start, d, f) ==> Aside(d) in end && end[Aside(d)] == start[d])
            && (!PutAside(start, d, f) ==> (Aside(d) in end <==> StaleAside(start, d, f)))
            && (!PutAside(start, d, f) && StaleAside(start, d, f) ==> end[Aside(d)] == start[Aside(d)])
  {
    assert |Aside(d)| != |d|;
  }

  /** How far a failed set got with a target. */
  datatype Reached = Finished | Failing | Never

  function ReachedBy<T>(job: Job<T>, start: map<Path, T>, order: seq<Path>, d: Path): Reached
    requires forall e <- order :: e in job.replacements
  {
    var k := job.FirstFailure(start, order);
    if d in order[..k] then Finished else if k < |order| && d == order[k] then Failing else Never
  }

  /**
   Does a target that was not put aside come through a failure as it was? Only if no stale aside is
   brought back in its place, and what its own replacement put there was removed, or never was.
   */
  predicate ComesThrough<T>(start: map<Path, T>, d: Path, src: Path, f: Faults, reached: Reached) {
    match reached
    case Never => true
    case Finished => !StaleAside(start, d, f) && !f.stuck
    case Failing => !StaleAside(start, d, f) && !Copies(start, src, f)
  }

  /**
   A target that was there and not put aside has lost its content to its replacement; it survives a
   failure only if what stands there in the end happens to be the same.
   */
  predicate SurvivesByChance<T(==)>(
      start: map<Path, T>, d: Path, src: Path, f: Faults, garbage: T, reached: Reached)
    requires d in start && (reached.Finished? ==> src in start)
  {
    if reached.Never? then true
    else if StaleAside(start, d, f) then start[Aside(d)] == start[d]
    else if reached.Finished? then f.stuck && start[src] == start[d]
    else Copies(start, src, f) ==> (if f.cut then garbage else start[src]) == start[d]
  }

  /**
   Nothing: after a failure, in whatever order and at whatever step, every target that was put aside,
   or never reached, is as it was. A target that did not exist is absent again exactly when it comes
   through: with no stale aside brought back, and no part of its replacement left. One whose
   existence the status query denied is as it was only by chance.
   */
  lemma NothingOnFailure<T>(job: Job<T>, start: map<Path, T>, order: seq<Path>, d: Path)
    requires NonClashing(job.replacements) && Enumerates(order, job.replacements) && d in job.replacements
    requires !job.Run(start, order, []).1
    ensures var (end, f) := (job.Run(start, order, []).0, job.faults(d));
            var reached := ReachedBy(job, start, order, d);
            && (PutAside(start, d, f) || reached.Never? ==> SameAt(start, end, d))
            && (d !in start ==>
                  (d !in end <==> ComesThrough(start, d, job.replacements[d], f, reached)))
            && (d in start && f.denied ==>
                  && (reached.Finished? ==> job.replacements[d] in start)
                  && (SameAt(start, end, d) <==>
                        SurvivesByChance(start, d, job.replacements[d], f, job.garbage, reached)))
  {
    Begin(job, start, order);
    assert d in order;
    EveryTarget(job, start, start, order, [], d);
    var k := job.FirstFailure(start, order);
    if d in order[..k] {
      var i :| 0 <= i < k && order[i] == d;
      MovedAlone(start, d, job.replacements[d], job.faults(d), job.garbage);
      BroughtBackAlone(start, d, job.replacements[d], job.faults(d), job.garbage);
    } else if d == order[k] {
      FailedAlone(start, d, job.replacements[d], job.faults(d), job.garbage);
    }
  }

  lemma BroughtBackAlone<T>(start: map<Path, T>, d: Path, src: Path, f: Faults, garbage: T)
    requires src != d && src != Aside(d) && One(start, d, src, f, garbage).1
    ensures var end := BroughtBack(One(start, d, src, f, garbage).0, d, f);
            && (PutAside(start, d, f) ==> SameAt(start, end, d))
            && (!PutAside(start, d, f) ==>
                  (d !in end <==> !StaleAside(start, d, f) && !f.stuck))
            && (!PutAside(start, d, f) && d in end ==>
                  src in start && end[d] == if StaleAside(start, d, f) then start[Aside(d)] else start[src])
  {
    MovedAlone(start, d, src, f, garbage);
    assert |Aside(d)| != |d|;
  }

  lemma FailedAlone<T>(start: map<Path, T>, d: Path, src: Path, f: Faults, garbage: T)
    requires src != d && src != Aside(d) && !One(start, d, src, f, garbage).1
    ensures var end := One(start, d, src, f, garbage).0;
            && (PutAside(start, d, f) ==> SameAt(start, end, d))
            && (!PutAside(start, d, f) && ComesThrough(start, d, src, f, Failing) ==> SameAt(start, end, d))
            && (!PutAside(start, d, f) && !ComesThrough(start, d, src, f, Failing) ==>
                  d in end && end[d] == if StaleAside(start, d, f) then start[Aside(d)]
                                        else if f.cut then garbage else start[src])
  {
    assert |Aside(d)| != |d|;
  }

  const FINE := Faults(false, false, false, false, false, false, false, false, false, false)

  /** A target that did not exist, its copy cut short: the failed set leaves the garbage there. */
  lemma CutCopyStays<T>(d: Path, src: Path, content: T, garbage: T)
    requires src != d && src != Aside(d)
    ensures var job := Job(map[d := src], (_: Path) => FINE.(elsewhere := true, cut := true), garbage);
            job.Run(map[src := content], [d], []) == (map[src := content, d := garbage], false)
  {
    var job := Job(map[d := src], (_: Path) => FINE.(elsewhere := true, cut := true), garbage);
    var start := map[src := content];
    assert |Aside(d)| != |d|;
    assert start - {Aside(d)} == start;
    assert job.Alone(start, d) == (map[src := content, d := garbage], false);
  }

  /** A target that did not exist, beside a stale aside that stays: the failed set puts the stale content there. */
  lemma StaleAsideComesBack<T>(d: Path, src: Path, stale: T, garbage: T)
    requires src != d && src != Aside(d)
    ensures var job := Job(map[d := src], (_: Path) => FINE.(stale := true), garbage);
            job.Run(map[Aside(d) := stale], [d], []) == (map[d := stale], false)
  {
    var job := Job(map[d := src], (_: Path) => FINE.(stale := true), garbage);
    var start := map[Aside(d) := stale];
    assert |Aside(d)| != |d|;
    assert (start - {Aside(d)})[d := stale] == map[d := stale];
    assert job.Alone(start, d) == (map[d := stale], false);
  }

  /** A target whose existence the query denies is overwritten, and gone after a later target's failure. */
  lemma DeniedTargetIsLost<T>(d: Path, src: Path, e: Path, missing: Path, kept: T, fresh_: T, garbage: T)
    requires d != e && NonClashing(map[d := src, e := missing])
    ensures var job := Job(map[d := src, e := missing], (p: Path) => FINE.(denied := p == d), garbage);
            job.Run(map[d := kept, src := fresh_], [d, e], []) == (map[], false)
  {
    var job := Job(map[d := src, e := missing], (p: Path) => FINE.(denied := p == d), garbage);
    var start, next := map[d := kept, src := fresh_], map[d := fresh_];
    assert d in job.replacements && e in job.replacements;
    assert start - {Aside(d)} == start && next - {Aside(e)} == next;
    assert (start - {src})[d := fresh_] == next;
    assert job.Alone(start, d) == (next, true);
    assert job.Alone(next, e) == (next, false);
    assert [d, e][1..] == [e] && [] + [d] == [d];
    assert job.Run(next, [e], [d]) == (RolledBack(next, [d], job.faults), false);
    assert next - {d} == map[];
    assert RolledBack(next, [d], job.faults) == RolledBack(map[], [d][1..], job.faults);
  }
}
