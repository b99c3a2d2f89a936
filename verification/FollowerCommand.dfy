/**
 What every operation of the follower does to its command, its fractions and its flag, and what runs of
 motion frames add up to.
 */
module FollowerCommand {
  import opened Basics
  import opened MotionFollower

  // ---------------------------------------------------------------------------
  // Where the command goes
  // ---------------------------------------------------------------------------

  /** Where an operation would have the command, were there no screen around it. */
  function Aim(f: Follower, op: Op): (int, int) {
    match op
    case PushOp(dx, dy) => (f.x.target + dx, f.y.target + dy)
    case AdvanceOp(dx, dy) => (f.x.target + dx, f.y.target + dy)
    case EnterOp(px, py) => (px, py)
    case ReanchorOp(px, py) => (px, py)
    case _ => (f.x.target, f.y.target)
  }

  /** The pixels of the screen; any point while no bounds are known, one pixel when it has no size. */
  predicate OnScreen(bounds: Option<(nat, nat)>, p: (int, int)) {
    bounds.Some? ==>
      && 0 <= p.0 && (p.0 < bounds.value.0 || p.0 == 0)
      && 0 <= p.1 && (p.1 < bounds.value.1 || p.1 == 0)
  }

  /**
   The command goes where the operation aims, or to the pixel of the screen nearest to that, on each
   axis. Only `SetBounds` changes what the screen is.
   */
  lemma CommandIsNearest(f: Follower, op: Op, p: (int, int))
    requires f.Invariant()
    ensures var bounds := if op.SetBoundsOp? then Some((op.w, op.h)) else f.bounds;
            var r, aim := Apply(f, op), Aim(f, op);
            && r.bounds == bounds && OnScreen(bounds, (r.x.target, r.y.target))
            && (OnScreen(bounds, aim) ==> (r.x.target, r.y.target) == aim)
            && (OnScreen(bounds, p) ==>
                  Abs(r.x.target - aim.0) <= Abs(p.0 - aim.0) && Abs(r.y.target - aim.1) <= Abs(p.1 - aim.1))
  {
    hide Trunc;
  }

  /** The counts an operation has injected, if it injects. */
  function Injected(f: Follower, op: Op): (int, int) {
    match op
    case PushOp(dx, dy) => f.Push(dx, dy).1
    case CorrectOp(cursor) => f.Correct(cursor).1
    case _ => (0, 0)
  }

  /** Tenths one axis is to be moved by: half a frame's delta, or four tenths of the error up to 32 pixels. */
  function Intended(op: Op, target: int, delta: int, cursor: int, active: bool): int {
    if op.PushOp? then 5 * delta
    else if op.CorrectOp? && active then Clamp(4 * (target - cursor), -320, 320)
    else 0
  }

  /**
   No fraction is ever lost but by starting over: entering, leaving, placing and flushing clear both
   carries, and otherwise what is injected and what is carried on make up what was carried and what was
   to be moved, to the tenth.
   */
  lemma FractionsAreKept(f: Follower, op: Op)
    requires f.Invariant()
    ensures var r, counts := Apply(f, op), Injected(f, op);
            if op.EnterOp? || op.LeaveOp? || op.ReanchorOp? || (op.FlushOp? && f.active)
            then r.x.carry == r.y.carry == 0
            else
              var (dx, dy) := if op.PushOp? then (op.dx, op.dy) else (0, 0);
              var (cx, cy) := if op.CorrectOp? then op.cursor else (0, 0);
              && 10 * counts.0 + r.x.carry == f.x.carry + Intended(op, f.x.target, dx, cx, f.active)
              && 10 * counts.1 + r.y.carry == f.y.carry + Intended(op, f.y.target, dy, cy, f.active)
  {
    hide Trunc;
  }

  /** While control is elsewhere nothing is corrected or flushed, and nothing changes. */
  lemma IdleInjectsNothing(f: Follower, cursor: (int, int))
    requires !f.active
    ensures f.Correct(cursor) == (f, (0, 0)) && f.Flush(cursor) == (f, (0, 0))
  {
  }

  /** Has the last of the entries and leaves, if there was one, been an entry? */
  function EnteredLast(before: bool, ops: seq<Op>): bool
    decreases |ops|
  {
    if ops == [] then before
    else EnteredLast(if ops[0].EnterOp? then true else if ops[0].LeaveOp? then false else before, ops[1..])
  }

  /** A command is followed exactly between an entry and the next leave. */
  lemma {:induction false} FollowsSinceEntry(f: Follower, ops: seq<Op>)
    ensures Run(f, ops).active == EnteredLast(f.active, ops)
    decreases |ops|
  {
    hide Trunc, ClampTo;
    if ops != [] { FollowsSinceEntry(Apply(f, ops[0]), ops[1..]); }
  }

  predicate AllFrames(ops: seq<Op>) {
    forall op <- ops :: IsFrame(op)
  }

  /** The sums of the frames' deltas. */
  function Travel(frames: seq<Op>): (int, int)
    requires AllFrames(frames)
  {
    if frames == [] then (0, 0)
    else
      assert frames[0] in frames && forall op <- frames[1..] :: op in frames;
      var (x, y) := Travel(frames[1..]);
      (frames[0].dx + x, frames[0].dy + y)
  }

  /** Does the path that starts at `p` and takes the frames' deltas stay on the screen? */
  predicate StaysOn(bounds: Option<(nat, nat)>, p: (int, int), frames: seq<Op>)
    requires AllFrames(frames)
    decreases |frames|
  {
    frames == [] ||
    (assert frames[0] in frames && forall op <- frames[1..] :: op in frames;
     var q := (p.0 + frames[0].dx, p.1 + frames[0].dy);
     OnScreen(bounds, q) && StaysOn(bounds, q, frames[1..]))
  }

  /** Frames add up: while the hand's path stays on the screen, the command is moved by the sum of the deltas. */
  lemma {:induction false} FramesAddUp(f: Follower, frames: seq<Op>)
    requires f.Invariant() && AllFrames(frames) && StaysOn(f.bounds, f.Command(), frames)
    ensures var (x, y) := Travel(frames);
            Run(f, frames).Command() == (f.x.target + x, f.y.target + y)
    decreases |frames|
  {
    if frames != [] {
      assert frames[0] in frames && forall op <- frames[1..] :: op in frames;
      CommandIsNearest(f, frames[0], (0, 0));
      OpKeepsInvariant(f, frames[0]);
      hide Apply;
      FramesAddUp(Apply(f, frames[0]), frames[1..]);
    }
  }
}
