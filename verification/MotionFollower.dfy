/**
 The client's closed-loop cursor follower.

 Only whole pixels ever reach the commanded position, and the two gains are 0.5 and
 0.4, so the truncation carry is always a whole number of tenths of a pixel. All
 fractional quantities below are therefore integers counted in tenths.
 */
module MotionFollower {
  import opened Basics

  const FEED_FORWARD := 5        // tenths of a frame injected at once
  const FOLLOW_GAIN := 4         // tenths of the residual error corrected per tick
  const FOLLOW_MAX_STEP := 320   // largest correction per tick, in tenths
  const FOLLOW_FLUSH_CAP := 64   // largest flush, in pixels

  /** Tenths to whole pixels, toward zero. */
  function Trunc(tenths: int): int {
    if tenths >= 0 then tenths / 10 else -((-tenths) / 10)
  }

  // ---------------------------------------------------------------------------
  // One axis of the follower, as a value
  // ---------------------------------------------------------------------------

  /** Commanded pixel and truncation carry (tenths) of one axis. */
  datatype Axis = Axis(target: int, carry: int)

  /** The largest valid pixel of a side of `size` pixels; 0 for a degenerate side. */
  function LastPixel(size: nat): nat {
    Max(size - 1, 0)
  }

  function ClampTo(target: int, size: Option<nat>): int {
    if size.Some? then Clamp(target, 0, LastPixel(size.value)) else target
  }

  predicate InBounds(target: int, size: Option<nat>) {
    size.Some? ==> 0 <= target <= LastPixel(size.value)
  }

  /** The carry never reaches a whole pixel. */
  predicate SubPixel(a: Axis) {
    -10 < a.carry < 10
  }

  /** Add `amount` tenths to the carry and take the whole pixels out of it. */
  function Emit(a: Axis, amount: int): (r: (Axis, int)) {
    var counts := Trunc(a.carry + amount);
    (a.(carry := a.carry + amount - 10 * counts), counts)
  }

  function PushAxis(a: Axis, d: int, size: Option<nat>): (Axis, int) {
    Emit(a.(target := ClampTo(a.target + d, size)), FEED_FORWARD * d)
  }

  function CorrectAxis(a: Axis, cursor: int): (Axis, int) {
    Emit(a, Clamp(FOLLOW_GAIN * (a.target - cursor), -FOLLOW_MAX_STEP, FOLLOW_MAX_STEP))
  }

  // ---------------------------------------------------------------------------
  // The whole follower, as a value
  // ---------------------------------------------------------------------------

  datatype Follower = Follower(x: Axis, y: Axis, active: bool, bounds: Option<(nat, nat)>)
  {
    function Width(): Option<nat> {
      if bounds.Some? then Some(bounds.value.0) else None
    }

    function Height(): Option<nat> {
      if bounds.Some? then Some(bounds.value.1) else None
    }

    /** What every operation keeps: sub-pixel carries and a command on the screen. */
    predicate Invariant() {
      && SubPixel(x) && SubPixel(y)
      && InBounds(x.target, Width()) && InBounds(y.target, Height())
    }

    function Command(): (int, int) {
      (x.target, y.target)
    }

    function ClampCommand(): Follower {
      this.(x := x.(target := ClampTo(x.target, Width())), y := y.(target := ClampTo(y.target, Height())))
    }

    function SetBounds(w: nat, h: nat): Follower {
      this.(bounds := Some((w, h))).ClampCommand()
    }

    function PlaceAt(px: int, py: int): Follower {
      this.(x := Axis(px, 0), y := Axis(py, 0)).ClampCommand()
    }

    function Enter(px: int, py: int): Follower {
      PlaceAt(px, py).(active := true)
    }

    function Leave(): Follower {
      this.(active := false, x := x.(carry := 0), y := y.(carry := 0))
    }

    function Advance(dx: int, dy: int): Follower {
      this.(x := x.(target := x.target + dx), y := y.(target := y.target + dy)).ClampCommand()
    }

    function Push(dx: int, dy: int): (Follower, (int, int)) {
      var (ax, ix) := PushAxis(x, dx, Width());
      var (ay, iy) := PushAxis(y, dy, Height());
      (this.(x := ax, y := ay), (ix, iy))
    }

    /** The counts to inject, axis by axis; `(0, 0)` is the follower's `None`. */
    function Correct(cursor: (int, int)): (Follower, (int, int)) {
      if !active then (this, (0, 0))
      else
        var (ax, ix) := CorrectAxis(x, cursor.0);
        var (ay, iy) := CorrectAxis(y, cursor.1);
        (this.(x := ax, y := ay), (ix, iy))
    }

    function Flush(cursor: (int, int)): (Follower, (int, int)) {
      if !active then (this, (0, 0))
      else
        (this.(x := x.(carry := 0), y := y.(carry := 0)),
         (Clamp(x.target - cursor.0, -FOLLOW_FLUSH_CAP, FOLLOW_FLUSH_CAP),
          Clamp(y.target - cursor.1, -FOLLOW_FLUSH_CAP, FOLLOW_FLUSH_CAP)))
    }
  }

  // ---------------------------------------------------------------------------
  // The mutable object
  // ---------------------------------------------------------------------------

  class PositionFollower {
    var tx: int
    var ty: int
    var active: bool
    var fx: int
    var fy: int
    var bounds: Option<(nat, nat)>

    ghost function State(): Follower
      reads this
    {
      Follower(Axis(tx, fx), Axis(ty, fy), active, bounds)
    }

    ghost predicate Valid()
      reads this
    {
      State().Invariant()
    }

    constructor ()
      ensures Valid()
      ensures State() == Follower(Axis(0, 0), Axis(0, 0), false, None)
    {
      tx, ty, active, fx, fy, bounds := 0, 0, false, 0, 0, None;
    }

    method SetBounds(w: nat, h: nat)
      requires Valid()
      modifies this
      ensures Valid() && State() == old(State()).SetBounds(w, h)
    {
      bounds := Some((w, h));
      ClampCommand();
    }

    method ClampCommand()
      modifies this`tx, this`ty
      ensures State() == old(State()).ClampCommand()
    {
      if bounds.Some? {
        var maxX := Max(bounds.value.0 - 1, 0);
        var maxY := Max(bounds.value.1 - 1, 0);
        tx := Clamp(tx, 0, maxX);
        ty := Clamp(ty, 0, maxY);
      }
    }

    method Enter(x: int, y: int)
      requires Valid()
      modifies this
      ensures Valid() && State() == old(State()).Enter(x, y)
    {
      tx, ty := x, y;
      active := true;
      fx, fy := 0, 0;
      ClampCommand();
    }

    method Leave()
      requires Valid()
      modifies this
      ensures Valid() && State() == old(State()).Leave()
    {
      active := false;
      fx, fy := 0, 0;
    }

    method Push(dx: int, dy: int) returns (ix: int, iy: int)
      requires Valid()
      modifies this
      ensures Valid() && (State(), (ix, iy)) == old(State()).Push(dx, dy)
    {
      ghost var s := State();
      OpKeepsInvariant(s, PushOp(dx, dy));
      assert s.Push(dx, dy).0.Invariant();
      hide Follower.Invariant, Trunc;
      tx, ty := tx + dx, ty + dy;
      ClampCommand();
      fx := fx + dx * FEED_FORWARD;
      fy := fy + dy * FEED_FORWARD;
      ix, iy := Trunc(fx), Trunc(fy);
      assert PushAxis(s.x, dx, s.Width()) == (Axis(tx, fx - 10 * ix), ix);
      assert PushAxis(s.y, dy, s.Height()) == (Axis(ty, fy - 10 * iy), iy);
      if ix == 0 && iy == 0 {
        return 0, 0;
      }
      fx, fy := fx - 10 * ix, fy - 10 * iy;
    }

    method Advance(dx: int, dy: int)
      requires Valid()
      modifies this
      ensures Valid() && State() == old(State()).Advance(dx, dy)
    {
      tx, ty := tx + dx, ty + dy;
      ClampCommand();
    }

    method Reanchor(x: int, y: int)
      requires Valid()
      modifies this
      ensures Valid() && State() == old(State()).PlaceAt(x, y)
    {
      tx, ty := x, y;
      fx, fy := 0, 0;
      ClampCommand();
    }

    method Correct(cursor: (int, int)) returns (injection: Option<(int, int)>)
      requires Valid()
      modifies this
      ensures Valid()
      ensures State() == old(State()).Correct(cursor).0
      ensures injection.None? <==> old(State()).Correct(cursor).1 == (0, 0)
      ensures injection.Some? ==> injection.value == old(State()).Correct(cursor).1
    {
      ghost var s := State();
      OpKeepsInvariant(s, CorrectOp(cursor));
      assert SubPixel(s.x) && SubPixel(s.y) && s.Correct(cursor).0.Invariant();
      hide Follower.Invariant, Clamp;
      if !active {
        return None;
      }
      var ex := Clamp((tx - cursor.0) * FOLLOW_GAIN, -FOLLOW_MAX_STEP, FOLLOW_MAX_STEP);
      var ey := Clamp((ty - cursor.1) * FOLLOW_GAIN, -FOLLOW_MAX_STEP, FOLLOW_MAX_STEP);
      if ex == 0 && ey == 0 {
        assert CorrectAxis(s.x, cursor.0) == (s.x, 0) && CorrectAxis(s.y, cursor.1) == (s.y, 0);
        return None;
      }
      hide Trunc, SubPixel;
      fx, fy := fx + ex, fy + ey;
      var ix, iy := Trunc(fx), Trunc(fy);
      assert CorrectAxis(s.x, cursor.0) == (Axis(tx, fx - 10 * ix), ix);
      assert CorrectAxis(s.y, cursor.1) == (Axis(ty, fy - 10 * iy), iy);
      if ix == 0 && iy == 0 {
        return None;
      }
      fx, fy := fx - 10 * ix, fy - 10 * iy;
      return Some((ix, iy));
    }

    method Flush(cursor: (int, int)) returns (injection: Option<(int, int)>)
      requires Valid()
      modifies this
      ensures Valid()
      ensures State() == old(State()).Flush(cursor).0
      ensures injection.None? <==> old(State()).Flush(cursor).1 == (0, 0)
      ensures injection.Some? ==> injection.value == old(State()).Flush(cursor).1
    {
      if !active {
        return None;
      }
      var ex := Clamp(tx - cursor.0, -FOLLOW_FLUSH_CAP, FOLLOW_FLUSH_CAP);
      var ey := Clamp(ty - cursor.1, -FOLLOW_FLUSH_CAP, FOLLOW_FLUSH_CAP);
      fx, fy := 0, 0;
      if ex == 0 && ey == 0 {
        return None;
      }
      return Some((ex, ey));
    }
  }

  // ---------------------------------------------------------------------------
  // Whole runs
  // ---------------------------------------------------------------------------

  datatype Op =
    | SetBoundsOp(w: nat, h: nat)
    | EnterOp(ex: int, ey: int)
    | LeaveOp
    | PushOp(dx: int, dy: int)
    | AdvanceOp(dx: int, dy: int)
    | ReanchorOp(ax: int, ay: int)
    | CorrectOp(cursor: (int, int))
    | FlushOp(cursor: (int, int))

  function Apply(f: Follower, op: Op): Follower {
    match op
    case SetBoundsOp(w, h) => f.SetBounds(w, h)
    case EnterOp(px, py) => f.Enter(px, py)
    case LeaveOp => f.Leave()
    case PushOp(dx, dy) => f.Push(dx, dy).0
    case AdvanceOp(dx, dy) => f.Advance(dx, dy)
    case ReanchorOp(px, py) => f.PlaceAt(px, py)
    case CorrectOp(cursor) => f.Correct(cursor).0
    case FlushOp(cursor) => f.Flush(cursor).0
  }

  function Run(f: Follower, ops: seq<Op>): Follower
    decreases |ops|
  {
    if ops == [] then f else Run(Apply(f, ops[0]), ops[1..])
  }

  lemma OpKeepsInvariant(f: Follower, op: Op)
    requires f.Invariant()
    ensures Apply(f, op).Invariant()
  {
  }

  /** Every run keeps both carries strictly inside one pixel and the command on the screen. */
  lemma {:induction false} RunKeepsInvariant(f: Follower, ops: seq<Op>)
    requires f.Invariant()
    ensures Run(f, ops).Invariant()
    decreases |ops|
  {
    if ops != [] {
      OpKeepsInvariant(f, ops[0]);
      RunKeepsInvariant(Apply(f, ops[0]), ops[1..]);
    }
  }

  // ---------------------------------------------------------------------------
  // Feedforward: half of the hand's motion, for ever
  // ---------------------------------------------------------------------------

  function Sum(s: seq<int>): int {
    if s == [] then 0 else s[0] + Sum(s[1..])
  }

  /** Total counts injected by pushing the frames `ds` one after the other. */
  function PushAll(a: Axis, ds: seq<int>, size: Option<nat>): (r: (Axis, int))
    decreases |ds|
  {
    if ds == [] then (a, 0)
    else
      var (a1, i) := PushAxis(a, ds[0], size);
      var (a2, total) := PushAll(a1, ds[1..], size);
      (a2, i + total)
  }

  lemma {:induction false} PushLedger(a: Axis, ds: seq<int>, size: Option<nat>)
    requires SubPixel(a)
    ensures var (b, total) := PushAll(a, ds, size);
            SubPixel(b) && 10 * total + b.carry == a.carry + FEED_FORWARD * Sum(ds)
    decreases |ds|
  {
    if ds != [] {
      PushLedger(PushAxis(a, ds[0], size).0, ds[1..], size);
    }
  }

  function Sign(x: int): int {
    if x > 0 then 1 else if x < 0 then -1 else 0
  }

  /** Which way the last frame that moved at all went. */
  function LastSign(ds: seq<int>): int {
    if ds == [] then 0
    else if LastSign(ds[1..]) != 0 then LastSign(ds[1..])
    else Sign(ds[0])
  }

  /** A carry of half a pixel or none stays one; the last frame that moves decides its side. */
  lemma {:induction false} CarryOfFrames(a: Axis, ds: seq<int>, size: Option<nat>)
    requires a.carry in {-5, 0, 5}
    ensures var carry := PushAll(a, ds, size).0.carry;
            if LastSign(ds) == 0 then carry == a.carry else carry in {0, 5 * LastSign(ds)}
    decreases |ds|
  {
    hide PushAxis;
    if ds != [] {
      OneFrameCarry(a, ds[0], size);
      CarryOfFrames(PushAxis(a, ds[0], size).0, ds[1..], size);
    }
  }

  lemma OneFrameCarry(a: Axis, d: int, size: Option<nat>)
    requires a.carry in {-5, 0, 5}
    ensures var carry := PushAxis(a, d, size).0.carry;
            if d == 0 then carry == a.carry else carry in {0, 5 * Sign(d)}
  {
    var halves := d + if a.carry == 5 then 1 else if a.carry == 0 then 0 else -1;
    assert PushAxis(a, d, size).0.carry == 5 * halves - 10 * Trunc(5 * halves);
    hide PushAxis, Trunc;
    HalfPixelLeft(halves);
  }

  /** Truncating a number of half pixels leaves half a pixel on the same side when it is odd, and nothing otherwise. */
  lemma HalfPixelLeft(halves: int)
    ensures var left := 5 * halves - 10 * Trunc(5 * halves);
            left in {0, 5 * Sign(halves)} && (halves in {-1, 1} ==> left == 5 * halves)
  {
    var pixels := Trunc(5 * halves);
    assert -10 < 5 * halves - 10 * pixels < 10;
    assert 5 * halves - 10 * pixels == 5 * (halves - 2 * pixels);
  }

  /**
   The feedforward over a whole session, exactly: starting from a fresh carry, twice the counts
   injected for any list of frames is their sum when that is even; when it is odd, it is one pixel
   off, against the direction of the last frame that moved. Clamping the command changes nothing.
   */
  lemma FeedForwardExcess(a: Axis, ds: seq<int>, size: Option<nat>)
    requires a.carry == 0
    ensures 2 * PushAll(a, ds, size).1 - Sum(ds) == if Sum(ds) % 2 == 0 then 0 else -LastSign(ds)
  {
    hide PushAll, Sum, LastSign;
    PushLedger(a, ds, size);
    CarryOfFrames(a, ds, size);
    LastSignIsASign(ds);
    HalfOfTenths(PushAll(a, ds, size).1, PushAll(a, ds, size).0.carry, Sum(ds), LastSign(ds));
  }

  lemma HalfOfTenths(total: int, carry: int, sum: int, last: int)
    requires last in {-1, 0, 1} && carry in {0, 5 * last}
    requires 10 * total + carry == FEED_FORWARD * sum
    ensures 2 * total - sum == if sum % 2 == 0 then 0 else -last
  {
    var gap := 2 * total - sum;
    assert 5 * gap == -carry;
    assert gap in {0, -last};
    assert sum == 2 * total - gap;
  }

  /**
   So injecting half of every frame does overshoot half of the whole, against a cursor that doubles
   its input by one pixel, exactly when the hand has gone an odd distance and turned back last.
   */
  lemma FeedForwardOvershootsIff(a: Axis, ds: seq<int>, size: Option<nat>)
    requires a.carry == 0
    ensures Abs(2 * PushAll(a, ds, size).1) > Abs(Sum(ds)) <==>
              Sum(ds) % 2 != 0 && LastSign(ds) == -Sign(Sum(ds))
  {
    FeedForwardExcess(a, ds, size);
    LastSignIsASign(ds);
  }

  lemma {:induction false} LastSignIsASign(ds: seq<int>)
    ensures LastSign(ds) in {-1, 0, 1}
    decreases |ds|
  {
    if ds != [] { LastSignIsASign(ds[1..]); }
  }

  /** Never by more: a cursor that doubles its input is within a pixel of where the hand has gone. */
  lemma FeedForwardIsHalf(a: Axis, ds: seq<int>, size: Option<nat>)
    requires a.carry == 0
    ensures -1 <= 2 * PushAll(a, ds, size).1 - Sum(ds) <= 1
  {
    FeedForwardExcess(a, ds, size);
    LastSignIsASign(ds);
  }

  /** Three pixels forward and two back overshoot. */
  lemma FeedForwardAllowanceIsNeeded(a: Axis, size: Option<nat>)
    requires a.carry == 0
    ensures 2 * PushAll(a, [3, -2], size).1 - Sum([3, -2]) == 1
  {
    assert [3, -2][1..] == [-2] && [-2][1..] == [];
    assert LastSign([-2]) == -1;
    FeedForwardExcess(a, [3, -2], size);
  }

  // ---------------------------------------------------------------------------
  // The loop closed over an operating system
  // ---------------------------------------------------------------------------

  /** The cursor moved `moved` pixels for `counts` injected: somewhere between `low` and 2 times. */
  predicate Plant(counts: int, moved: int, low: nat) {
    if counts >= 0 then low * counts <= moved <= 2 * counts else 2 * counts <= moved <= low * counts
  }

  /** Real moves, one per tick, that an operating system with gains in `[low, 2]` may make. */
  predicate Admissible(a: Axis, cursor: int, moves: seq<int>, low: nat)
    decreases |moves|
  {
    moves == [] ||
    (var (b, counts) := CorrectAxis(a, cursor);
     Plant(counts, moves[0], low) && Admissible(b, cursor + moves[0], moves[1..], low))
  }

  /** Carry and real position after one correction tick per element of `moves`. */
  function Loop(a: Axis, cursor: int, moves: seq<int>): (Axis, int)
    decreases |moves|
  {
    if moves == [] then (a, cursor)
    else Loop(CorrectAxis(a, cursor).0, cursor + moves[0], moves[1..])
  }

  function ErrorOf(p: (Axis, int)): int {
    p.0.target - p.1
  }

  /** One tick against any amplifying or absorbing operating system. */
  lemma StableTick(a: Axis, cursor: int, moved: int)
    requires SubPixel(a)
    requires Plant(CorrectAxis(a, cursor).1, moved, 0)
    ensures SubPixel(CorrectAxis(a, cursor).0) && CorrectAxis(a, cursor).0.target == a.target
    ensures var e := a.target - cursor; var e' := e - moved;
            && Abs(e') <= Abs(e)
            && (e >= 0 ==> e' >= -1)
            && (e <= 0 ==> e' <= 1)
  {
  }

  /**
   Stability: while the cursor moves anywhere between 0 and 2 times what was injected,
   tick by tick and differently each tick, the error never grows and the cursor never
   ends more than one pixel past the command.
   */
  lemma {:induction false} LoopIsStable(a: Axis, cursor: int, moves: seq<int>)
    requires SubPixel(a)
    requires Admissible(a, cursor, moves, 0)
    ensures var e := a.target - cursor; var e' := ErrorOf(Loop(a, cursor, moves));
            && Loop(a, cursor, moves).0.target == a.target
            && SubPixel(Loop(a, cursor, moves).0)
            && Abs(e') <= Abs(e)
            && (e >= -1 ==> e' >= -1)
            && (e <= 1 ==> e' <= 1)
    decreases |moves|
  {
    if moves != [] {
      StableTick(a, cursor, moves[0]);
      LoopIsStable(CorrectAxis(a, cursor).0, cursor + moves[0], moves[1..]);
    }
  }

  lemma {:induction false} FasterIsAdmissible(a: Axis, cursor: int, moves: seq<int>)
    requires Admissible(a, cursor, moves, 1)
    ensures Admissible(a, cursor, moves, 0)
    decreases |moves|
  {
    if moves != [] {
      FasterIsAdmissible(CorrectAxis(a, cursor).0, cursor + moves[0], moves[1..]);
    }
  }

  /** Tenths of a pixel still to be worked off: the error, less what the carry already holds. */
  function Outstanding(a: Axis, cursor: int): int {
    var e := a.target - cursor;
    if e >= 0 then 10 * e - a.carry else -10 * e + a.carry
  }

  /** While the error is at least two pixels, a tick works off eight tenths or ends within a pixel. */
  lemma ConvergingTick(a: Axis, cursor: int, moved: int)
    requires SubPixel(a) && Abs(a.target - cursor) >= 2
    requires Plant(CorrectAxis(a, cursor).1, moved, 1)
    ensures Abs(a.target - (cursor + moved)) <= 1
         || Outstanding(CorrectAxis(a, cursor).0, cursor + moved) <= Outstanding(a, cursor) - 8
  {
    var e := a.target - cursor;
    var counts := CorrectAxis(a, cursor).1;
    if e >= 0 {
      assert counts >= 0;
    } else {
      assert counts <= 0;
    }
  }

  lemma {:induction false} WorksOff(a: Axis, cursor: int, moves: seq<int>)
    requires SubPixel(a)
    requires Admissible(a, cursor, moves, 1)
    requires Abs(a.target - cursor) <= 1 || 8 * |moves| >= Outstanding(a, cursor)
    ensures Abs(ErrorOf(Loop(a, cursor, moves))) <= 1
    decreases |moves|
  {
    if Abs(a.target - cursor) <= 1 {
      FasterIsAdmissible(a, cursor, moves);
      LoopIsStable(a, cursor, moves);
    } else {
      assert Outstanding(a, cursor) > 0;
      StableTick(a, cursor, moves[0]);
      ConvergingTick(a, cursor, moves[0]);
      WorksOff(CorrectAxis(a, cursor).0, cursor + moves[0], moves[1..]);
    }
  }

  /**
   Convergence: when the cursor moves between 1 and 2 times what was injected, the error is
   at most one pixel after ten eighths of (|e| + 1) ticks, and at every tick from then on.
   */
  lemma LoopConverges(a: Axis, cursor: int, moves: seq<int>)
    requires SubPixel(a)
    requires Admissible(a, cursor, moves, 1)
    requires 8 * |moves| >= 10 * (Abs(a.target - cursor) + 1)
    ensures Abs(ErrorOf(Loop(a, cursor, moves))) <= 1
  {
    WorksOff(a, cursor, moves);
  }

  // ---------------------------------------------------------------------------
  // A faithful (1:1) operating system
  // ---------------------------------------------------------------------------

  /** One tick of the motion thread on both axes: the cursor moves exactly by the injected counts. */
  function FaithfulTick(f: Follower, cursor: (int, int)): (Follower, (int, int)) {
    var (g, counts) := f.Correct(cursor);
    (g, (cursor.0 + counts.0, cursor.1 + counts.1))
  }

  function FaithfulLoop(f: Follower, cursor: (int, int), ticks: nat): (Follower, (int, int))
    decreases ticks
  {
    if ticks == 0 then (f, cursor)
    else
      var (g, p) := FaithfulTick(f, cursor);
      FaithfulLoop(g, p, ticks - 1)
  }

  /** No sign flip, at most 32 counts, and one tick works off four times the error. */
  lemma FaithfulAxisTick(a: Axis, cursor: int)
    requires SubPixel(a)
    ensures var (b, counts) := CorrectAxis(a, cursor);
            var e := a.target - cursor; var e' := b.target - (cursor + counts);
            && b.target == a.target && SubPixel(b)
            && -32 <= counts <= 32
            && (e >= 0 ==> 0 <= e' <= e) && (e <= 0 ==> e <= e' <= 0)
            && (e' != 0 ==> Outstanding(b, cursor + counts) <= Outstanding(a, cursor) - 4)
  {
  }

  /** Distance to the command on the worse axis. */
  function Distance(f: Follower, cursor: (int, int)): nat {
    Max(Abs(f.x.target - cursor.0), Abs(f.y.target - cursor.1))
  }

  /** Both axes lie between where they are and the command, on the same side of it. */
  predicate Approaches(f: Follower, before: (int, int), after: (int, int)) {
    && (f.x.target >= before.0 ==> before.0 <= after.0 <= f.x.target)
    && (f.x.target <= before.0 ==> f.x.target <= after.0 <= before.0)
    && (f.y.target >= before.1 ==> before.1 <= after.1 <= f.y.target)
    && (f.y.target <= before.1 ==> f.y.target <= after.1 <= before.1)
  }

  predicate Due(a: Axis, cursor: int, ticks: nat) {
    a.target == cursor || 4 * ticks >= Outstanding(a, cursor)
  }

  lemma {:induction false} LandsWhenDue(f: Follower, cursor: (int, int), ticks: nat)
    requires f.Invariant() && f.active
    ensures var (g, p) := FaithfulLoop(f, cursor, ticks);
            && g.Invariant() && g.active && g.Command() == f.Command()
            && Approaches(f, cursor, p)
            && (Due(f.x, cursor.0, ticks) ==> p.0 == f.x.target)
            && (Due(f.y, cursor.1, ticks) ==> p.1 == f.y.target)
    decreases ticks
  {
    if ticks > 0 {
      FaithfulAxisTick(f.x, cursor.0);
      FaithfulAxisTick(f.y, cursor.1);
      var (g, p) := FaithfulTick(f, cursor);
      LandsWhenDue(g, p, ticks - 1);
    }
  }

  /**
   Exact landing: from the state that any run of operations leaves behind, correction ticks
   against a 1:1 cursor approach the command monotonically on both axes and reach it exactly
   within 2.5 * (distance + 1) ticks; more ticks change nothing.
   */
  lemma ExactLanding(start: Follower, ops: seq<Op>, cursor: (int, int), ticks: nat)
    requires start.Invariant() && Run(start, ops).active
    ensures var f := Run(start, ops);
            var (g, p) := FaithfulLoop(f, cursor, ticks);
            && g.Invariant() && Approaches(f, cursor, p)
            && (4 * ticks >= 10 * (Distance(f, cursor) + 1) ==> p == f.Command())
  {
    RunKeepsInvariant(start, ops);
    LandsWhenDue(Run(start, ops), cursor, ticks);
  }

  /** A flush lands a click on the command whenever the residual is within the cap, and only then. */
  lemma FlushLandsWithinCap(f: Follower, cursor: (int, int))
    requires f.active
    ensures var counts := f.Flush(cursor).1;
            (cursor.0 + counts.0, cursor.1 + counts.1) == f.Command() <==> Distance(f, cursor) <= FOLLOW_FLUSH_CAP
  {
  }

  // ---------------------------------------------------------------------------
  // Loss tolerance
  // ---------------------------------------------------------------------------

  predicate IsFrame(op: Op) {
    op.PushOp? || op.AdvanceOp?
  }

  /** The run in which every motion frame marked in `lost` never arrived. */
  function Surviving(ops: seq<Op>, lost: seq<bool>): seq<Op>
    requires |lost| == |ops|
  {
    if ops == [] then []
    else if lost[0] && IsFrame(ops[0]) then Surviving(ops[1..], lost[1..])
    else [ops[0]] + Surviving(ops[1..], lost[1..])
  }

  /** Sum of the absolute lost deltas, per axis. */
  function LostTravel(ops: seq<Op>, lost: seq<bool>): (nat, nat)
    requires |lost| == |ops|
  {
    if ops == [] then (0, 0)
    else
      var (x, y) := LostTravel(ops[1..], lost[1..]);
      if lost[0] && IsFrame(ops[0]) then (x + Abs(ops[0].dx), y + Abs(ops[0].dy)) else (x, y)
  }

  predicate Close(f: Follower, g: Follower, dx: nat, dy: nat) {
    && f.bounds == g.bounds
    && Abs(f.x.target - g.x.target) <= dx
    && Abs(f.y.target - g.y.target) <= dy
  }

  lemma SameOpKeepsClose(f: Follower, g: Follower, op: Op, dx: nat, dy: nat)
    requires Close(f, g, dx, dy)
    ensures Close(Apply(f, op), Apply(g, op), dx, dy)
  {
  }

  lemma LostFrameKeepsClose(f: Follower, g: Follower, op: Op, dx: nat, dy: nat)
    requires g.Invariant() && Close(f, g, dx, dy) && IsFrame(op)
    ensures Close(Apply(f, op), g, dx + Abs(op.dx), dy + Abs(op.dy))
  {
  }

  /** What the first operation of a run contributes, lost or not. */
  lemma SplitRun(f: Follower, g: Follower, ops: seq<Op>, lost: seq<bool>)
    requires |lost| == |ops| && ops != []
    ensures Run(f, ops) == Run(Apply(f, ops[0]), ops[1..])
    ensures Run(g, Surviving(ops, lost)) ==
            Run(if lost[0] && IsFrame(ops[0]) then g else Apply(g, ops[0]), Surviving(ops[1..], lost[1..]))
    ensures LostTravel(ops, lost) ==
            var (x, y) := LostTravel(ops[1..], lost[1..]);
            if lost[0] && IsFrame(ops[0]) then (x + Abs(ops[0].dx), y + Abs(ops[0].dy)) else (x, y)
  {
    hide Apply;
    if !(lost[0] && IsFrame(ops[0])) { RunFirst(g, ops[0], Surviving(ops[1..], lost[1..])); }
  }

  lemma RunFirst(f: Follower, op: Op, rest: seq<Op>)
    ensures Run(f, [op] + rest) == Run(Apply(f, op), rest)
  {
    hide Apply;
    assert ([op] + rest)[1..] == rest;
  }

  lemma {:induction false} LossAccumulates(f: Follower, g: Follower, ops: seq<Op>, lost: seq<bool>, dx: nat, dy: nat)
    requires |lost| == |ops|
    requires g.Invariant() && Close(f, g, dx, dy)
    ensures var (lx, ly) := LostTravel(ops, lost);
            Close(Run(f, ops), Run(g, Surviving(ops, lost)), dx + lx, dy + ly)
    decreases |ops|
  {
    if ops != [] {
      var op, rest, gone, later := ops[0], ops[1..], lost[0], lost[1..];
      SplitRun(f, g, ops, lost);
      OpKeepsInvariant(g, op);
      if gone && IsFrame(op) {
        LostFrameKeepsClose(f, g, op, dx, dy);
        LossAccumulates(Apply(f, op), g, rest, later, dx + Abs(op.dx), dy + Abs(op.dy));
      } else {
        SameOpKeepsClose(f, g, op, dx, dy);
        LossAccumulates(Apply(f, op), Apply(g, op), rest, later, dx, dy);
      }
    }
  }

  /**
   Losing frames costs at most the pixels they carried: whatever frames are lost from a run,
   the command ends within the sum of the lost deltas of the lossless command, axis by axis.
   */
  lemma LossIsBounded(f: Follower, ops: seq<Op>, lost: seq<bool>)
    requires |lost| == |ops| && f.Invariant()
    ensures var (lx, ly) := LostTravel(ops, lost);
            Close(Run(f, ops), Run(f, Surviving(ops, lost)), lx, ly)
  {
    LossAccumulates(f, f, ops, lost, 0, 0);
  }

  /** Pushing a whole screen into a wall erases any difference between two runs on that axis. */
  lemma WallErasesDifference(f: Follower, g: Follower, dx: int, dy: int)
    requires f.Invariant() && g.Invariant() && f.bounds == g.bounds && f.bounds.Some?
    ensures Abs(dx) >= f.bounds.value.0 ==> f.Advance(dx, dy).x.target == g.Advance(dx, dy).x.target
    ensures Abs(dy) >= f.bounds.value.1 ==> f.Advance(dx, dy).y.target == g.Advance(dx, dy).y.target
    ensures f.Advance(dx, dy).Command() == f.Push(dx, dy).0.Command()
  {
  }
}
