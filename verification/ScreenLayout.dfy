/** The virtual desktop: which screen a cursor reaches when it leaves another, and where it enters. */
module ScreenLayout {
  import opened Basics

  const EDGE_TOLERANCE := 16

  datatype Direction = Left | Right | Top | Bottom

  /** Half-open: a screen's last column is `XEnd() - 1`, its last row `YEnd() - 1`. */
  datatype Rect = Rect(x: int, y: int, w: int, h: int) {
    function XEnd(): int { x + w }
    function YEnd(): int { y + h }

    predicate Contains(px: int, py: int) {
      x <= px < XEnd() && y <= py < YEnd()
    }
  }

  datatype Screen = Screen(id: nat, name: string, rect: Rect)

  predicate Horizontal(dir: Direction) {
    dir.Left? || dir.Right?
  }

  function Opposite(dir: Direction): Direction {
    match dir
    case Left => Right
    case Right => Left
    case Top => Bottom
    case Bottom => Top
  }

  function FindIndex(screens: seq<Screen>, id: nat): (r: Option<nat>)
    ensures r.Some? ==> r.value < |screens| && screens[r.value].id == id
                        && forall j | 0 <= j < r.value :: screens[j].id != id
    ensures r.None? ==> forall s <- screens :: s.id != id
  {
    if screens == [] then None
    else if screens[0].id == id then Some(0)
    else
      var later := FindIndex(screens[1..], id);
      if later.Some? then Some(later.value + 1) else None
  }

  // ---------------------------------------------------------------------------
  // The ray cast
  // ---------------------------------------------------------------------------

  /** The side of `s` across the ray: its rows for a horizontal ray, its columns for a vertical one. */
  function SpanLo(dir: Direction, s: Rect): int {
    if Horizontal(dir) then s.y else s.x
  }

  function SpanHi(dir: Direction, s: Rect): int {
    if Horizontal(dir) then s.YEnd() else s.XEnd()
  }

  /** The edge of `s` the ray meets first. */
  function FacingEdge(dir: Direction, s: Rect): int {
    match dir
    case Left => s.XEnd()
    case Right => s.x
    case Top => s.YEnd()
    case Bottom => s.y
  }

  /** The edge of `s` the ray leaves through. */
  function ExitEdge(dir: Direction, s: Rect): int {
    FacingEdge(Opposite(dir), s)
  }

  predicate Past(dir: Direction, from: Rect, s: Rect) {
    if dir.Left? || dir.Top? then FacingEdge(dir, s) <= ExitEdge(dir, from) + EDGE_TOLERANCE
    else FacingEdge(dir, s) >= ExitEdge(dir, from) - EDGE_TOLERANCE
  }

  /** Distance from the exit coordinate to the span of `s`. */
  function Perp(dir: Direction, s: Rect, exit: int): int {
    var lo, hi := SpanLo(dir, s), SpanHi(dir, s);
    if exit < lo then lo - exit
    else if exit >= hi then exit - Max(hi - 1, lo)
    else 0
  }

  /** Distance flown from the exit edge to the facing edge of `s`. */
  function Parallel(dir: Direction, from: Rect, s: Rect): int {
    if dir.Left? || dir.Top? then Max(ExitEdge(dir, from) - FacingEdge(dir, s), 0)
    else Max(FacingEdge(dir, s) - ExitEdge(dir, from), 0)
  }

  predicate Closer(a: (int, int), b: (int, int)) {
    a.0 < b.0 || (a.0 == b.0 && a.1 < b.1)
  }

  function Score(dir: Direction, from: Rect, s: Rect, exit: int): (int, int) {
    (Perp(dir, s, exit), Parallel(dir, from, s))
  }

  function ExitCoordinate(dir: Direction, atX: int, atY: int): int {
    if Horizontal(dir) then atY else atX
  }

  /** Entry point in the destination's own coordinates. */
  function EntryPoint(dir: Direction, s: Rect, atX: int, atY: int): (int, int) {
    var alongX := Clamp(atX - s.x, 0, Max(s.w - 1, 0));
    var alongY := Clamp(atY - s.y, 0, Max(s.h - 1, 0));
    match dir
    case Left => (Max(s.w - 1, 0), alongY)
    case Right => (0, alongY)
    case Top => (alongX, Max(s.h - 1, 0))
    case Bottom => (alongX, 0)
  }

  datatype Crossing = Crossing(id: nat, x: int, y: int)

  predicate Candidate(screens: seq<Screen>, fromId: nat, from: Rect, dir: Direction, k: nat)
    requires k < |screens|
  {
    screens[k].id != fromId && Past(dir, from, screens[k].rect)
  }

  /** The best candidate among the first `n` screens, as a scan finds it. */
  function BestBefore(screens: seq<Screen>, fromId: nat, from: Rect, dir: Direction, exit: int, n: nat)
    : (r: Option<nat>)
    requires n <= |screens|
    ensures r.Some? ==> r.value < n
  {
    if n == 0 then None
    else
      var best := BestBefore(screens, fromId, from, dir, exit, n - 1);
      if Candidate(screens, fromId, from, dir, n - 1)
         && (best.None? || Closer(Score(dir, from, screens[n - 1].rect, exit),
                                  Score(dir, from, screens[best.value].rect, exit)))
      then Some(n - 1)
      else best
  }

  function Neighbor(screens: seq<Screen>, fromId: nat, dir: Direction, atX: int, atY: int): Option<Crossing> {
    var from := FindIndex(screens, fromId);
    if from.None? then None
    else
      var best := BestBefore(screens, fromId, screens[from.value].rect, dir, ExitCoordinate(dir, atX, atY), |screens|);
      if best.None? then None
      else
        var s := screens[best.value];
        var (x, y) := EntryPoint(dir, s.rect, atX, atY);
        Some(Crossing(s.id, x, y))
  }

  /** Is `r` past the exit edge, and if so how far from the exit point? */
  method Measure(dir: Direction, from: Rect, r: Rect, exit: int) returns (past: bool, perp: int, parallel: int)
    ensures past == Past(dir, from, r)
    ensures (perp, parallel) == Score(dir, from, r, exit)
  {
    var lo, hi;
    match dir {
      case Left =>
        lo, hi, past := r.y, r.YEnd(), r.XEnd() <= from.x + EDGE_TOLERANCE;
        parallel := Max(from.x - r.XEnd(), 0);
      case Right =>
        lo, hi, past := r.y, r.YEnd(), r.x >= from.XEnd() - EDGE_TOLERANCE;
        parallel := Max(r.x - from.XEnd(), 0);
      case Top =>
        lo, hi, past := r.x, r.XEnd(), r.YEnd() <= from.y + EDGE_TOLERANCE;
        parallel := Max(from.y - r.YEnd(), 0);
      case Bottom =>
        lo, hi, past := r.x, r.XEnd(), r.y >= from.YEnd() - EDGE_TOLERANCE;
        parallel := Max(r.y - from.YEnd(), 0);
    }
    perp := if exit < lo then lo - exit else if exit >= hi then exit - Max(hi - 1, lo) else 0;
  }

  /** The scan over the screens: skip the screen itself and what is not past the edge, keep the best. */
  method FindNeighbor(screens: seq<Screen>, fromId: nat, dir: Direction, atX: int, atY: int)
      returns (crossing: Option<Crossing>)
    ensures crossing == Neighbor(screens, fromId, dir, atX, atY)
  {
    var index := FindIndex(screens, fromId);
    if index.None? {
      return None;
    }
    var from := screens[index.value].rect;
    var exit := ExitCoordinate(dir, atX, atY);
    var best: Option<(int, int, nat)> := None;
    for n := 0 to |screens|
      invariant best.None? ==> BestBefore(screens, fromId, from, dir, exit, n) == None
      invariant best.Some? ==>
        && BestBefore(screens, fromId, from, dir, exit, n) == Some(best.value.2)
        && Score(dir, from, screens[best.value.2].rect, exit) == (best.value.0, best.value.1)
    {
      if screens[n].id == fromId {
        continue;
      }
      var past, perp, parallel := Measure(dir, from, screens[n].rect, exit);
      if !past {
        continue;
      }
      if best.None? || Closer((perp, parallel), (best.value.0, best.value.1)) {
        best := Some((perp, parallel, n));
      }
    }
    if best.None? {
      return None;
    }
    var s := screens[best.value.2];
    var entry := EntryPoint(dir, s.rect, atX, atY);
    return Some(Crossing(s.id, entry.0, entry.1));
  }

  // ---------------------------------------------------------------------------
  // Optimality
  // ---------------------------------------------------------------------------

  /** Screen `k` is a candidate nobody beats, and nobody before it in the list equals. */
  ghost predicate IsDestination(
      screens: seq<Screen>, fromId: nat, from: Rect, dir: Direction, exit: int, n: nat, k: nat)
    requires n <= |screens|
  {
    && k < n && Candidate(screens, fromId, from, dir, k)
    && forall j: nat | j < n && Candidate(screens, fromId, from, dir, j) ::
         var best, other := Score(dir, from, screens[k].rect, exit), Score(dir, from, screens[j].rect, exit);
         !Closer(other, best) && (j < k ==> Closer(best, other))
  }

  lemma {:induction false} BestIsDestination(
      screens: seq<Screen>, fromId: nat, from: Rect, dir: Direction, exit: int, n: nat)
    requires n <= |screens|
    ensures var best := BestBefore(screens, fromId, from, dir, exit, n);
            && (best.None? ==> forall j: nat | j < n :: !Candidate(screens, fromId, from, dir, j))
            && (best.Some? ==> IsDestination(screens, fromId, from, dir, exit, n, best.value))
  {
    if n > 0 {
      BestIsDestination(screens, fromId, from, dir, exit, n - 1);
    }
  }

  /**
   `Neighbor` is the ray cast's definition: nothing exactly when the screen is unknown or no
   other screen lies past that edge, otherwise the first screen in list order that minimises
   (perpendicular, parallel) distance.
   */
  lemma NeighborIsOptimal(screens: seq<Screen>, fromId: nat, dir: Direction, atX: int, atY: int)
    ensures var r := Neighbor(screens, fromId, dir, atX, atY);
            var from := FindIndex(screens, fromId);
            var exit := ExitCoordinate(dir, atX, atY);
            && (r.None? <==> from.None? || forall j: nat | j < |screens| ::
                               !Candidate(screens, fromId, screens[from.value].rect, dir, j))
            && (r.Some? ==> exists k: nat ::
                  && IsDestination(screens, fromId, screens[from.value].rect, dir, exit, |screens|, k)
                  && var (x, y) := EntryPoint(dir, screens[k].rect, atX, atY);
                     r.value == Crossing(screens[k].id, x, y))
  {
    var from := FindIndex(screens, fromId);
    if from.Some? {
      var rect, exit := screens[from.value].rect, ExitCoordinate(dir, atX, atY);
      BestIsDestination(screens, fromId, rect, dir, exit, |screens|);
      hide BestBefore, EntryPoint, Candidate, FindIndex, ExitCoordinate;
      var best := BestBefore(screens, fromId, rect, dir, exit, |screens|);
      if best.Some? { assert IsDestination(screens, fromId, rect, dir, exit, |screens|, best.value); }
      hide IsDestination;
    }
  }

  /** Conversely, whichever screen meets that definition is the one crossed into. */
  lemma DestinationIsChosen(screens: seq<Screen>, i: nat, dir: Direction, atX: int, atY: int, k: nat)
    requires i < |screens| && FindIndex(screens, screens[i].id) == Some(i)
    requires IsDestination(screens, screens[i].id, screens[i].rect, dir, ExitCoordinate(dir, atX, atY), |screens|, k)
    ensures var (x, y) := EntryPoint(dir, screens[k].rect, atX, atY);
            Neighbor(screens, screens[i].id, dir, atX, atY) == Some(Crossing(screens[k].id, x, y))
  {
    var exit := ExitCoordinate(dir, atX, atY);
    BestIsDestination(screens, screens[i].id, screens[i].rect, dir, exit, |screens|);
    assert BestBefore(screens, screens[i].id, screens[i].rect, dir, exit, |screens|) == Some(k);
  }

  /** The desktop turned so that `dir` points to the right. */
  function Turned(dir: Direction, s: Rect): Rect {
    match dir
    case Right => s
    case Left => Rect(-(s.x + s.w), s.y, s.w, s.h)
    case Bottom => Rect(s.y, s.x, s.h, s.w)
    case Top => Rect(-(s.y + s.h), s.x, s.h, s.w)
  }

  /** From row `exit` to the nearest row of `s`; to its first when it has none. */
  function RowsAway(s: Rect, exit: int): nat {
    Abs(exit - Clamp(exit, s.y, Max(s.y + s.h - 1, s.y)))
  }

  /** From the right edge of `from` to `s`, nothing when they overlap. */
  function Flight(from: Rect, s: Rect): nat {
    Max(s.x - (from.x + from.w), 0)
  }

  lemma ScoreTurned(dir: Direction, from: Rect, s: Rect, exit: int)
    ensures Past(dir, from, s) <==> Turned(dir, s).x >= Turned(dir, from).XEnd() - EDGE_TOLERANCE
    ensures Score(dir, from, s, exit) == (RowsAway(Turned(dir, s), exit), Flight(Turned(dir, from), Turned(dir, s)))
  {
  }

  /**
   The ray cast, whichever way it goes, on the desktop turned to the right: the cursor enters the
   screen fewest rows away from where it left; of those the one the shortest flight away; of those
   the first in the list. Only screens past the edge it left through count, within tolerance.
   */
  lemma NeighborIsNearest(screens: seq<Screen>, i: nat, dir: Direction, atX: int, atY: int) returns (k: nat)
    requires i < |screens| && FindIndex(screens, screens[i].id) == Some(i)
    requires Neighbor(screens, screens[i].id, dir, atX, atY).Some?
    ensures k < |screens| && screens[k].id != screens[i].id
    ensures var (x, y) := EntryPoint(dir, screens[k].rect, atX, atY);
            Neighbor(screens, screens[i].id, dir, atX, atY).value == Crossing(screens[k].id, x, y)
    ensures var from, best := Turned(dir, screens[i].rect), Turned(dir, screens[k].rect);
            var exit := if dir.Left? || dir.Right? then atY else atX;
            && best.x >= from.x + from.w - EDGE_TOLERANCE
            && forall j: nat | j < |screens| && screens[j].id != screens[i].id
                               && Turned(dir, screens[j].rect).x >= from.x + from.w - EDGE_TOLERANCE ::
                 var other := Turned(dir, screens[j].rect);
                 || RowsAway(best, exit) < RowsAway(other, exit)
                 || (RowsAway(best, exit) == RowsAway(other, exit) && Flight(from, best) < Flight(from, other))
                 || (RowsAway(best, exit) == RowsAway(other, exit) && Flight(from, best) == Flight(from, other) &&
                     k <= j)
  {
    var id, from := screens[i].id, screens[i].rect;
    var exit := if dir.Left? || dir.Right? then atY else atX;
    assert exit == ExitCoordinate(dir, atX, atY);
    BestIsDestination(screens, id, from, dir, exit, |screens|);
    k := BestBefore(screens, id, from, dir, exit, |screens|).value;
    ScoreTurned(dir, from, screens[k].rect, exit);
    hide BestBefore, EntryPoint, FindIndex, ExitCoordinate, Turned, RowsAway, Flight, Score, Past;
    forall j: nat | j < |screens| && screens[j].id != id
                    && Turned(dir, screens[j].rect).x >= Turned(dir, from).XEnd() - EDGE_TOLERANCE
      ensures Candidate(screens, id, from, dir, j)
      ensures Score(dir, from, screens[j].rect, exit)
           == (RowsAway(Turned(dir, screens[j].rect), exit), Flight(Turned(dir, from), Turned(dir, screens[j].rect)))
    {
      ScoreTurned(dir, from, screens[j].rect, exit);
    }
  }

  /** So a screen that reaches across where the cursor left is entered rather than one that does not, however near. */
  lemma LevelScreensComeFirst(screens: seq<Screen>, i: nat, dir: Direction, atX: int, atY: int, j: nat) returns (k: nat)
    requires i < |screens| && FindIndex(screens, screens[i].id) == Some(i)
    requires j < |screens| && screens[j].id != screens[i].id
    requires Turned(dir, screens[j].rect).x >= Turned(dir, screens[i].rect).XEnd() - EDGE_TOLERANCE
    requires var exit := if dir.Left? || dir.Right? then atY else atX;
             Turned(dir, screens[j].rect).y <= exit < Turned(dir, screens[j].rect).YEnd()
    ensures k < |screens| && Neighbor(screens, screens[i].id, dir, atX, atY).Some?
    ensures Neighbor(screens, screens[i].id, dir, atX, atY).value.id == screens[k].id
    ensures var exit := if dir.Left? || dir.Right? then atY else atX;
            Sized(screens[k].rect) ==> Turned(dir, screens[k].rect).y <= exit < Turned(dir, screens[k].rect).YEnd()
  {
    var exit := if dir.Left? || dir.Right? then atY else atX;
    ScoreTurned(dir, screens[i].rect, screens[j].rect, exit);
    assert Candidate(screens, screens[i].id, screens[i].rect, dir, j);
    NeighborIsOptimal(screens, screens[i].id, dir, atX, atY);
    k := NeighborIsNearest(screens, i, dir, atX, atY);
    assert RowsAway(Turned(dir, screens[j].rect), exit) == 0;
  }

  /**
   On a destination with a size, the entry point is a pixel of it on the edge facing the ray,
   and across the ray no pixel of its span is nearer to the exit coordinate; that distance is
   the perpendicular score.
   */
  lemma EntryIsNearestPixel(dir: Direction, s: Rect, atX: int, atY: int, pixel: int)
    requires s.w > 0 && s.h > 0
    requires SpanLo(dir, s) <= pixel < SpanHi(dir, s)
    ensures var (x, y) := EntryPoint(dir, s, atX, atY);
            var across := if Horizontal(dir) then s.y + y else s.x + x;
            var along := if Horizontal(dir) then s.x + x else s.y + y;
            var exit := ExitCoordinate(dir, atX, atY);
            && 0 <= x < s.w && 0 <= y < s.h
            && along == (if dir.Left? || dir.Top? then FacingEdge(dir, s) - 1 else FacingEdge(dir, s))
            && Abs(across - exit) == Perp(dir, s, exit)
            && Abs(across - exit) <= Abs(pixel - exit)
  {
  }

  // ---------------------------------------------------------------------------
  // What the user is warned about
  // ---------------------------------------------------------------------------

  datatype Issue = NoSize(name: string) | Overlapping(first: string, second: string)

  predicate Sized(s: Rect) {
    s.w > 0 && s.h > 0
  }

  predicate Overlap(a: Rect, b: Rect) {
    a.x < b.XEnd() && b.x < a.XEnd() && a.y < b.YEnd() && b.y < a.YEnd()
  }

  /** Screens with a size overlap exactly when some pixel belongs to both; one without a size has no pixel. */
  lemma OverlapIsACommonPixel(a: Rect, b: Rect)
    ensures Sized(a) <==> exists x, y :: a.Contains(x, y)
    ensures Sized(a) && Sized(b) ==> (Overlap(a, b) <==> exists x, y :: a.Contains(x, y) && b.Contains(x, y))
    ensures forall x, y :: a.Contains(x, y) <==> a.x <= x < a.x + a.w && a.y <= y < a.y + a.h
  {
    if Sized(a) { assert a.Contains(a.x, a.y); }
    if Sized(a) && Sized(b) && Overlap(a, b) {
      var x, y := Max(a.x, b.x), Max(a.y, b.y);
      assert a.Contains(x, y) && b.Contains(x, y);
    }
  }

  predicate Unambiguous(screens: seq<Screen>) {
    && (forall i | 0 <= i < |screens| :: Sized(screens[i].rect))
    && (forall i, j | 0 <= i < j < |screens| :: !Overlap(screens[i].rect, screens[j].rect))
  }

  /** The overlaps of screen `i` with those from `j` on. */
  function OverlapsFrom(screens: seq<Screen>, i: nat, j: nat): seq<Issue>
    requires i < |screens| && j <= |screens|
    decreases |screens| - j
  {
    if j == |screens| then []
    else
      (if Overlap(screens[i].rect, screens[j].rect) then [Overlapping(screens[i].name, screens[j].name)] else [])
      + OverlapsFrom(screens, i, j + 1)
  }

  /** For every screen in list order: that it has no size, or else every later screen it overlaps. */
  function IssuesFrom(screens: seq<Screen>, i: nat): seq<Issue>
    requires i <= |screens|
    decreases |screens| - i
  {
    if i == |screens| then []
    else
      (if Sized(screens[i].rect) then OverlapsFrom(screens, i, i + 1) else [NoSize(screens[i].name)])
      + IssuesFrom(screens, i + 1)
  }

  method Issues(screens: seq<Screen>) returns (out: seq<Issue>)
    ensures out == IssuesFrom(screens, 0)
  {
    out := [];
    for i := 0 to |screens|
      invariant out + IssuesFrom(screens, i) == IssuesFrom(screens, 0)
    {
      var a := screens[i];
      ghost var before, later := out, IssuesFrom(screens, i + 1);
      var found := [NoSize(a.name)];
      if a.rect.w > 0 && a.rect.h > 0 {
        found := OverlapsOf(screens, i);
      }
      hide OverlapsFrom, Sized;
      out := out + found;
      assert before + found + later == before + (found + later);
    }
  }

  method OverlapsOf(screens: seq<Screen>, i: nat) returns (out: seq<Issue>)
    requires i < |screens|
    ensures out == OverlapsFrom(screens, i, i + 1)
  {
    out := [];
    var a := screens[i];
    for j := i + 1 to |screens|
      invariant out + OverlapsFrom(screens, i, j) == OverlapsFrom(screens, i, i + 1)
    {
      var b := screens[j];
      ghost var before, rest := out, OverlapsFrom(screens, i, j + 1);
      var overlapX := a.rect.x < b.rect.XEnd() && b.rect.x < a.rect.XEnd();
      var overlapY := a.rect.y < b.rect.YEnd() && b.rect.y < a.rect.YEnd();
      if overlapX && overlapY {
        out := out + [Overlapping(a.name, b.name)];
        assert out + rest == before + ([Overlapping(a.name, b.name)] + rest);
      } else {
        assert out + rest == before + ([] + rest);
      }
    }
  }

  lemma {:induction false} NoOverlapsFrom(screens: seq<Screen>, i: nat, j: nat)
    requires i < |screens| && j <= |screens|
    ensures OverlapsFrom(screens, i, j) == [] <==>
              forall k | j <= k < |screens| :: !Overlap(screens[i].rect, screens[k].rect)
    decreases |screens| - j
  {
    if j < |screens| { NoOverlapsFrom(screens, i, j + 1); }
  }

  /** No warning is given exactly when every screen has a size and no two overlap. */
  lemma {:induction false} NoIssuesIffUnambiguous(screens: seq<Screen>)
    ensures IssuesFrom(screens, 0) == [] <==> Unambiguous(screens)
  {
    NoIssuesFrom(screens, 0);
  }

  lemma {:induction false} NoIssuesFrom(screens: seq<Screen>, i: nat)
    requires i <= |screens|
    ensures IssuesFrom(screens, i) == [] <==>
              && (forall k | i <= k < |screens| :: Sized(screens[k].rect))
              && (forall k, j | i <= k < j < |screens| :: !Overlap(screens[k].rect, screens[j].rect))
    decreases |screens| - i
  {
    if i < |screens| {
      NoOverlapsFrom(screens, i, i + 1);
      NoIssuesFrom(screens, i + 1);
    }
  }

  // ---------------------------------------------------------------------------
  // Seams
  // ---------------------------------------------------------------------------

  predicate UniqueIds(screens: seq<Screen>) {
    forall i, j | 0 <= i < j < |screens| :: screens[i].id != screens[j].id
  }

  /** Wider and taller than the edge tolerance. */
  predicate Ample(screens: seq<Screen>) {
    forall i | 0 <= i < |screens| :: screens[i].rect.w > EDGE_TOLERANCE && screens[i].rect.h > EDGE_TOLERANCE
  }

  /** `b` touches `a` through `dir` and both reach across the seam at `exit`. */
  predicate Seam(dir: Direction, a: Rect, b: Rect, exit: int) {
    && FacingEdge(dir, b) == ExitEdge(dir, a)
    && SpanLo(dir, a) <= exit < SpanHi(dir, a)
    && SpanLo(dir, b) <= exit < SpanHi(dir, b)
  }

  /** The pixel of `s` next to its edge in direction `dir`, at coordinate `exit` across the ray. */
  function EdgePixel(dir: Direction, s: Rect, exit: int): (int, int) {
    match dir
    case Left => (s.x, exit)
    case Right => (s.XEnd() - 1, exit)
    case Top => (exit, s.y)
    case Bottom => (exit, s.YEnd() - 1)
  }

  /** A screen tied with a touching neighbour would overlap it. */
  lemma SeamHasNoRival(dir: Direction, a: Rect, b: Rect, c: Rect, exit: int)
    requires Seam(dir, a, b, exit) && Sized(b)
    requires c.w > EDGE_TOLERANCE && c.h > EDGE_TOLERANCE
    requires Past(dir, a, c) && Score(dir, a, c, exit) == (0, 0)
    ensures Overlap(b, c)
  {
  }

  lemma FindsItself(screens: seq<Screen>, i: nat)
    requires i < |screens| && UniqueIds(screens)
    ensures FindIndex(screens, screens[i].id) == Some(i)
  {
    var found := FindIndex(screens, screens[i].id);
    assert screens[i] in screens;
  }

  /** The touching screen is the one the ray cast chooses. */
  lemma SeamIsDestination(screens: seq<Screen>, i: nat, j: nat, dir: Direction, exit: int)
    requires i < |screens| && j < |screens| && i != j
    requires UniqueIds(screens) && Unambiguous(screens) && Ample(screens)
    requires Seam(dir, screens[i].rect, screens[j].rect, exit)
    ensures IsDestination(screens, screens[i].id, screens[i].rect, dir, exit, |screens|, j)
  {
    var a, b := screens[i].rect, screens[j].rect;
    assert Score(dir, a, b, exit) == (0, 0);
    forall k: nat | k < |screens| && Candidate(screens, screens[i].id, a, dir, k)
      ensures k != j ==> Score(dir, a, screens[k].rect, exit) != (0, 0)
    {
      if k != j {
        assert !Overlap(screens[Min(j, k)].rect, screens[Max(j, k)].rect);
        if Score(dir, a, screens[k].rect, exit) == (0, 0) {
          SeamHasNoRival(dir, a, b, screens[k].rect, exit);
        }
      }
    }
    assert forall c: Rect :: Perp(dir, c, exit) >= 0 && Parallel(dir, a, c) >= 0;
  }

  lemma EntryAtSeam(dir: Direction, a: Rect, b: Rect, atX: int, atY: int)
    requires Seam(dir, a, b, ExitCoordinate(dir, atX, atY)) && Sized(b)
    ensures var (x, y) := EdgePixel(Opposite(dir), b, ExitCoordinate(dir, atX, atY));
            EntryPoint(dir, b, atX, atY) == (x - b.x, y - b.y)
  {
  }

  /** Crossing a seam from a point of the edge lands on the pixel just across it. */
  lemma SeamCrossing(screens: seq<Screen>, i: nat, j: nat, dir: Direction, atX: int, atY: int)
    requires i < |screens| && j < |screens| && i != j
    requires UniqueIds(screens) && Unambiguous(screens) && Ample(screens)
    requires Seam(dir, screens[i].rect, screens[j].rect, ExitCoordinate(dir, atX, atY))
    ensures var b := screens[j].rect;
            var (x, y) := EdgePixel(Opposite(dir), b, ExitCoordinate(dir, atX, atY));
            Neighbor(screens, screens[i].id, dir, atX, atY) == Some(Crossing(screens[j].id, x - b.x, y - b.y))
  {
    FindsItself(screens, i);
    SeamIsDestination(screens, i, j, dir, ExitCoordinate(dir, atX, atY));
    DestinationIsChosen(screens, i, dir, atX, atY, j);
    EntryAtSeam(dir, screens[i].rect, screens[j].rect, atX, atY);
  }

  /** The crossing that enters screen `s` at a point given in virtual coordinates. */
  function EntryAt(s: Screen, point: (int, int)): Crossing {
    Crossing(s.id, point.0 - s.rect.x, point.1 - s.rect.y)
  }

  /**
   Seams are invisible and reversible, in all four directions: in an unambiguous layout of
   ample screens, leaving A at an edge pixel into a touching screen B lands on the very next
   pixel of the desktop, and leaving B from there back through the seam lands on the pixel of
   A the cursor left.
   */
  lemma SeamIsReversible(screens: seq<Screen>, i: nat, j: nat, dir: Direction, exit: int)
    requires i < |screens| && j < |screens| && i != j
    requires UniqueIds(screens) && Unambiguous(screens) && Ample(screens)
    requires Seam(dir, screens[i].rect, screens[j].rect, exit)
    ensures var a, b := screens[i], screens[j];
            var start, there := EdgePixel(dir, a.rect, exit), EdgePixel(Opposite(dir), b.rect, exit);
            && Neighbor(screens, a.id, dir, start.0, start.1) == Some(EntryAt(b, there))
            && Neighbor(screens, b.id, Opposite(dir), there.0, there.1) == Some(EntryAt(a, start))
            && b.rect.Contains(there.0, there.1)
            && Abs(there.0 - start.0) + Abs(there.1 - start.1) == 1
  {
    var a, b := screens[i].rect, screens[j].rect;
    var start, there := EdgePixel(dir, a, exit), EdgePixel(Opposite(dir), b, exit);
    SeamGeometry(dir, a, b, exit);
    SeamCrossing(screens, i, j, dir, start.0, start.1);
    SeamCrossing(screens, j, i, Opposite(dir), there.0, there.1);
  }

  lemma SeamGeometry(dir: Direction, a: Rect, b: Rect, exit: int)
    requires Seam(dir, a, b, exit) && Sized(a) && Sized(b)
    ensures Seam(Opposite(dir), b, a, exit) && Opposite(Opposite(dir)) == dir
    ensures var start, there := EdgePixel(dir, a, exit), EdgePixel(Opposite(dir), b, exit);
            && ExitCoordinate(dir, start.0, start.1) == exit
            && ExitCoordinate(Opposite(dir), there.0, there.1) == exit
            && b.Contains(there.0, there.1)
            && Abs(there.0 - start.0) + Abs(there.1 - start.1) == 1
  {
  }
}
