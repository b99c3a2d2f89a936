/** Removing layout noise: near-adjacent screens are snapped into exact contact. */
module LayoutNormalization {
  import opened Basics
  import opened ScreenLayout

  const MAX_PASSES := 8

  predicate Near(edgeA: int, edgeB: int) {
    Abs(edgeA - edgeB) <= EDGE_TOLERANCE
  }

  predicate SpansOverlap(aLo: int, aHi: int, bLo: int, bHi: int) {
    aLo - EDGE_TOLERANCE < bHi && bLo - EDGE_TOLERANCE < aHi
  }

  /** Where `b` goes when it is snapped against `a`. */
  function Snap(a: Rect, b: Rect): Rect {
    var rows := SpansOverlap(a.y, a.YEnd(), b.y, b.YEnd());
    var columns := SpansOverlap(a.x, a.XEnd(), b.x, b.XEnd());
    var side :=
      if Near(a.XEnd(), b.x) && rows then b.(x := a.XEnd(), y := if Near(b.y, a.y) then a.y else b.y)
      else if Near(b.XEnd(), a.x) && rows then b.(x := a.x - b.w, y := if Near(b.y, a.y) then a.y else b.y)
      else b;
    if Near(a.YEnd(), b.y) && columns then side.(y := a.YEnd(), x := if Near(side.x, a.x) then a.x else side.x)
    else if Near(b.YEnd(), a.y) && columns then side.(y := a.y - b.h, x := if Near(side.x, a.x) then a.x else side.x)
    else side
  }

  /** Screens after some snapping, and whether any of it moved a screen. */
  datatype Swept = Swept(screens: seq<Screen>, changed: bool)

  function SnapAt(screens: seq<Screen>, i: nat, j: nat): (s: seq<Screen>)
    requires i < |screens| && j < |screens|
    ensures |s| == |screens|
  {
    screens[j := screens[j].(rect := Snap(screens[i].rect, screens[j].rect))]
  }

  predicate Moves(screens: seq<Screen>, i: nat, j: nat)
    requires i < |screens| && j < |screens|
  {
    i != j && Snap(screens[i].rect, screens[j].rect) != screens[j].rect
  }

  /** Snap every screen from `j` on against screen `i`, in list order. */
  function SweepRow(screens: seq<Screen>, i: nat, j: nat): (r: Swept)
    requires i < |screens| && j <= |screens|
    ensures |r.screens| == |screens|
    decreases |screens| - j
  {
    if j == |screens| then Swept(screens, false)
    else if Moves(screens, i, j) then Swept(SweepRow(SnapAt(screens, i, j), i, j + 1).screens, true)
    else SweepRow(screens, i, j + 1)
  }

  /** One pass from row `i` on. */
  function Sweep(screens: seq<Screen>, i: nat): (r: Swept)
    requires i <= |screens|
    ensures |r.screens| == |screens|
    decreases |screens| - i
  {
    if i == |screens| then Swept(screens, false)
    else
      var row := SweepRow(screens, i, 0);
      var rest := Sweep(row.screens, i + 1);
      Swept(rest.screens, row.changed || rest.changed)
  }

  /** The screens after at most `passes` passes, and whether the last one made changed nothing. */
  datatype Outcome = Outcome(screens: seq<Screen>, settled: bool)

  function NormalizeWithin(screens: seq<Screen>, passes: nat): Outcome
    decreases passes
  {
    if passes == 0 then Outcome(screens, false)
    else
      var pass := Sweep(screens, 0);
      if !pass.changed then Outcome(pass.screens, true) else NormalizeWithin(pass.screens, passes - 1)
  }

  method Normalized(original: seq<Screen>) returns (screens: seq<Screen>)
    ensures screens == NormalizeWithin(original, MAX_PASSES).screens
  {
    screens := original;
    for k := 0 to MAX_PASSES
      invariant NormalizeWithin(screens, MAX_PASSES - k).screens == NormalizeWithin(original, MAX_PASSES).screens
    {
      var changed;
      screens, changed := SweepAll(screens);
      if !changed {
        return;
      }
    }
  }

  /** One pass: every screen in turn pulls the others into contact. */
  method SweepAll(original: seq<Screen>) returns (screens: seq<Screen>, changed: bool)
    ensures Swept(screens, changed) == Sweep(original, 0)
  {
    screens, changed := original, false;
    for i := 0 to |original|
      invariant |screens| == |original|
      invariant Sweep(original, 0) == Swept(Sweep(screens, i).screens, changed || Sweep(screens, i).changed)
    {
      var moved;
      screens, moved := SweepAgainst(screens, i);
      changed := changed || moved;
    }
  }

  method SweepAgainst(original: seq<Screen>, i: nat) returns (screens: seq<Screen>, changed: bool)
    requires i < |original|
    ensures Swept(screens, changed) == SweepRow(original, i, 0)
  {
    screens, changed := original, false;
    var a := screens[i].rect;
    for j := 0 to |original|
      invariant |screens| == |original| && screens[i].rect == a
      invariant SweepRow(original, i, 0)
             == Swept(SweepRow(screens, i, j).screens, changed || SweepRow(screens, i, j).changed)
    {
      if i == j {
        continue;
      }
      var b := screens[j].rect;
      var snapped := SnapAgainst(a, b);
      if snapped != b {
        screens := screens[j := screens[j].(rect := snapped)];
        changed := true;
      }
    }
  }

  /** The two pairs of alternatives, each updating the candidate position in turn. */
  method SnapAgainst(a: Rect, b: Rect) returns (nb: Rect)
    ensures nb == Snap(a, b)
  {
    nb := b;
    if Near(a.XEnd(), b.x) && SpansOverlap(a.y, a.YEnd(), b.y, b.YEnd()) {
      nb := nb.(x := a.XEnd());
      if Abs(nb.y - a.y) <= EDGE_TOLERANCE {
        nb := nb.(y := a.y);
      }
    } else if Near(b.XEnd(), a.x) && SpansOverlap(a.y, a.YEnd(), b.y, b.YEnd()) {
      nb := nb.(x := a.x - b.w);
      if Abs(nb.y - a.y) <= EDGE_TOLERANCE {
        nb := nb.(y := a.y);
      }
    }
    if Near(a.YEnd(), b.y) && SpansOverlap(a.x, a.XEnd(), b.x, b.XEnd()) {
      nb := nb.(y := a.YEnd());
      if Abs(nb.x - a.x) <= EDGE_TOLERANCE {
        nb := nb.(x := a.x);
      }
    } else if Near(b.YEnd(), a.y) && SpansOverlap(a.x, a.XEnd(), b.x, b.XEnd()) {
      nb := nb.(y := a.y - b.h);
      if Abs(nb.x - a.x) <= EDGE_TOLERANCE {
        nb := nb.(x := a.x);
      }
    }
  }

  // ---------------------------------------------------------------------------
  // What normalising never touches
  // ---------------------------------------------------------------------------

  /** Same screens, in the same order, possibly moved. */
  predicate OnlyMoved(before: seq<Screen>, after: seq<Screen>) {
    && |before| == |after|
    && forall k | 0 <= k < |before| ::
         && before[k].id == after[k].id && before[k].name == after[k].name
         && before[k].rect.w == after[k].rect.w && before[k].rect.h == after[k].rect.h
  }

  lemma {:induction false} RowOnlyMoves(screens: seq<Screen>, i: nat, j: nat)
    requires i < |screens| && j <= |screens|
    ensures OnlyMoved(screens, SweepRow(screens, i, j).screens)
    decreases |screens| - j
  {
    if j < |screens| {
      RowOnlyMoves(if Moves(screens, i, j) then SnapAt(screens, i, j) else screens, i, j + 1);
    }
  }

  lemma {:induction false} SweepOnlyMoves(screens: seq<Screen>, i: nat)
    requires i <= |screens|
    ensures OnlyMoved(screens, Sweep(screens, i).screens)
    decreases |screens| - i
  {
    if i < |screens| {
      RowOnlyMoves(screens, i, 0);
      SweepOnlyMoves(SweepRow(screens, i, 0).screens, i + 1);
    }
  }

  /** Count, order, ids, names and sizes survive normalising, for every layout. */
  lemma {:induction false} NormalizingOnlyMoves(screens: seq<Screen>, passes: nat)
    ensures OnlyMoved(screens, NormalizeWithin(screens, passes).screens)
    decreases passes
  {
    if passes > 0 {
      SweepOnlyMoves(screens, 0);
      NormalizingOnlyMoves(Sweep(screens, 0).screens, passes - 1);
    }
  }

  // ---------------------------------------------------------------------------
  // Fixed points
  // ---------------------------------------------------------------------------

  /** No pair of screens has anything to snap. */
  predicate NothingToSnap(screens: seq<Screen>) {
    forall i, j | 0 <= i < |screens| && 0 <= j < |screens| :: !Moves(screens, i, j)
  }

  lemma {:induction false} QuietRow(screens: seq<Screen>, i: nat, j: nat)
    requires i < |screens| && j <= |screens|
    ensures !SweepRow(screens, i, j).changed <==> forall k | j <= k < |screens| :: !Moves(screens, i, k)
    ensures !SweepRow(screens, i, j).changed ==> SweepRow(screens, i, j).screens == screens
    decreases |screens| - j
  {
    if j < |screens| && !Moves(screens, i, j) {
      QuietRow(screens, i, j + 1);
    }
  }

  /** A pass changes nothing exactly when, from its first row on, there is nothing to snap. */
  lemma {:induction false} QuietSweep(screens: seq<Screen>, i: nat)
    requires i <= |screens|
    ensures !Sweep(screens, i).changed <==>
            forall k, j | i <= k < |screens| && 0 <= j < |screens| :: !Moves(screens, k, j)
    ensures !Sweep(screens, i).changed ==> Sweep(screens, i).screens == screens
    decreases |screens| - i
  {
    if i < |screens| {
      QuietRow(screens, i, 0);
      if !SweepRow(screens, i, 0).changed {
        QuietSweep(screens, i + 1);
      }
    }
  }

  /**
   Whenever normalising stops on an unchanged pass, nothing is left to snap and normalising the
   result again is the identity; a layout with nothing to snap is returned unchanged.
   */
  lemma {:induction false} SettledIsFixed(screens: seq<Screen>, passes: nat, again: nat)
    requires again > 0
    ensures var r := NormalizeWithin(screens, passes);
            r.settled ==> NothingToSnap(r.screens) && NormalizeWithin(r.screens, again) == r
    ensures NothingToSnap(screens) ==> NormalizeWithin(screens, again) == Outcome(screens, true)
    decreases passes
  {
    QuietSweep(screens, 0);
    if passes > 0 && Sweep(screens, 0).changed {
      SettledIsFixed(Sweep(screens, 0).screens, passes - 1, again);
    }
  }

  /** Normalising stops at once, on the layout it was given, exactly when there is nothing to snap. */
  lemma {:induction false} StaysPutIffNothingToSnap(screens: seq<Screen>, passes: nat)
    requires passes > 0
    ensures NormalizeWithin(screens, passes) == Outcome(screens, true) <==> NothingToSnap(screens)
  {
    SettledIsFixed(screens, passes, passes);
  }

  /**
   What a settled layout of ordinary screens looks like: facing edges within tolerance are in
   exact contact, and tops (or lefts) within tolerance are aligned.
   */
  lemma NothingToSnapMeansContact(screens: seq<Screen>, i: nat, j: nat)
    requires NothingToSnap(screens) && i < |screens| && j < |screens| && i != j
    requires forall k | 0 <= k < |screens| ::
               screens[k].rect.w > 2 * EDGE_TOLERANCE && screens[k].rect.h > 2 * EDGE_TOLERANCE
    ensures var a, b := screens[i].rect, screens[j].rect;
            && (Near(a.XEnd(), b.x) && SpansOverlap(a.y, a.YEnd(), b.y, b.YEnd()) ==>
                  a.XEnd() == b.x && (Near(a.y, b.y) ==> a.y == b.y))
            && (Near(a.YEnd(), b.y) && SpansOverlap(a.x, a.XEnd(), b.x, b.XEnd()) ==>
                  a.YEnd() == b.y && (Near(a.x, b.x) ==> a.x == b.x))
  {
    assert !Moves(screens, i, j);
    assert screens[i].rect.w > 2 * EDGE_TOLERANCE && screens[j].rect.w > 2 * EDGE_TOLERANCE;
  }

  // ---------------------------------------------------------------------------
  // Two machines always settle
  // ---------------------------------------------------------------------------

  predicate LeftOf(a: Rect, b: Rect) {
    Near(a.XEnd(), b.x) && SpansOverlap(a.y, a.YEnd(), b.y, b.YEnd())
  }

  predicate Stacked(a: Rect, b: Rect) {
    (Near(a.YEnd(), b.y) || Near(b.YEnd(), a.y)) && SpansOverlap(a.x, a.XEnd(), b.x, b.XEnd())
  }

  predicate Large(a: Rect) {
    a.w > EDGE_TOLERANCE && a.h > EDGE_TOLERANCE
  }

  /** Snapping the second screen against the first, then the first against the result, is enough. */
  predicate SettlesInOnePass(a: Rect, b: Rect) {
    var b1 := Snap(a, b);
    var a1 := Snap(b1, a);
    Snap(a1, b1) == b1 && Snap(b1, a1) == a1
  }

  lemma SnapToTheRight(a: Rect, b: Rect)
    requires Large(a) && Large(b) && LeftOf(a, b) && !Stacked(a, b)
    ensures SettlesInOnePass(a, b)
  {
    var b1 := b.(x := a.XEnd(), y := if Near(b.y, a.y) then a.y else b.y);
    assert Snap(a, b) == b1;
    if b.x - EDGE_TOLERANCE < a.XEnd() {
      assert Snap(b1, a) == a;
      assert Snap(a, b1) == b1;
    } else {
      var a1 := Snap(b1, a);
      assert a1.x == a.x && Snap(b1, a1) == a1;
      assert Snap(a1, b1) == b1;
    }
    hide Snap;
  }

  lemma SnapRightCorner(a: Rect, b: Rect)
    requires Large(a) && Large(b) && LeftOf(a, b) && Stacked(a, b)
    ensures SettlesInOnePass(a, b)
  {
  }

  lemma SnapToTheLeft(a: Rect, b: Rect)
    requires Large(a) && Large(b) && !LeftOf(a, b) && LeftOf(b, a) && !Stacked(a, b)
    ensures SettlesInOnePass(a, b)
  {
  }

  lemma SnapLeftCorner(a: Rect, b: Rect)
    requires Large(a) && Large(b) && !LeftOf(a, b) && LeftOf(b, a) && Stacked(a, b)
    ensures SettlesInOnePass(a, b)
  {
  }

  lemma SnapDownwards(a: Rect, b: Rect)
    requires Large(a) && Large(b) && !LeftOf(a, b) && !LeftOf(b, a) && Near(a.YEnd(), b.y)
    ensures SettlesInOnePass(a, b)
  {
    if Stacked(a, b) {
      var b1 := b.(y := a.YEnd(), x := if Near(b.x, a.x) then a.x else b.x);
      assert Snap(a, b) == b1;
      if b.y - EDGE_TOLERANCE < a.YEnd() {
        assert Snap(b1, a) == a;
        assert Snap(a, b1) == b1;
      } else {
        var a1 := Snap(b1, a);
        assert a1.y == a.y && Snap(b1, a1) == a1;
        assert Snap(a1, b1) == b1;
      }
    } else {
      assert Snap(a, b) == b && Snap(b, a) == a;
    }
    hide Snap;
  }

  lemma SnapUpwards(a: Rect, b: Rect)
    requires Large(a) && Large(b) && !LeftOf(a, b) && !LeftOf(b, a) && !Near(a.YEnd(), b.y)
    ensures SettlesInOnePass(a, b)
  {
    if Stacked(a, b) {
      var b1 := b.(y := a.y - b.h, x := if Near(b.x, a.x) then a.x else b.x);
      assert Snap(a, b) == b1;
      if a.y - EDGE_TOLERANCE < b.YEnd() {
        assert Snap(b1, a) == a;
        assert Snap(a, b1) == b1;
      } else {
        var a1 := Snap(b1, a);
        assert a1.y == a.y && Snap(b1, a1) == a1;
        assert Snap(a1, b1) == b1;
      }
    } else {
      assert Snap(a, b) == b && Snap(b, a) == a;
    }
    hide Snap;
  }

  lemma SnapBothWays(a: Rect, b: Rect)
    requires Large(a) && Large(b)
    ensures SettlesInOnePass(a, b)
  {
    if LeftOf(a, b) {
      if Stacked(a, b) { SnapRightCorner(a, b); } else { SnapToTheRight(a, b); }
    } else if LeftOf(b, a) {
      if Stacked(a, b) { SnapLeftCorner(a, b); } else { SnapToTheLeft(a, b); }
    } else if Near(a.YEnd(), b.y) {
      SnapDownwards(a, b);
    } else {
      SnapUpwards(a, b);
    }
  }

  lemma PairSweep(a: Screen, b: Screen)
    ensures var b1 := b.(rect := Snap(a.rect, b.rect)); var a1 := a.(rect := Snap(b1.rect, a.rect));
            Sweep([a, b], 0).screens == [a1, b1]
  {
    var b1 := b.(rect := Snap(a.rect, b.rect));
    var a1 := a.(rect := Snap(b1.rect, a.rect));
    assert SweepRow([a, b1], 0, 2).screens == [a, b1];
    assert SnapAt([a, b], 0, 1) == [a, b1];
    assert SweepRow([a, b], 0, 1).screens == [a, b1];
    assert SweepRow([a, b], 0, 0).screens == [a, b1];
    assert SweepRow([a1, b1], 1, 1).screens == SweepRow([a1, b1], 1, 2).screens == [a1, b1];
    assert SnapAt([a, b1], 1, 0) == [a1, b1];
    assert SweepRow([a, b1], 1, 0).screens == [a1, b1];
    assert Sweep([a1, b1], 2).screens == [a1, b1];
    assert Sweep([a, b1], 1).screens == [a1, b1];
  }

  /**
   With two screens larger than the tolerance, normalising always settles: one pass leaves
   nothing to snap, so normalising twice is normalising once.
   */
  lemma TwoScreensSettle(screens: seq<Screen>)
    requires |screens| == 2 && Ample(screens)
    ensures var r := NormalizeWithin(screens, MAX_PASSES);
            && r.settled && NothingToSnap(r.screens)
            && NormalizeWithin(r.screens, MAX_PASSES).screens == r.screens
  {
    var a, b := screens[0], screens[1];
    SnapBothWays(a.rect, b.rect);
    PairSweep(a, b);
    assert screens == [a, b];
    var after := Sweep(screens, 0).screens;
    assert NothingToSnap(after);
    QuietSweep(screens, 0);
    SettledIsFixed(after, 0, MAX_PASSES - 1);
    SettledIsFixed(screens, MAX_PASSES, MAX_PASSES);
  }

  // ---------------------------------------------------------------------------
  // A row or a column of screens
  // ---------------------------------------------------------------------------

  /** Which way screens are lined up; positions and sizes along the line, and across it. */
  datatype Line = Row | Column {
    function At(r: Rect): int {
      if Row? then r.x else r.y
    }

    function Length(r: Rect): int {
      if Row? then r.w else r.h
    }

    function End(r: Rect): int {
      At(r) + Length(r)
    }

    function Side(r: Rect): int {
      if Row? then r.y else r.x
    }

    function Thickness(r: Rect): int {
      if Row? then r.h else r.w
    }

    function Placed(r: Rect, at: int, side: int): Rect {
      if Row? then r.(x := at, y := side) else r.(x := side, y := at)
    }
  }

  const WIDE := 6 * EDGE_TOLERANCE
  const THICK := 2 * EDGE_TOLERANCE

  /**
   Screens along a line, in the order of the list, with their sides in one band of the tolerance's
   width from `edge`; gaps may be of any size, overlaps are within tolerance.
   */
  predicate Lined(line: Line, edge: int, s: seq<Screen>) {
    && (forall i | 0 <= i < |s| ::
          && line.Length(s[i].rect) > WIDE && line.Thickness(s[i].rect) > THICK
          && edge <= line.Side(s[i].rect) <= edge + EDGE_TOLERANCE)
    && (forall i | 0 <= i < |s| - 1 :: Gap(line, s, i) >= -EDGE_TOLERANCE)
  }

  function Gap(line: Line, s: seq<Screen>, i: nat): int
    requires i + 1 < |s|
  {
    line.At(s[i + 1].rect) - line.End(s[i].rect)
  }

  /** Screens further apart in the line are far apart. */
  lemma {:induction false} FarApart(line: Line, edge: int, s: seq<Screen>, i: nat, j: nat)
    requires Lined(line, edge, s) && i < j < |s|
    ensures line.At(s[j].rect) >=
              line.End(s[i].rect) + (if j == i + 1 then -EDGE_TOLERANCE else 4 * EDGE_TOLERANCE)
    decreases j
  {
    assert Gap(line, s, j - 1) >= -EDGE_TOLERANCE;
    if j > i + 1 {
      FarApart(line, edge, s, i, j - 1);
    }
  }

  /** The same screen, shifted along the line by at most the tolerance, and within the band. */
  predicate ShiftOf(line: Line, edge: int, o: Screen, c: Screen) {
    && c.id == o.id && c.name == o.name && c.rect.w == o.rect.w && c.rect.h == o.rect.h
    && edge <= line.Side(c.rect) <= edge + EDGE_TOLERANCE
    && Abs(line.At(c.rect) - line.At(o.rect)) <= EDGE_TOLERANCE
  }

  /** `c` is the line `o` with screens shifted, those after `i` not at all. */
  predicate Shifted(line: Line, edge: int, o: seq<Screen>, c: seq<Screen>, i: nat) {
    && |c| == |o|
    && (forall k | 0 <= k < |o| :: ShiftOf(line, edge, o[k], c[k]))
    && (forall k | i < k < |o| :: c[k] == o[k])
  }

  /** Neighbours in exact contact with their sides aligned, or too far apart to snap. */
  predicate Closed(line: Line, c: seq<Screen>, k: nat)
    requires k + 1 < |c|
  {
    || (Gap(line, c, k) == 0 && line.Side(c[k].rect) == line.Side(c[k + 1].rect))
    || Abs(Gap(line, c, k)) > EDGE_TOLERANCE
  }

  predicate ClosedUpTo(line: Line, c: seq<Screen>, i: nat) {
    forall k | 0 <= k < i && k + 1 < |c| :: Closed(line, c, k)
  }

  /** Along a line only the ends count, and sides in the band are aligned. */
  lemma SnapInLine(line: Line, edge: int, a: Rect, b: Rect)
    requires line.Length(a) > WIDE && line.Length(b) > WIDE
    requires line.Thickness(a) > THICK && line.Thickness(b) > THICK
    requires edge <= line.Side(a) <= edge + EDGE_TOLERANCE && edge <= line.Side(b) <= edge + EDGE_TOLERANCE
    ensures Snap(a, b) == if Near(line.End(a), line.At(b)) then line.Placed(b, line.End(a), line.Side(a))
                          else if Near(line.End(b), line.At(a))
                          then line.Placed(b, line.At(a) - line.Length(b), line.Side(a))
                          else b
  {
  }

  /** A screen whose near end is closed moves no screen but the next one. */
  lemma MovesOnlyTheNext(line: Line, edge: int, o: seq<Screen>, c: seq<Screen>, i: nat, k: nat)
    requires Lined(line, edge, o) && Shifted(line, edge, o, c, i) && ClosedUpTo(line, c, i)
    requires i < |c| && k < |c| && k != i + 1
    ensures !Moves(c, i, k)
  {
    if k != i {
      assert ShiftOf(line, edge, o[i], c[i]) && ShiftOf(line, edge, o[k], c[k]);
      SnapInLine(line, edge, c[i].rect, c[k].rect);
      if k > i {
        FarApart(line, edge, o, i, k);
      } else {
        FarApart(line, edge, o, k, i);
        if k == i - 1 { assert Closed(line, c, k); }
      }
    }
  }

  lemma {:induction false} TurnSnapsTheNext(c: seq<Screen>, i: nat, j: nat)
    requires i < |c| && j <= |c|
    requires forall k | j <= k < |c| && k != i + 1 :: !Moves(c, i, k)
    ensures SweepRow(c, i, j).screens == if j <= i + 1 < |c| then SnapAt(c, i, i + 1) else c
    decreases |c| - j
  {
    if j < |c| {
      if Moves(c, i, j) {
        var d := SnapAt(c, i, j);
        assert forall k | j < k < |c| :: d[k] == c[k] && d[i] == c[i];
        assert forall k | j + 1 <= k < |c| && k != i + 1 :: Moves(d, i, k) == Moves(c, i, k);
        TurnSnapsTheNext(d, i, j + 1);
      } else {
        TurnSnapsTheNext(c, i, j + 1);
        if j == i + 1 { assert SnapAt(c, i, j) == c; }
      }
    }
  }

  /** Snapping the next screen closes the gap to it, or finds it too far away. */
  lemma SnappingCloses(line: Line, edge: int, o: seq<Screen>, c: seq<Screen>, i: nat)
    requires Lined(line, edge, o) && Shifted(line, edge, o, c, i) && ClosedUpTo(line, c, i) && i + 1 < |c|
    ensures var d := SnapAt(c, i, i + 1); Shifted(line, edge, o, d, i + 1) && ClosedUpTo(line, d, i + 1)
  {
    var d := SnapAt(c, i, i + 1);
    assert Gap(line, o, i) >= -EDGE_TOLERANCE;
    NextCloses(line, edge, o[i], c[i], o[i + 1]);
    hide Snap, ShiftOf, Lined;
    assert forall k | 0 <= k < |c| && k != i + 1 :: d[k] == c[k];
    assert Closed(line, d, i);
    forall k | 0 <= k < i ensures Closed(line, d, k) {
      assert Closed(line, c, k);
    }
  }

  /** The next screen `b` in the line, snapped against `c`, where the screen `o` now stands. */
  lemma NextCloses(line: Line, edge: int, o: Screen, c: Screen, b: Screen)
    requires line.Length(o.rect) > WIDE && line.Thickness(o.rect) > THICK
    requires line.Length(b.rect) > WIDE && line.Thickness(b.rect) > THICK
    requires edge <= line.Side(b.rect) <= edge + EDGE_TOLERANCE
    requires ShiftOf(line, edge, o, c) && line.At(b.rect) >= line.End(o.rect) - EDGE_TOLERANCE
    ensures var d := b.(rect := Snap(c.rect, b.rect));
            var gap := line.At(d.rect) - line.End(c.rect);
            && ShiftOf(line, edge, b, d)
            && ((gap == 0 && line.Side(c.rect) == line.Side(d.rect)) || Abs(gap) > EDGE_TOLERANCE)
  {
    SnapInLine(line, edge, c.rect, b.rect);
    hide Snap;
  }

  /** So a screen's turn closes the gap to the next one, if it is within tolerance, and nothing else. */
  lemma TurnClosesTheNext(line: Line, edge: int, o: seq<Screen>, c: seq<Screen>, i: nat)
    requires Lined(line, edge, o) && Shifted(line, edge, o, c, i) && ClosedUpTo(line, c, i) && i < |c|
    ensures var d := SweepRow(c, i, 0).screens;
            && Shifted(line, edge, o, d, i + 1) && ClosedUpTo(line, d, i + 1)
            && forall k | 0 <= k < |c| && k != i + 1 :: d[k] == c[k]
  {
    forall k | 0 <= k < |c| && k != i + 1 ensures !Moves(c, i, k) {
      MovesOnlyTheNext(line, edge, o, c, i, k);
    }
    TurnSnapsTheNext(c, i, 0);
    if i + 1 < |c| { SnappingCloses(line, edge, o, c, i); }
  }

  lemma {:induction false} PassClosesTheLine(line: Line, edge: int, o: seq<Screen>, c: seq<Screen>, i: nat)
    requires Lined(line, edge, o) && Shifted(line, edge, o, c, i) && ClosedUpTo(line, c, i) && i <= |c|
    ensures var d := Sweep(c, i).screens; Shifted(line, edge, o, d, |o|) && ClosedUpTo(line, d, |o|)
    decreases |c| - i
  {
    if i < |c| {
      TurnClosesTheNext(line, edge, o, c, i);
      PassClosesTheLine(line, edge, o, SweepRow(c, i, 0).screens, i + 1);
    }
  }

  lemma ClosedLineIsQuiet(line: Line, edge: int, o: seq<Screen>, c: seq<Screen>, i: nat, j: nat)
    requires Lined(line, edge, o) && Shifted(line, edge, o, c, |o|) && ClosedUpTo(line, c, |o|)
    requires i < |c| && j < |c|
    ensures !Moves(c, i, j)
  {
    if i != j {
      assert ShiftOf(line, edge, o[i], c[i]) && ShiftOf(line, edge, o[j], c[j]);
      SnapInLine(line, edge, c[i].rect, c[j].rect);
      if i < j {
        FarApart(line, edge, o, i, j);
        if j == i + 1 { assert Closed(line, c, i); }
      } else {
        FarApart(line, edge, o, j, i);
        if i == j + 1 { assert Closed(line, c, j); }
      }
    }
  }

  /**
   A row or a column of any number of screens, listed in its order, with tops (or lefts) within
   tolerance of each other, settles in one pass: every gap within tolerance is closed and the sides
   across it are aligned, so normalising twice is normalising once.
   */
  lemma LinesSettle(line: Line, edge: int, screens: seq<Screen>)
    requires Lined(line, edge, screens)
    ensures var r := NormalizeWithin(screens, MAX_PASSES);
            && r.settled && NothingToSnap(r.screens)
            && NormalizeWithin(r.screens, MAX_PASSES).screens == r.screens
            && r.screens == Sweep(screens, 0).screens && ClosedUpTo(line, r.screens, |screens|)
  {
    assert Shifted(line, edge, screens, screens, 0);
    PassClosesTheLine(line, edge, screens, screens, 0);
    var after := Sweep(screens, 0).screens;
    forall i, j | 0 <= i < |after| && 0 <= j < |after| ensures !Moves(after, i, j) {
      ClosedLineIsQuiet(line, edge, screens, after, i, j);
    }
    hide Sweep, Shifted, Lined, ClosedUpTo;
    assert NothingToSnap(after);
    QuietSweep(screens, 0);
    SettledIsFixed(after, 0, MAX_PASSES - 1);
    SettledIsFixed(screens, MAX_PASSES, MAX_PASSES);
  }

  /** Four screens side by side with one gap of ten pixels, listed third, first, second, fourth. */
  function Shuffled(third: int, second: int): (s: seq<Screen>)
    ensures |s| == 4
  {
    [ Screen(0, "third", Rect(third, 0, 1000, 800)), Screen(1, "first", Rect(0, 0, 1000, 800)),
      Screen(2, "second", Rect(second, 0, 1000, 800)), Screen(3, "fourth", Rect(3010, 0, 1000, 800)) ]
  }

  lemma ShuffledStep(third: int, second: int, i: nat, j: nat, to3: int, to2: int)
    requires i < 4 && j < 4 && i != j
    requires 2000 <= third <= 2010 && 1000 <= second <= 1010 && (j != 0 ==> to3 == third) && (j != 2 ==> to2 == second)
    requires Shuffled(to3, to2)[j].rect == Snap(Shuffled(third, second)[i].rect, Shuffled(third, second)[j].rect)
    ensures SnapAt(Shuffled(third, second), i, j) == Shuffled(to3, to2)
  {
  }

  /** A turn that moves only screen `j`, and nothing before or after it. */
  lemma ShuffledTurn(third: int, second: int, i: nat, j: nat, to3: int, to2: int)
    requires i < 4 && j < 4 && i != j
    requires 2000 <= third <= 2010 && 1000 <= second <= 1010 && (j != 0 ==> to3 == third) && (j != 2 ==> to2 == second)
    requires Shuffled(to3, to2)[j].rect == Snap(Shuffled(third, second)[i].rect, Shuffled(third, second)[j].rect)
    requires Moves(Shuffled(third, second), i, j)
    requires forall k | 0 <= k < j :: !Moves(Shuffled(third, second), i, k)
    requires forall k | j < k < 4 :: !Moves(Shuffled(to3, to2), i, k)
    ensures SweepRow(Shuffled(third, second), i, 0) == Swept(Shuffled(to3, to2), true)
  {
    ShuffledStep(third, second, i, j, to3, to2);
    QuietRow(Shuffled(to3, to2), i, j + 1);
    TurnFromFront(Shuffled(third, second), i, j, 0);
  }

  lemma {:induction false} TurnFromFront(c: seq<Screen>, i: nat, j: nat, k: nat)
    requires i < |c| && k <= j < |c| && Moves(c, i, j) && forall m | k <= m < j :: !Moves(c, i, m)
    ensures SweepRow(c, i, k) == Swept(SweepRow(SnapAt(c, i, j), i, j + 1).screens, true)
    decreases j - k
  {
    if k < j { TurnFromFront(c, i, j, k + 1); }
  }

  lemma ThirdPullsSecond()
    ensures SweepRow(Shuffled(2010, 1000), 0, 0) == Swept(Shuffled(2010, 1010), true)
  {
    hide SweepRow;
    ShuffledTurn(2010, 1000, 0, 2, 2010, 1010);
  }

  lemma FirstPullsSecondBack()
    ensures SweepRow(Shuffled(2010, 1010), 1, 0) == Swept(Shuffled(2010, 1000), true)
  {
    hide SweepRow;
    ShuffledTurn(2010, 1010, 1, 2, 2010, 1000);
  }

  lemma SecondPullsThird()
    ensures SweepRow(Shuffled(2010, 1000), 2, 0) == Swept(Shuffled(2000, 1000), true)
  {
    hide SweepRow;
    ShuffledTurn(2010, 1000, 2, 0, 2000, 1000);
  }

  lemma FourthPullsThirdBack()
    ensures SweepRow(Shuffled(2000, 1000), 3, 0) == Swept(Shuffled(2010, 1000), true)
  {
    hide SweepRow;
    ShuffledTurn(2000, 1000, 3, 0, 2010, 1000);
  }

  /**
   The order of the list matters: the same row listed otherwise keeps its gap for ever. In every pass
   one neighbour pulls the screen beside the gap over, and another pulls it back.
   */
  lemma {:induction false} ShuffledRowNeverCloses(passes: nat)
    ensures NormalizeWithin(Shuffled(2010, 1000), passes) == Outcome(Shuffled(2010, 1000), false)
    decreases passes
  {
    if passes > 0 {
      var s := Shuffled(2010, 1000);
      ThirdPullsSecond();
      FirstPullsSecondBack();
      SecondPullsThird();
      FourthPullsThirdBack();
      assert Sweep(s, 4) == Swept(s, false);
      assert Sweep(Shuffled(2000, 1000), 3) == Swept(s, true);
      assert Sweep(s, 2) == Swept(s, true);
      assert Sweep(Shuffled(2010, 1010), 1) == Swept(s, true);
      ShuffledRowNeverCloses(passes - 1);
    }
  }

  // ---------------------------------------------------------------------------
  // A layout that never settles
  // ---------------------------------------------------------------------------

  /** Two rows of two screens, the bottom-left one ten pixels wider than the others. */
  function Grid(ax: int, bx: int, cx: int, dx: int): (s: seq<Screen>)
    ensures |s| == 4
  {
    [ Screen(0, "a", Rect(ax, 0, 100, 50)), Screen(1, "b", Rect(bx, 0, 100, 50)),
      Screen(2, "c", Rect(cx, 50, 100, 50)), Screen(3, "d", Rect(dx, 50, 110, 50)) ]
  }

  /** With all four screens in exact contact, side by side and row on row. */
  lemma TouchingIsOrdinary()
    ensures var s := Grid(0, 100, 110, 0); Unambiguous(s) && Ample(s) && UniqueIds(s)
  {
    var s := Grid(0, 100, 110, 0);
    assert s[0].rect == Rect(0, 0, 100, 50) && s[1].rect == Rect(100, 0, 100, 50);
    assert s[2].rect == Rect(110, 50, 100, 50) && s[3].rect == Rect(0, 50, 110, 50);
    forall i, j | 0 <= i < j < 4 ensures !Overlap(s[i].rect, s[j].rect) && s[i].id != s[j].id {
    }
  }

  lemma FirstRowOfGrid(l: int, b: int)
    requires b == l + 100 || b == l + 110
    ensures SweepRow(Grid(l, b, l + 110, l), 0, 0) == Swept(Grid(l, l + 100, l + 100, l), true)
  {
    var end := Grid(l, l + 100, l + 100, l);
    var mid := Grid(l, l + 100, l + 110, l);
    assert SweepRow(end, 0, 4) == Swept(end, false);
    assert SweepRow(end, 0, 3) == Swept(end, false);
    assert SnapAt(mid, 0, 2) == end;
    assert SweepRow(mid, 0, 2) == Swept(end, true);
    assert SnapAt(Grid(l, b, l + 110, l), 0, 1) == mid;
    assert SweepRow(Grid(l, b, l + 110, l), 0, 1) == Swept(end, true);
  }

  lemma OtherRowsOfGrid(l: int)
    ensures Sweep(Grid(l, l + 100, l + 100, l), 1) == Swept(Grid(l - 10, l + 100, l + 100, l - 10), true)
  {
    var start, mid := Grid(l, l + 100, l + 100, l), Grid(l, l + 100, l + 100, l - 10);
    var end := Grid(l - 10, l + 100, l + 100, l - 10);
    assert SweepRow(mid, 1, 4) == Swept(mid, false);
    assert SnapAt(start, 1, 3) == mid;
    assert SweepRow(start, 1, 3) == Swept(mid, true);
    assert SweepRow(start, 1, 2) == Swept(mid, true);
    assert SweepRow(start, 1, 1) == Swept(mid, true);
    assert SweepRow(start, 1, 0) == Swept(mid, true);
    forall j | 0 <= j < 4 ensures !Moves(mid, 2, j) {
    }
    QuietRow(mid, 2, 0);
    forall j | 1 <= j < 4 ensures !Moves(end, 3, j) {
    }
    QuietRow(end, 3, 1);
    assert SnapAt(mid, 3, 0) == end;
    assert SweepRow(mid, 3, 0) == Swept(end, true);
    assert Sweep(end, 4) == Swept(end, false);
    assert Sweep(mid, 3) == Swept(end, true);
    assert Sweep(mid, 2) == Swept(end, true);
  }

  lemma NoPassesLeft(screens: seq<Screen>)
    ensures NormalizeWithin(screens, 0) == Outcome(screens, false)
  {
  }

  /** Every pass moves the whole grid ten pixels further left. */
  lemma GridDrifts(l: int, b: int)
    requires b == l + 100 || b == l + 110
    ensures Sweep(Grid(l, b, l + 110, l), 0) == Swept(Grid(l - 10, l + 100, l + 100, l - 10), true)
  {
    FirstRowOfGrid(l, b);
    OtherRowsOfGrid(l);
  }

  /**
   Normalising is not idempotent in general: a grid of ample, touching, unambiguous screens need
   not settle in any number of passes. Each pass carries the whole desktop ten pixels further
   left and leaves the top row torn apart, and normalising the result starts over from there.
   */
  lemma {:induction false} SomeLayoutNeverSettles(l: int, b: int, passes: nat)
    requires b == l + 100 || b == l + 110
    ensures var r := NormalizeWithin(Grid(l, b, l + 110, l), passes);
            && !r.settled && !NothingToSnap(r.screens)
            && (passes > 0 ==> var left := l - 10 * passes; r.screens == Grid(left, left + 110, left + 110, left))
    decreases passes
  {
    hide Sweep, Moves, Grid;
    GridDrifts(l, b);
    QuietSweep(Grid(l, b, l + 110, l), 0);
    if passes > 0 {
      SomeLayoutNeverSettles(l - 10, l + 100, passes - 1);
      if passes == 1 { NoPassesLeft(Grid(l - 10, l + 100, l + 100, l - 10)); }
    }
  }

  /** So normalising such a layout again, as every admission of a client does, moves it again. */
  lemma NormalizingAgainMovesAgain()
    ensures var once := NormalizeWithin(Grid(0, 100, 110, 0), MAX_PASSES).screens;
            once == Grid(-80, 30, 30, -80) && NormalizeWithin(once, MAX_PASSES).screens == Grid(-160, -50, -50, -160)
  {
    SomeLayoutNeverSettles(0, 100, MAX_PASSES);
    SomeLayoutNeverSettles(-80, 30, MAX_PASSES);
  }
}
