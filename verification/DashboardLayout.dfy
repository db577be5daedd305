/** scripts/check-dashboards.py: the layout part of the gate over one container of panels,
    and what a container it passes looks like on the grid. */
module DashboardLayout {
  import opened Values

  const COLUMNS := 24

  /** A panel's gridPos as the board gives it: any of its keys may be missing. */
  datatype Panel = Panel(x: Option<int>, y: Option<int>, w: Option<int>, h: Option<int>)

  datatype Rect = Rect(x: int, y: int, w: int, h: int)

  datatype Problem =
    | Incomplete(panel: nat)
    | PastLastColumn(panel: nat)
    | Overlap(first: nat, second: nat)

  predicate Complete(p: Panel) {
    p.x.Some? && p.y.Some? && p.w.Some? && p.h.Some?
  }

  function RectOf(p: Panel): Rect
    requires Complete(p)
  {
    Rect(p.x.value, p.y.value, p.w.value, p.h.value)
  }

  predicate Overlaps(a: Rect, b: Rect) {
    && a.x < b.x + b.w && b.x < a.x + a.w
    && a.y < b.y + b.h && b.y < a.y + a.h
  }

  // ------------------------------------------------------------ what is said

  /** A placed panel: its index in the container, and its rectangle. */
  type Placed = (nat, Rect)

  function PlacementProblem(p: Panel, i: nat): seq<Problem> {
    if !Complete(p) then [Incomplete(i)]
    else if RectOf(p).x + RectOf(p).w > COLUMNS then [PastLastColumn(i)]
    else []
  }

  function PlacementProblems(panels: seq<Panel>): seq<Problem> {
    if panels == [] then []
    else
      var n := |panels| - 1;
      PlacementProblems(panels[..n]) + PlacementProblem(panels[n], n)
  }

  function PlacedOf(panels: seq<Panel>): seq<Placed>
  {
    if panels == [] then []
    else
      var n := |panels| - 1;
      var rest := PlacedOf(panels[..n]);
      if Complete(panels[n]) then rest + [(n, RectOf(panels[n]))] else rest
  }

  /** The overlaps of `one` with the first `upTo` placed after place `after`. */
  function OverlapsWith(placed: seq<Placed>, i: nat, upTo: nat): seq<Problem>
    requires i < upTo <= |placed|
  {
    if upTo == i + 1 then []
    else
      OverlapsWith(placed, i, upTo - 1)
      + if Overlaps(placed[i].1, placed[upTo - 1].1) then [Overlap(placed[i].0, placed[upTo - 1].0)] else []
  }

  function OverlapProblems(placed: seq<Placed>, upTo: nat): seq<Problem>
    requires upTo <= |placed|
  {
    if upTo == 0 then [] else OverlapProblems(placed, upTo - 1) + OverlapsWith(placed, upTo - 1, |placed|)
  }

  function LayoutProblems(panels: seq<Panel>): seq<Problem> {
    PlacementProblems(panels) + OverlapProblems(PlacedOf(panels), |PlacedOf(panels)|)
  }

  method CheckContainer(panels: seq<Panel>, problems: seq<Problem>) returns (r: seq<Problem>)
    ensures r == problems + LayoutProblems(panels)
  {
    var placed: seq<Placed>;
    r, placed := CheckPlaces(panels, problems);
    r := CheckPairs(placed, r);
  }

  method CheckPlaces(panels: seq<Panel>, problems: seq<Problem>) returns (r: seq<Problem>, placed: seq<Placed>)
    ensures r == problems + PlacementProblems(panels) && placed == PlacedOf(panels)
  {
    r, placed := problems, [];
    for k := 0 to |panels|
      invariant r == problems + PlacementProblems(panels[..k])
      invariant placed == PlacedOf(panels[..k])
    {
      assert panels[..k + 1][..k] == panels[..k];
      var p := panels[k];
      if !Complete(p) {
        r := r + [Incomplete(k)];
        continue;
      }
      if RectOf(p).x + RectOf(p).w > COLUMNS {
        r := r + [PastLastColumn(k)];
      }
      placed := placed + [(k, RectOf(p))];
    }
    assert panels[..|panels|] == panels;
  }

  method CheckPairs(placed: seq<Placed>, problems: seq<Problem>) returns (r: seq<Problem>)
    ensures r == problems + OverlapProblems(placed, |placed|)
  {
    r := problems;
    for i := 0 to |placed|
      invariant r == problems + OverlapProblems(placed, i)
    {
      ghost var before := r;
      for j := i + 1 to |placed|
        invariant r == before + OverlapsWith(placed, i, j)
      {
        if Overlaps(placed[i].1, placed[j].1) {
          r := r + [Overlap(placed[i].0, placed[j].0)];
        }
      }
    }
  }

  // ----------------------------------------------------------------- the grid

  type Cell = (int, int)

  predicate Covers(r: Rect, c: Cell) { r.x <= c.0 < r.x + r.w && r.y <= c.1 < r.y + r.h }

  /** Two rectangles share a cell exactly when they overlap and neither is empty. */
  lemma OverlapIsASharedCell(a: Rect, b: Rect)
    ensures (exists c :: Covers(a, c) && Covers(b, c)) <==> Overlaps(a, b) && a.w > 0 && a.h > 0 && b.w > 0 && b.h > 0
  {
    if Overlaps(a, b) && a.w > 0 && a.h > 0 && b.w > 0 && b.h > 0 {
      var c: Cell := (if a.x < b.x then b.x else a.x, if a.y < b.y then b.y else a.y);
      assert Covers(a, c) && Covers(b, c);
    }
  }

  /** What a good container is: every panel has its place inside the columns,
      and no cell belongs to two. */
  ghost predicate FitsTheGrid(panels: seq<Panel>) {
    && (forall i | 0 <= i < |panels| :: Complete(panels[i]) && RectOf(panels[i]).x + RectOf(panels[i]).w <= COLUMNS)
    && forall i, j, c | 0 <= i < j < |panels| :: !(Covers(RectOf(panels[i]), c) && Covers(RectOf(panels[j]), c))
  }

  predicate Sized(panels: seq<Panel>) {
    forall i | 0 <= i < |panels| && Complete(panels[i]) :: RectOf(panels[i]).w > 0 && RectOf(panels[i]).h > 0
  }

  lemma {:induction false} NoPlacementProblem(panels: seq<Panel>)
    ensures PlacementProblems(panels) == [] <==> forall i | 0 <= i < |panels| :: PlacementProblem(panels[i], i) == []
  {
    if panels != [] {
      var n := |panels| - 1;
      NoPlacementProblem(panels[..n]);
      assert forall i | 0 <= i < n :: panels[..n][i] == panels[i];
    }
  }

  predicate Clear(placed: seq<Placed>, i: nat, upTo: nat)
    requires i < |placed| && upTo <= |placed|
  {
    forall j | i < j < upTo :: !Overlaps(placed[i].1, placed[j].1)
  }

  lemma {:induction false} NoOverlapWith(placed: seq<Placed>, i: nat, upTo: nat)
    requires i < upTo <= |placed|
    ensures OverlapsWith(placed, i, upTo) == [] <==> Clear(placed, i, upTo)
  {
    if upTo > i + 1 { NoOverlapWith(placed, i, upTo - 1); }
  }

  lemma {:induction false} NoOverlapProblem(placed: seq<Placed>, upTo: nat)
    requires upTo <= |placed|
    ensures OverlapProblems(placed, upTo) == [] <==> forall i | 0 <= i < upTo :: Clear(placed, i, |placed|)
  {
    if upTo > 0 {
      NoOverlapProblem(placed, upTo - 1);
      NoOverlapWith(placed, upTo - 1, |placed|);
    }
  }

  lemma {:induction false} AllPlaced(panels: seq<Panel>)
    requires forall i | 0 <= i < |panels| :: Complete(panels[i])
    ensures |PlacedOf(panels)| == |panels| && forall i | 0 <= i < |panels| :: PlacedOf(panels)[i] == (i, RectOf(panels[i]))
  {
    if panels != [] { AllPlaced(panels[..|panels| - 1]); }
  }

  /** The gate is silent exactly when every panel has its place inside the
      columns and no two overlap. */
  lemma SilentIff(panels: seq<Panel>)
    ensures LayoutProblems(panels) == [] <==>
      && (forall i | 0 <= i < |panels| :: Complete(panels[i]) && RectOf(panels[i]).x + RectOf(panels[i]).w <= COLUMNS)
      && forall i, j | 0 <= i < j < |panels| :: !Overlaps(RectOf(panels[i]), RectOf(panels[j]))
  {
    var placed := PlacedOf(panels);
    NoPlacementProblem(panels);
    NoOverlapProblem(placed, |placed|);
    if forall i | 0 <= i < |panels| :: Complete(panels[i]) {
      AllPlaced(panels);
      NoneOverlap(panels, placed);
    }
  }

  lemma NoneOverlap(panels: seq<Panel>, placed: seq<Placed>)
    requires forall i | 0 <= i < |panels| :: Complete(panels[i])
    requires |placed| == |panels| && forall i | 0 <= i < |panels| :: placed[i] == (i, RectOf(panels[i]))
    ensures (forall i | 0 <= i < |placed| :: Clear(placed, i, |placed|)) <==>
      forall i, j | 0 <= i < j < |panels| :: !Overlaps(RectOf(panels[i]), RectOf(panels[j]))
  {
    if forall i | 0 <= i < |placed| :: Clear(placed, i, |placed|) {
      forall i, j | 0 <= i < j < |panels| ensures !Overlaps(RectOf(panels[i]), RectOf(panels[j])) {
        assert Clear(placed, i, |placed|) && placed[j] == (j, RectOf(panels[j]));
      }
    }
  }

  /** What a problem says of the panels. */
  ghost predicate IsSo(p: Problem, panels: seq<Panel>) {
    match p
    case Incomplete(i) => i < |panels| && !Complete(panels[i])
    case PastLastColumn(i) => i < |panels| && Complete(panels[i]) && panels[i].x.value + panels[i].w.value > 24
    case Overlap(i, j) => i < j < |panels| && Complete(panels[i]) && Complete(panels[j]) && Overlaps(RectOf(panels[i]), RectOf(panels[j]))
  }

  lemma {:induction false} PlacesAreSo(panels: seq<Panel>, p: Problem)
    ensures p in PlacementProblems(panels) <==> !p.Overlap? && IsSo(p, panels)
  {
    if panels != [] {
      var n := |panels| - 1;
      PlacesAreSo(panels[..n], p);
      match p
      case Incomplete(i) => if i < n { assert panels[..n][i] == panels[i]; }
      case PastLastColumn(i) => if i < n { assert panels[..n][i] == panels[i]; }
      case Overlap(_, _) =>
    }
  }

  ghost predicate IsPlaced(one: Placed, panels: seq<Panel>) {
    one.0 < |panels| && Complete(panels[one.0]) && one.1 == RectOf(panels[one.0])
  }

  /** The placed panels are the complete ones, in order. */
  lemma {:induction false} PlacedAre(panels: seq<Panel>)
    ensures forall k | 0 <= k < |PlacedOf(panels)| :: IsPlaced(PlacedOf(panels)[k], panels)
    ensures forall k, l | 0 <= k < l < |PlacedOf(panels)| :: PlacedOf(panels)[k].0 < PlacedOf(panels)[l].0
    ensures forall i | 0 <= i < |panels| && Complete(panels[i]) :: exists k :: 0 <= k < |PlacedOf(panels)| && PlacedOf(panels)[k] == (i, RectOf(panels[i]))
  {
    if panels != [] {
      var n := |panels| - 1;
      var rest := PlacedOf(panels[..n]);
      PlacedAre(panels[..n]);
      assert forall i | 0 <= i < n :: panels[..n][i] == panels[i];
      forall k | 0 <= k < |PlacedOf(panels)| ensures IsPlaced(PlacedOf(panels)[k], panels) {
        if k < |rest| { assert IsPlaced(rest[k], panels[..n]); }
      }
      forall i | 0 <= i < |panels| && Complete(panels[i])
        ensures exists k :: 0 <= k < |PlacedOf(panels)| && PlacedOf(panels)[k] == (i, RectOf(panels[i]))
      {
        if i < n {
          var k :| 0 <= k < |rest| && rest[k] == (i, RectOf(panels[i]));
          assert PlacedOf(panels)[k] == rest[k];
        } else {
          assert PlacedOf(panels)[|rest|] == (n, RectOf(panels[n]));
        }
      }
    }
  }

  ghost predicate IsPair(p: Problem, placed: seq<Placed>, k: int, l: int) {
    0 <= k < l < |placed| && Overlaps(placed[k].1, placed[l].1) && p == Overlap(placed[k].0, placed[l].0)
  }

  lemma {:induction false} FindSecond(placed: seq<Placed>, i: nat, upTo: nat, p: Problem) returns (l: nat)
    requires i < upTo <= |placed| && p in OverlapsWith(placed, i, upTo)
    ensures IsPair(p, placed, i, l)
  {
    if p in OverlapsWith(placed, i, upTo - 1) { l := FindSecond(placed, i, upTo - 1, p); } else { l := upTo - 1; }
  }

  lemma {:induction false} SecondIsFound(placed: seq<Placed>, i: nat, upTo: nat, p: Problem, l: nat)
    requires i < upTo <= |placed| && IsPair(p, placed, i, l) && l < upTo
    ensures p in OverlapsWith(placed, i, upTo)
  {
    if l < upTo - 1 { SecondIsFound(placed, i, upTo - 1, p, l); }
  }

  lemma {:induction false} FindPair(placed: seq<Placed>, upTo: nat, p: Problem) returns (k: nat, l: nat)
    requires upTo <= |placed| && p in OverlapProblems(placed, upTo)
    ensures IsPair(p, placed, k, l)
  {
    if p in OverlapsWith(placed, upTo - 1, |placed|) {
      k := upTo - 1;
      l := FindSecond(placed, k, |placed|, p);
    } else {
      k, l := FindPair(placed, upTo - 1, p);
    }
  }

  lemma {:induction false} PairIsFound(placed: seq<Placed>, upTo: nat, p: Problem, k: nat, l: nat)
    requires k < upTo <= |placed| && IsPair(p, placed, k, l)
    ensures p in OverlapProblems(placed, upTo)
  {
    if k == upTo - 1 { SecondIsFound(placed, k, |placed|, p, l); } else { PairIsFound(placed, upTo - 1, p, k, l); }
  }

  /** The gate names exactly the problems there are, with the panels' own places. */
  lemma ProblemsAreSo(panels: seq<Panel>, p: Problem)
    ensures p in LayoutProblems(panels) <==> IsSo(p, panels)
  {
    var placed := PlacedOf(panels);
    PlacesAreSo(panels, p);
    PlacedAre(panels);
    if p in OverlapProblems(placed, |placed|) {
      var k, l := FindPair(placed, |placed|, p);
      assert IsPlaced(placed[k], panels) && IsPlaced(placed[l], panels) && placed[k].0 < placed[l].0;
    }
    if p.Overlap? && IsSo(p, panels) {
      var k :| 0 <= k < |placed| && placed[k] == (p.first, RectOf(panels[p.first]));
      var l :| 0 <= l < |placed| && placed[l] == (p.second, RectOf(panels[p.second]));
      assert k < l;
      PairIsFound(placed, |placed|, p, k, l);
    }
  }

  /** What the gate passes fits the grid, and of panels with a size it passes
      all that fit. */
  lemma SilentIffFits(panels: seq<Panel>)
    ensures LayoutProblems(panels) == [] ==> FitsTheGrid(panels)
    ensures Sized(panels) && FitsTheGrid(panels) ==> LayoutProblems(panels) == []
  {
    SilentIff(panels);
    if LayoutProblems(panels) == [] {
      forall i, j, c | 0 <= i < j < |panels|
        ensures !(Covers(RectOf(panels[i]), c) && Covers(RectOf(panels[j]), c))
      {
        OverlapIsASharedCell(RectOf(panels[i]), RectOf(panels[j]));
      }
    }
    if Sized(panels) && FitsTheGrid(panels) {
      forall i, j | 0 <= i < j < |panels|
        ensures !Overlaps(RectOf(panels[i]), RectOf(panels[j]))
      {
        OverlapIsASharedCell(RectOf(panels[i]), RectOf(panels[j]));
      }
    }
  }

  // ----------------------------------------------------------------- the area

  function Box(x: int, y: int, w: nat, h: nat): (s: set<Cell>)
  {
    set i, j | x <= i < x + w && y <= j < y + h :: (i, j)
  }

  lemma {:induction false} RowSize(x: int, y: int, w: nat)
    ensures |Box(x, y, w, 1)| == w
  {
    if w == 0 {
      assert Box(x, y, w, 1) == {};
    } else {
      RowSize(x, y, w - 1);
      assert Box(x, y, w, 1) == Box(x, y, w - 1, 1) + {(x + w - 1, y)};
      assert (x + w - 1, y) !in Box(x, y, w - 1, 1);
    }
  }

  lemma {:induction false} BoxSize(x: int, y: int, w: nat, h: nat)
    ensures |Box(x, y, w, h)| == w * h
  {
    if h == 0 {
      assert Box(x, y, w, h) == {};
    } else {
      BoxSize(x, y, w, h - 1);
      RowSize(x, y + h - 1, w);
      var upper, last := Box(x, y, w, h - 1), Box(x, y + h - 1, w, 1);
      assert Box(x, y, w, h) == upper + last && upper !! last;
      assert w * (h - 1) + w == w * h;
    }
  }

  function Area(panels: seq<Panel>): int
    requires forall i | 0 <= i < |panels| :: Complete(panels[i])
  {
    if panels == [] then 0
    else
      var last := RectOf(panels[|panels| - 1]);
      Area(panels[..|panels| - 1]) + last.w * last.h
  }

  /** The lowest bottom edge. */
  function Bottom(panels: seq<Panel>): (b: nat)
    requires forall i | 0 <= i < |panels| :: Complete(panels[i])
    ensures forall i | 0 <= i < |panels| :: RectOf(panels[i]).y + RectOf(panels[i]).h <= b
  {
    if panels == [] then 0
    else
      var last := RectOf(panels[|panels| - 1]);
      var above := Bottom(panels[..|panels| - 1]);
      if last.y + last.h > above then last.y + last.h else above
  }

  predicate OnTheBoard(panels: seq<Panel>) {
    forall i | 0 <= i < |panels| ::
      Complete(panels[i]) && var r := RectOf(panels[i]); r.x >= 0 && r.y >= 0 && r.w > 0 && r.h > 0
  }

  /** The cells the panels cover, when no cell belongs to two: as many as their
      areas add up to. */
  lemma {:induction false} CoveredCells(panels: seq<Panel>, columns: nat, rows: nat) returns (cells: set<Cell>)
    requires OnTheBoard(panels) && FitsTheGrid(panels)
    requires columns >= COLUMNS && rows >= Bottom(panels)
    ensures |cells| == Area(panels) && cells <= Box(0, 0, columns, rows)
    ensures forall c | c in cells :: exists i :: 0 <= i < |panels| && Covers(RectOf(panels[i]), c)
  {
    cells := {};
    if panels != [] {
      var n := |panels| - 1;
      var r := RectOf(panels[n]);
      var box := Box(r.x, r.y, r.w, r.h);
      cells := CoveredCells(panels[..n], columns, rows);
      BoxSize(r.x, r.y, r.w, r.h);
      forall c | c in cells ensures c !in box {
        var i :| 0 <= i < n && Covers(RectOf(panels[..n][i]), c);
        assert !(Covers(RectOf(panels[i]), c) && Covers(r, c));
      }
      DisjointSize(cells, box);
      assert forall c | c in box :: Covers(RectOf(panels[n]), c);
      cells := cells + box;
    }
  }

  lemma DisjointSize<T>(a: set<T>, b: set<T>)
    requires forall x | x in a :: x !in b
    ensures |a + b| == |a| + |b|
  {
    assert a !! b;
  }

  lemma SubsetSize<T>(a: set<T>, b: set<T>)
    requires a <= b
    ensures |a| <= |b|
  {
    assert b == a + (b - a);
  }

  /** A container the gate passes holds no more than its columns times its
      depth. */
  lemma AreaFits(panels: seq<Panel>)
    requires LayoutProblems(panels) == []
    requires OnTheBoard(panels)
    ensures Area(panels) <= COLUMNS * Bottom(panels)
  {
    SilentIffFits(panels);
    var cells := CoveredCells(panels, COLUMNS, Bottom(panels));
    BoxSize(0, 0, COLUMNS, Bottom(panels));
    SubsetSize(cells, Box(0, 0, COLUMNS, Bottom(panels)));
  }

  /** The gate does not read the sign of a position: one panel left of column 0
      passes with more area than the columns hold. */
  lemma LeftOfTheBoard()
    ensures
      var panels := [Panel(Some(-24), Some(0), Some(48), Some(1))];
      LayoutProblems(panels) == [] && Area(panels) > COLUMNS * Bottom(panels)
  {
    var p := Panel(Some(-24), Some(0), Some(48), Some(1));
    assert [p][..0] == [];
    assert PlacedOf([p]) == [(0, RectOf(p))];
    assert Area([p]) == Area([]) + 48 && Bottom([p]) == 1;
  }

  /** Nor of a size: two empty panels may be said to overlap. */
  lemma EmptyPanelsOverlap(outer: Rect, inner: Rect)
    requires inner.w == 0 && inner.h > 0 && outer.x < inner.x < outer.x + outer.w && outer.y <= inner.y < outer.y + outer.h
    ensures Overlaps(outer, inner) && !exists c :: Covers(outer, c) && Covers(inner, c)
  {
  }
}
