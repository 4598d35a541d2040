/**
 * `Canvas.draw` as a function from the store, the two grid check boxes and the
 * canvas size to the sequence of graphics calls it makes: every `setColor`
 * and every draw, in program order.
 */
module Rendering {
  import opened Shapes

  /** The colour given to `setColor`: the fine-grid gray (0.8), the coarse-grid
      gray (0.6), or a colour read from a colour array (possibly null, which the
      graphics context ignores). */
  datatype Ink = LightGray | DarkGray | Picked(color: Color)

  datatype Op =
    | SetColor(ink: Ink)
    | DrawLine(x1: int, y1: int, x2: int, y2: int)
    | FillOval(x: int, y: int, w: int, h: int)
    | DrawRect(x: int, y: int, w: int, h: int)
    | DrawOval(x: int, y: int, w: int, h: int)

  /** The calls made, and whether `draw` ran to the end; it stops early when
      `fhand_count` exceeds the dab table and the colour lookup faults. */
  datatype Picture = Picture(ops: seq<Op>, complete: bool)

  const FINE_LINE_WIDTH: nat := 10
  const COARSE_LINES_WIDTH: nat := 50

  /** Java's `n / 2` on an int, which truncates toward zero. */
  function Half(n: int): (h: int)
    ensures -1 <= n - 2 * h <= 1
    ensures n >= 0 ==> 0 <= 2 * h <= n
    ensures n < 0 ==> n <= 2 * h <= 0
  {
    if n >= 0 then n / 2 else -((-n) / 2)
  }

  /** The rectangle or oval box: top-left corner, width and height. */
  datatype Box = Box(x: int, y: int, width: int, height: int)

  /** `(min(x1,x2), min(y1,y2), |x1-x2|, |y1-y2|)`: the box whose opposite
      corners are the two given points. */
  function Normalise(x1: int, y1: int, x2: int, y2: int): (b: Box)
    ensures b.width >= 0 && b.height >= 0
  {
    Box(if x1 < x2 then x1 else x2, if y1 < y2 then y1 else y2,
        if x1 - x2 < 0 then x2 - x1 else x1 - x2,
        if y1 - y2 < 0 then y2 - y1 else y1 - y2)
  }

  /** The horizontal grid lines at i = from, from + step, ... below height. */
  function HRules(step: nat, width: int, height: int, from: int): (r: seq<Op>)
    requires step > 0
    ensures forall op | op in r :: op.DrawLine? && op.x1 == 0 && op.x2 == width && op.y1 == op.y2 && from <= op.y1 < height
    decreases height - from
  {
    if from >= height then [] else [DrawLine(0, from, width, from)] + HRules(step, width, height, from + step)
  }

  /** The vertical grid lines at i = from, from + step, ... left of width. */
  function VRules(step: nat, width: int, height: int, from: int): (r: seq<Op>)
    requires step > 0
    ensures forall op | op in r :: op.DrawLine? && op.y1 == 0 && op.y2 == height && op.x1 == op.x2 && from <= op.x1 < width
    decreases width - from
  {
    if from >= width then [] else [DrawLine(from, 0, from, height)] + VRules(step, width, height, from + step)
  }

  /** One grid: its gray, then the horizontal lines, then the vertical ones. */
  function GridOps(ink: Ink, step: nat, width: int, height: int): (r: seq<Op>)
    requires step > 0
    ensures |r| > 0 && r[0] == SetColor(ink)
    ensures forall i | 1 <= i < |r| :: r[i].DrawLine?
  {
    [SetColor(ink)] + HRules(step, width, height, 0) + VRules(step, width, height, 0)
  }

  /** Dab i: a filled circle of diameter `size` centred (as Java's integer
      division allows) on (x, y). */
  function DabOps(d: Table, i: nat): (r: seq<Op>)
    requires i < |d.xy| && i < |d.color| && |d.xy[i]| == DAB_FIELDS
    ensures |r| == 2 && r[0] == SetColor(Picked(d.color[i])) && r[1].FillOval?
    ensures r[1].w == d.xy[i][2] && r[1].h == d.xy[i][2]
    ensures -1 <= 2 * r[1].x + r[1].w - 2 * d.xy[i][0] <= 1 && -1 <= 2 * r[1].y + r[1].h - 2 * d.xy[i][1] <= 1
  {
    var size := d.xy[i][2];
    [SetColor(Picked(d.color[i])), FillOval(d.xy[i][0] - Half(size), d.xy[i][1] - Half(size), size, size)]
  }

  /** Dabs 0 .. n-1 in order. */
  function AllDabOps(d: Table, n: nat): (r: seq<Op>)
    requires Shaped(d, MAX_FHAND, DAB_FIELDS) && n <= MAX_FHAND
    ensures |r| == 2 * n
  {
    if n == 0 then [] else AllDabOps(d, n - 1) + DabOps(d, n - 1)
  }

  /** Whether a box table is drawn as rectangles or as ovals. */
  datatype Figure = Rect | Ellipse

  /** Box slot i, normalised. */
  function BoxOps(f: Figure, t: Table, i: nat): (r: seq<Op>)
    requires i < |t.xy| && i < |t.color| && |t.xy[i]| == CORNER_FIELDS
    ensures |r| == 2 && r[0] == SetColor(Picked(t.color[i]))
    ensures if f == Rect then r[1].DrawRect? else r[1].DrawOval?
    ensures var row := t.xy[i];
      && r[1].w >= 0 && r[1].h >= 0
      && ((r[1].x == row[0] && r[1].x + r[1].w == row[2]) || (r[1].x == row[2] && r[1].x + r[1].w == row[0]))
      && ((r[1].y == row[1] && r[1].y + r[1].h == row[3]) || (r[1].y == row[3] && r[1].y + r[1].h == row[1]))
  {
    var row := t.xy[i];
    var b := Normalise(row[0], row[1], row[2], row[3]);
    [SetColor(Picked(t.color[i])),
     if f == Rect then DrawRect(b.x, b.y, b.width, b.height) else DrawOval(b.x, b.y, b.width, b.height)]
  }

  /** Box slots 0 .. n-1 in order. */
  function AllBoxOps(f: Figure, t: Table, n: nat): (r: seq<Op>)
    requires Shaped(t, |t.xy|, CORNER_FIELDS) && n <= |t.xy|
    ensures |r| == 2 * n
  {
    if n == 0 then [] else AllBoxOps(f, t, n - 1) + BoxOps(f, t, n - 1)
  }

  /** Line slot i, drawn from its first corner to its second. */
  function SegmentOps(t: Table, i: nat): (r: seq<Op>)
    requires i < |t.xy| && i < |t.color| && |t.xy[i]| == CORNER_FIELDS
    ensures |r| == 2 && r[0] == SetColor(Picked(t.color[i]))
    ensures r[1].DrawLine? && r[1].x1 == t.xy[i][0] && r[1].y1 == t.xy[i][1] && r[1].x2 == t.xy[i][2] && r[1].y2 == t.xy[i][3]
  {
    var row := t.xy[i];
    [SetColor(Picked(t.color[i])), DrawLine(row[0], row[1], row[2], row[3])]
  }

  /** Line slots 0 .. n-1 in order. */
  function AllSegmentOps(t: Table, n: nat): (r: seq<Op>)
    requires Shaped(t, |t.xy|, CORNER_FIELDS) && n <= |t.xy|
    ensures |r| == 2 * n
  {
    if n == 0 then [] else AllSegmentOps(t, n - 1) + SegmentOps(t, n - 1)
  }

  /** How many slots the loop `for (i = 0; i <= count && count < MAX; i++)`
      draws: slots 0 .. count (the committed ones and the pending one) while the
      count is below the capacity, and none at all otherwise. */
  function Shown(count: int, max: nat): (n: nat)
    ensures n <= max
    ensures n > 0 <==> 0 <= count < max
  {
    if 0 <= count < max then count + 1 else 0
  }

  /** The grids the two check boxes ask for, fine before coarse. */
  function GridsOps(fine: bool, coarse: bool, width: int, height: int): (r: seq<Op>)
    ensures r == [] <==> !fine && !coarse
    ensures fine ==> r[0] == SetColor(LightGray)
    ensures !fine && coarse ==> r[0] == SetColor(DarkGray)
  {
    (if fine then GridOps(LightGray, FINE_LINE_WIDTH, width, height) else [])
    + (if coarse then GridOps(DarkGray, COARSE_LINES_WIDTH, width, height) else [])
  }

  /** `Canvas.draw`: grids, dabs, rectangles, ovals, lines. When `fhand_count`
      exceeds the dab capacity the dab loop faults at index MAX_FHAND, after
      drawing every dab, and nothing further is drawn. */
  function Render(s: Store, fine: bool, coarse: bool, width: int, height: int): (pic: Picture)
    requires WellShaped(s)
    ensures pic.complete <==> s.dabs.count <= MAX_FHAND
    ensures GridsOps(fine, coarse, width, height) <= pic.ops
  {
    var grids := GridsOps(fine, coarse, width, height);
    if s.dabs.count > MAX_FHAND then
      Picture(grids + AllDabOps(s.dabs, MAX_FHAND), false)
    else
      Picture(grids
              + AllDabOps(s.dabs, if s.dabs.count < 0 then 0 else s.dabs.count)
              + AllBoxOps(Rect, s.rects, Shown(s.rects.count, MAX_RECTS))
              + AllBoxOps(Ellipse, s.ovals, Shown(s.ovals.count, MAX_OVALS))
              + AllSegmentOps(s.lines, Shown(s.lines.count, MAX_LINES)),
              true)
  }

  // ---------------------------------------------------------------------------
  // Properties

  /** The box starts at the smaller coordinate and reaches the larger one, so
      its corners are exactly the two given points' coordinates. */
  lemma NormaliseSpansCorners(x1: int, y1: int, x2: int, y2: int)
    ensures var b := Normalise(x1, y1, x2, y2);
      && b.x <= x1 && b.x <= x2 && b.y <= y1 && b.y <= y2
      && {b.x, b.x + b.width} == {x1, x2}
      && {b.y, b.y + b.height} == {y1, y2}
  {
  }

  /** A box does not depend on which corner was pressed first. */
  lemma NormaliseIgnoresCornerOrder(x1: int, y1: int, x2: int, y2: int)
    ensures Normalise(x1, y1, x2, y2) == Normalise(x2, y2, x1, y1)
    ensures Normalise(x1, y1, x2, y2) == Normalise(x1, y2, x2, y1)
  {
  }

  /** Grid line k lies at from + k * step, every one of them is inside the
      canvas, and the next one would not be. */
  lemma {:induction false} HRulesAt(step: nat, width: int, height: int, from: int)
    requires step > 0
    ensures var r := HRules(step, width, height, from);
      && (forall k | 0 <= k < |r| :: r[k] == DrawLine(0, from + k * step, width, from + k * step) && from + k * step < height)
      && from + |r| * step >= height
    decreases height - from
  {
    if from < height {
      HRulesAt(step, width, height, from + step);
      var r := HRules(step, width, height, from);
      var rest := HRules(step, width, height, from + step);
      assert r == [DrawLine(0, from, width, from)] + rest;
      forall k | 1 <= k < |r|
        ensures r[k] == DrawLine(0, from + k * step, width, from + k * step)
      {
        assert r[k] == rest[k - 1];
        assert (from + step) + (k - 1) * step == from + k * step;
      }
      assert (from + step) + |rest| * step == from + |r| * step;
    }
  }

  /** Vertical grid lines, likewise. */
  lemma {:induction false} VRulesAt(step: nat, width: int, height: int, from: int)
    requires step > 0
    ensures var r := VRules(step, width, height, from);
      && (forall k | 0 <= k < |r| :: r[k] == DrawLine(from + k * step, 0, from + k * step, height) && from + k * step < width)
      && from + |r| * step >= width
    decreases width - from
  {
    if from < width {
      VRulesAt(step, width, height, from + step);
      var r := VRules(step, width, height, from);
      var rest := VRules(step, width, height, from + step);
      assert r == [DrawLine(from, 0, from, height)] + rest;
      forall k | 1 <= k < |r|
        ensures r[k] == DrawLine(from + k * step, 0, from + k * step, height)
      {
        assert r[k] == rest[k - 1];
        assert (from + step) + (k - 1) * step == from + k * step;
      }
      assert (from + step) + |rest| * step == from + |r| * step;
    }
  }

  /** The dab part of the picture is two calls per dab, in insertion order, each
      pair setting the dab's colour and filling its circle. */
  lemma {:induction false} AllDabOpsAt(d: Table, n: nat, k: nat)
    requires Shaped(d, MAX_FHAND, DAB_FIELDS) && k < n <= MAX_FHAND
    ensures |AllDabOps(d, n)| == 2 * n
    ensures AllDabOps(d, n)[2 * k] == SetColor(Picked(d.color[k]))
    ensures AllDabOps(d, n)[2 * k + 1] == FillOval(d.xy[k][0] - Half(d.xy[k][2]), d.xy[k][1] - Half(d.xy[k][2]), d.xy[k][2], d.xy[k][2])
    decreases n
  {
    if k < n - 1 {
      AllDabOpsAt(d, n - 1, k);
    } else if n > 1 {
      AllDabOpsAt(d, n - 1, 0);
    }
  }

  /** The number of calls satisfying `p`. */
  function Count(ops: seq<Op>, p: Op -> bool): (c: nat)
    ensures c <= |ops|
  {
    if ops == [] then 0 else Count(ops[..|ops| - 1], p) + (if p(ops[|ops| - 1]) then 1 else 0)
  }

  lemma {:induction false} CountConcat(a: seq<Op>, b: seq<Op>, p: Op -> bool)
    ensures Count(a + b, p) == Count(a, p) + Count(b, p)
    decreases |b|
  {
    if b != [] {
      CountConcat(a, b[..|b| - 1], p);
      assert (a + b)[..|a + b| - 1] == a + b[..|b| - 1];
    } else {
      assert a + b == a;
    }
  }

  predicate IsFill(op: Op) { op.FillOval? }
  predicate IsRect(op: Op) { op.DrawRect? }
  predicate IsOval(op: Op) { op.DrawOval? }
  predicate IsLine(op: Op) { op.DrawLine? }

  /** Calls that only set a colour or draw a straight line, as the grids do. */
  predicate Plain(ops: seq<Op>)
  {
    forall k | 0 <= k < |ops| :: ops[k].SetColor? || ops[k].DrawLine?
  }

  lemma {:induction false} PlainCountsNoShapes(ops: seq<Op>)
    requires Plain(ops)
    ensures Count(ops, IsFill) == 0 && Count(ops, IsRect) == 0 && Count(ops, IsOval) == 0
    decreases |ops|
  {
    if ops != [] {
      PlainCountsNoShapes(ops[..|ops| - 1]);
    }
  }

  lemma PlainConcat(a: seq<Op>, b: seq<Op>)
    requires Plain(a) && Plain(b)
    ensures Plain(a + b)
  {
  }

  lemma {:induction false} HRulesArePlain(step: nat, width: int, height: int, from: int)
    requires step > 0
    ensures Plain(HRules(step, width, height, from))
    decreases height - from
  {
    if from < height {
      HRulesArePlain(step, width, height, from + step);
      PlainConcat([DrawLine(0, from, width, from)], HRules(step, width, height, from + step));
    }
  }

  lemma {:induction false} VRulesArePlain(step: nat, width: int, height: int, from: int)
    requires step > 0
    ensures Plain(VRules(step, width, height, from))
    decreases width - from
  {
    if from < width {
      VRulesArePlain(step, width, height, from + step);
      PlainConcat([DrawLine(from, 0, from, height)], VRules(step, width, height, from + step));
    }
  }

  lemma GridOpsArePlain(ink: Ink, step: nat, width: int, height: int)
    requires step > 0
    ensures Plain(GridOps(ink, step, width, height))
  {
    HRulesArePlain(step, width, height, 0);
    VRulesArePlain(step, width, height, 0);
    PlainConcat([SetColor(ink)], HRules(step, width, height, 0));
    PlainConcat([SetColor(ink)] + HRules(step, width, height, 0), VRules(step, width, height, 0));
  }

  lemma GridsArePlain(fine: bool, coarse: bool, width: int, height: int)
    ensures Plain(GridsOps(fine, coarse, width, height))
  {
    GridOpsArePlain(LightGray, FINE_LINE_WIDTH, width, height);
    GridOpsArePlain(DarkGray, COARSE_LINES_WIDTH, width, height);
    PlainConcat(if fine then GridOps(LightGray, FINE_LINE_WIDTH, width, height) else [],
                if coarse then GridOps(DarkGray, COARSE_LINES_WIDTH, width, height) else []);
  }

  lemma CountPair(a: Op, b: Op, p: Op -> bool)
    ensures Count([a, b], p) == (if p(a) then 1 else 0) + (if p(b) then 1 else 0)
  {
    assert [a, b][..1] == [a];
    assert [a][..0] == [];
  }

  /** The rectangle or oval part of the picture is two calls per slot, in slot
      order: calls 2k and 2k+1 are slot k's colour and its figure. */
  lemma {:induction false} AllBoxOpsAt(f: Figure, t: Table, n: nat, k: nat)
    requires Shaped(t, |t.xy|, CORNER_FIELDS) && k < n <= |t.xy|
    ensures 2 * k + 2 <= |AllBoxOps(f, t, n)|
    ensures AllBoxOps(f, t, n)[2 * k .. 2 * k + 2] == BoxOps(f, t, k)
    decreases n
  {
    if k < n - 1 {
      AllBoxOpsAt(f, t, n - 1, k);
      var init := AllBoxOps(f, t, n - 1);
      assert (init + BoxOps(f, t, n - 1))[2 * k .. 2 * k + 2] == init[2 * k .. 2 * k + 2];
    }
  }

  /** The line part of the picture likewise: calls 2k and 2k+1 are slot k's
      colour and its segment. */
  lemma {:induction false} AllSegmentOpsAt(t: Table, n: nat, k: nat)
    requires Shaped(t, |t.xy|, CORNER_FIELDS) && k < n <= |t.xy|
    ensures 2 * k + 2 <= |AllSegmentOps(t, n)|
    ensures AllSegmentOps(t, n)[2 * k .. 2 * k + 2] == SegmentOps(t, k)
    decreases n
  {
    if k < n - 1 {
      AllSegmentOpsAt(t, n - 1, k);
      var init := AllSegmentOps(t, n - 1);
      assert (init + SegmentOps(t, n - 1))[2 * k .. 2 * k + 2] == init[2 * k .. 2 * k + 2];
    }
  }

  /** n dabs fill n circles and draw no box. */
  lemma {:induction false} DabSectionCounts(d: Table, n: nat)
    requires Shaped(d, MAX_FHAND, DAB_FIELDS) && n <= MAX_FHAND
    ensures Count(AllDabOps(d, n), IsFill) == n
    ensures Count(AllDabOps(d, n), IsRect) == 0 && Count(AllDabOps(d, n), IsOval) == 0
    decreases n
  {
    if n > 0 {
      DabSectionCounts(d, n - 1);
      var last := DabOps(d, n - 1);
      CountConcat(AllDabOps(d, n - 1), last, IsFill);
      CountConcat(AllDabOps(d, n - 1), last, IsRect);
      CountConcat(AllDabOps(d, n - 1), last, IsOval);
      CountPair(last[0], last[1], IsFill);
      CountPair(last[0], last[1], IsRect);
      CountPair(last[0], last[1], IsOval);
    }
  }

  /** n box slots draw n boxes of their figure and nothing else that counts. */
  lemma {:induction false} BoxSectionCounts(f: Figure, t: Table, n: nat)
    requires Shaped(t, |t.xy|, CORNER_FIELDS) && n <= |t.xy|
    ensures Count(AllBoxOps(f, t, n), IsFill) == 0
    ensures Count(AllBoxOps(f, t, n), IsRect) == (if f == Rect then n else 0)
    ensures Count(AllBoxOps(f, t, n), IsOval) == (if f == Ellipse then n else 0)
    decreases n
  {
    if n > 0 {
      BoxSectionCounts(f, t, n - 1);
      var last := BoxOps(f, t, n - 1);
      CountConcat(AllBoxOps(f, t, n - 1), last, IsFill);
      CountConcat(AllBoxOps(f, t, n - 1), last, IsRect);
      CountConcat(AllBoxOps(f, t, n - 1), last, IsOval);
      CountPair(last[0], last[1], IsFill);
      CountPair(last[0], last[1], IsRect);
      CountPair(last[0], last[1], IsOval);
    }
  }

  /** n line slots draw n segments, and fill nothing and draw no box. */
  lemma {:induction false} SegmentSectionCounts(t: Table, n: nat)
    requires Shaped(t, |t.xy|, CORNER_FIELDS) && n <= |t.xy|
    ensures Count(AllSegmentOps(t, n), IsLine) == n
    ensures Count(AllSegmentOps(t, n), IsFill) == 0
    ensures Count(AllSegmentOps(t, n), IsRect) == 0 && Count(AllSegmentOps(t, n), IsOval) == 0
    decreases n
  {
    if n > 0 {
      SegmentSectionCounts(t, n - 1);
      var last := SegmentOps(t, n - 1);
      CountConcat(AllSegmentOps(t, n - 1), last, IsLine);
      CountConcat(AllSegmentOps(t, n - 1), last, IsFill);
      CountConcat(AllSegmentOps(t, n - 1), last, IsRect);
      CountConcat(AllSegmentOps(t, n - 1), last, IsOval);
      CountPair(last[0], last[1], IsLine);
      CountPair(last[0], last[1], IsFill);
      CountPair(last[0], last[1], IsRect);
      CountPair(last[0], last[1], IsOval);
    }
  }

  lemma CountFive(a: seq<Op>, b: seq<Op>, c: seq<Op>, d: seq<Op>, e: seq<Op>, p: Op -> bool)
    ensures Count(a + b + c + d + e, p) == Count(a, p) + Count(b, p) + Count(c, p) + Count(d, p) + Count(e, p)
  {
    CountConcat(a, b, p);
    CountConcat(a + b, c, p);
    CountConcat(a + b + c, d, p);
    CountConcat(a + b + c + d, e, p);
  }

  /** What a repaint shows: one filled circle per dab (all MAX_FHAND of them,
      and then nothing more, when the count is past the table); one rectangle
      per slot 0 .. count while the rectangle count is below its capacity and
      none once it reaches it; ovals likewise. */
  lemma RenderCounts(s: Store, fine: bool, coarse: bool, width: int, height: int)
    requires WellShaped(s)
    ensures var pic := Render(s, fine, coarse, width, height);
      && (pic.complete <==> s.dabs.count <= MAX_FHAND)
      && Count(pic.ops, IsFill) == (if s.dabs.count < 0 then 0 else if s.dabs.count > MAX_FHAND then MAX_FHAND else s.dabs.count)
      && Count(pic.ops, IsRect) == (if pic.complete then Shown(s.rects.count, MAX_RECTS) else 0)
      && Count(pic.ops, IsOval) == (if pic.complete then Shown(s.ovals.count, MAX_OVALS) else 0)
  {
    var grids := GridsOps(fine, coarse, width, height);
    GridsArePlain(fine, coarse, width, height);
    PlainCountsNoShapes(grids);
    var n := if s.dabs.count < 0 then 0 else if s.dabs.count > MAX_FHAND then MAX_FHAND else s.dabs.count;
    var dabs := AllDabOps(s.dabs, n);
    DabSectionCounts(s.dabs, n);
    if s.dabs.count <= MAX_FHAND {
      CompleteCounts(s, grids, dabs, n);
    } else {
      CountConcat(grids, dabs, IsFill);
      CountConcat(grids, dabs, IsRect);
      CountConcat(grids, dabs, IsOval);
    }
  }

  lemma CompleteCounts(s: Store, grids: seq<Op>, dabs: seq<Op>, n: nat)
    requires WellShaped(s) && n <= MAX_FHAND
    requires Count(grids, IsFill) == 0 && Count(grids, IsRect) == 0 && Count(grids, IsOval) == 0
    requires Count(dabs, IsFill) == n && Count(dabs, IsRect) == 0 && Count(dabs, IsOval) == 0
    ensures var ops := grids + dabs + AllBoxOps(Rect, s.rects, Shown(s.rects.count, MAX_RECTS))
                     + AllBoxOps(Ellipse, s.ovals, Shown(s.ovals.count, MAX_OVALS))
                     + AllSegmentOps(s.lines, Shown(s.lines.count, MAX_LINES));
      && Count(ops, IsFill) == n
      && Count(ops, IsRect) == Shown(s.rects.count, MAX_RECTS)
      && Count(ops, IsOval) == Shown(s.ovals.count, MAX_OVALS)
  {
    var rects := AllBoxOps(Rect, s.rects, Shown(s.rects.count, MAX_RECTS));
    var ovals := AllBoxOps(Ellipse, s.ovals, Shown(s.ovals.count, MAX_OVALS));
    var lines := AllSegmentOps(s.lines, Shown(s.lines.count, MAX_LINES));
    BoxSectionCounts(Rect, s.rects, Shown(s.rects.count, MAX_RECTS));
    BoxSectionCounts(Ellipse, s.ovals, Shown(s.ovals.count, MAX_OVALS));
    SegmentSectionCounts(s.lines, Shown(s.lines.count, MAX_LINES));
    CountFive(grids, dabs, rects, ovals, lines, IsFill);
    CountFive(grids, dabs, rects, ovals, lines, IsRect);
    CountFive(grids, dabs, rects, ovals, lines, IsOval);
  }
}
