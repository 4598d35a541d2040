/**
 * Properties of NXDraw that span several parts of the model: what the canvas
 * shows after a clear or an animation tick, and what a load makes of a saved
 * file, whole or cut short.
 */
module Scenarios {
  import opened Shapes
  import opened Events
  import opened Rendering
  import opened Persistence

  /** A table whose slot 0 is all zeros draws, as its only slot, a point at
      the origin in the colour of that slot. */
  lemma SlotZeroAtOrigin(t: Table)
    requires Shaped(t, |t.xy|, CORNER_FIELDS) && |t.xy| > 0 && t.xy[0] == [0, 0, 0, 0]
    ensures AllBoxOps(Rect, t, 1) == [SetColor(Picked(t.color[0])), DrawRect(0, 0, 0, 0)]
    ensures AllBoxOps(Ellipse, t, 1) == [SetColor(Picked(t.color[0])), DrawOval(0, 0, 0, 0)]
    ensures AllSegmentOps(t, 1) == [SetColor(Picked(t.color[0])), DrawLine(0, 0, 0, 0)]
  {
  }

  /** A store whose counts are all 0 draws the grids, no dab, and slot 0 of the
      rectangles, the ovals and the lines, in that order. */
  lemma EmptyStoreShowsSlotsZero(s: Store, fine: bool, coarse: bool, width: int, height: int)
    requires WellShaped(s)
    requires s.dabs.count == 0 && s.rects.count == 0 && s.ovals.count == 0 && s.lines.count == 0
    ensures var pic := Render(s, fine, coarse, width, height);
      && pic.complete
      && pic.ops == GridsOps(fine, coarse, width, height)
                    + (AllBoxOps(Rect, s.rects, 1) + AllBoxOps(Ellipse, s.ovals, 1) + AllSegmentOps(s.lines, 1))
  {
    var grids := GridsOps(fine, coarse, width, height);
    var rects, ovals, lines := AllBoxOps(Rect, s.rects, 1), AllBoxOps(Ellipse, s.ovals, 1), AllSegmentOps(s.lines, 1);
    assert AllDabOps(s.dabs, 0) == [];
    assert Render(s, fine, coarse, width, height).ops == grids + [] + rects + ovals + lines;
    assert grids + [] + rects + ovals + lines == grids + (rects + ovals + lines);
  }

  /** When, in addition, slot 0 of every box and line table is zeroed, those
      slots are points at the origin. */
  lemma EmptyStoreShowsSlotZero(s: Store, fine: bool, coarse: bool, width: int, height: int)
    requires WellShaped(s)
    requires s.dabs.count == 0 && s.rects.count == 0 && s.ovals.count == 0 && s.lines.count == 0
    requires s.rects.xy[0] == [0, 0, 0, 0] && s.ovals.xy[0] == [0, 0, 0, 0] && s.lines.xy[0] == [0, 0, 0, 0]
    ensures var pic := Render(s, fine, coarse, width, height);
      && pic.complete
      && pic.ops == GridsOps(fine, coarse, width, height)
                    + [SetColor(Picked(s.rects.color[0])), DrawRect(0, 0, 0, 0),
                       SetColor(Picked(s.ovals.color[0])), DrawOval(0, 0, 0, 0),
                       SetColor(Picked(s.lines.color[0])), DrawLine(0, 0, 0, 0)]
  {
    EmptyStoreShowsSlotsZero(s, fine, coarse, width, height);
    SlotZeroAtOrigin(s.rects);
    SlotZeroAtOrigin(s.ovals);
    SlotZeroAtOrigin(s.lines);
    var r, o, l := SetColor(Picked(s.rects.color[0])), SetColor(Picked(s.ovals.color[0])), SetColor(Picked(s.lines.color[0]));
    assert [r, DrawRect(0, 0, 0, 0)] + [o, DrawOval(0, 0, 0, 0)] + [l, DrawLine(0, 0, 0, 0)]
        == [r, DrawRect(0, 0, 0, 0), o, DrawOval(0, 0, 0, 0), l, DrawLine(0, 0, 0, 0)];
  }

  /** After a clear the canvas shows no dab, but still one rectangle, one oval
      and one line: slot 0 of each, collapsed to the origin and drawn in the
      colour it had before the clear. */
  lemma ClearedCanvasShowsSlotZero(e: State, fine: bool, coarse: bool, width: int, height: int)
    requires WellShaped(e.store)
    ensures var pic := Render(Clear(e).store, fine, coarse, width, height);
      && pic.complete
      && pic.ops == GridsOps(fine, coarse, width, height)
                    + [SetColor(Picked(e.store.rects.color[0])), DrawRect(0, 0, 0, 0),
                       SetColor(Picked(e.store.ovals.color[0])), DrawOval(0, 0, 0, 0),
                       SetColor(Picked(e.store.lines.color[0])), DrawLine(0, 0, 0, 0)]
  {
    var s := Clear(e).store;
    assert s.rects.xy[0] == [0, 0, 0, 0] && s.ovals.xy[0] == [0, 0, 0, 0] && s.lines.xy[0] == [0, 0, 0, 0];
    EmptyStoreShowsSlotZero(s, fine, coarse, width, height);
  }

  /** Hence the cleared canvas fills no circle and draws one rectangle and one oval. */
  lemma ClearedCanvasCounts(e: State, fine: bool, coarse: bool, width: int, height: int)
    requires WellShaped(e.store)
    ensures var pic := Render(Clear(e).store, fine, coarse, width, height);
      Count(pic.ops, IsFill) == 0 && Count(pic.ops, IsRect) == 1 && Count(pic.ops, IsOval) == 1
  {
    RenderCounts(Clear(e).store, fine, coarse, width, height);
  }

  /** One animation tick moves the box of oval 0 one pixel down and changes
      nothing else about how it is drawn. */
  lemma TickMovesOvalDown(e: State)
    requires WellShaped(e.store)
    ensures var row := e.store.ovals.xy[0];
      var b := Normalise(row[0], row[1], row[2], row[3]);
      BoxOps(Ellipse, Tick(e).store.ovals, 0) == [SetColor(Picked(e.store.ovals.color[0])), DrawOval(b.x, b.y + 1, b.width, b.height)]
  {
  }

  /** Loading a saved file reads all twelve items and leaves exactly the saved
      store, whatever was there before. */
  lemma LoadRestoresSave(s: Store, before: Store)
    requires WellShaped(s)
    ensures Readable(Encode(s)) == FIELDS
    ensures Overlay(before, Encode(s), Readable(Encode(s))) == s
  {
    RoundTrip(s);
    FullLoadIsDecode(before, Encode(s));
  }

  /** Loading a save cut after k items stops at k: those k fields come from the
      file and the others keep what the drawing held before. */
  lemma LoadOfCutSaveMixes(s: Store, before: Store, k: nat)
    requires WellShaped(s) && k < FIELDS
    ensures Readable(Encode(s)[..k]) == k
    ensures forall j | 0 <= j < FIELDS ::
      Encode(Overlay(before, Encode(s)[..k], k))[j] == if j < k then Encode(s)[j] else Encode(before)[j]
  {
    var rs := Encode(s)[..k];
    CutSaveIsTruncated(s, k);
    DecodeStops(rs);
    OverlayFields(before, rs, k);
  }

  /** The call at offset i of the middle section of three. */
  lemma MiddleAt(a: seq<Op>, b: seq<Op>, c: seq<Op>, i: nat)
    requires i < |b|
    ensures |a| + i < |a + b + c| && (a + b + c)[|a| + i] == b[i]
  {
  }

  /** Dab k of a store with at most MAX_FHAND dabs is drawn by the calls 2k and
      2k+1 after the grids. */
  lemma RenderedDabAt(s: Store, fine: bool, coarse: bool, width: int, height: int, k: nat)
    requires WellShaped(s) && k < s.dabs.count <= MAX_FHAND
    ensures var pic, g := Render(s, fine, coarse, width, height), |GridsOps(fine, coarse, width, height)|;
      && g + 2 * k + 1 < |pic.ops|
      && pic.ops[g + 2 * k] == SetColor(Picked(s.dabs.color[k]))
      && pic.ops[g + 2 * k + 1] == FillOval(s.dabs.xy[k][0] - Half(s.dabs.xy[k][2]), s.dabs.xy[k][1] - Half(s.dabs.xy[k][2]), s.dabs.xy[k][2], s.dabs.xy[k][2])
  {
    var grids := GridsOps(fine, coarse, width, height);
    var dabs := AllDabOps(s.dabs, s.dabs.count);
    AllDabOpsAt(s.dabs, s.dabs.count, k);
    var rest := AllBoxOps(Rect, s.rects, Shown(s.rects.count, MAX_RECTS))
                + AllBoxOps(Ellipse, s.ovals, Shown(s.ovals.count, MAX_OVALS))
                + AllSegmentOps(s.lines, Shown(s.lines.count, MAX_LINES));
    assert Render(s, fine, coarse, width, height).ops == grids + dabs + rest;
    MiddleAt(grids, dabs, rest, 2 * k);
    MiddleAt(grids, dabs, rest, 2 * k + 1);
  }

  /** N freehand clicks on an empty dab table, then a repaint: N filled circles,
      dab k as the calls 2k and 2k+1 after the grids, centred on the k-th point
      with the thickness as diameter and in the selected colour. */
  lemma ScribbleIsDrawnInOrder(e: State, pts: seq<Point>, fine: bool, coarse: bool, width: int, height: int, k: nat)
    requires WellShaped(e.store) && e.tool == Freehand
    requires e.store.dabs.count == 0 && |pts| <= MAX_FHAND && k < |pts|
    ensures var pic, g := Render(Scribble(e, pts).store, fine, coarse, width, height), |GridsOps(fine, coarse, width, height)|;
      && pic.complete
      && Count(pic.ops, IsFill) == |pts|
      && g + 2 * k + 1 < |pic.ops|
      && pic.ops[g + 2 * k] == SetColor(Picked(e.selected))
      && pic.ops[g + 2 * k + 1] == FillOval(pts[k].x - Half(e.thickness), pts[k].y - Half(e.thickness), e.thickness, e.thickness)
  {
    var s := Scribble(e, pts).store;
    ScribbleRecordsEveryDab(e, pts);
    assert s.dabs.count == |pts|;
    assert s.dabs.xy[k] == [pts[k].x, pts[k].y, e.thickness] && s.dabs.color[k] == e.selected;
    RenderCounts(s, fine, coarse, width, height);
    RenderedDabAt(s, fine, coarse, width, height, k);
  }

  /** The pair of calls at offset i of the middle section of three. */
  lemma PairAt(a: seq<Op>, b: seq<Op>, c: seq<Op>, i: nat)
    requires i + 2 <= |b|
    ensures |a| + i + 2 <= |a + b + c| && (a + b + c)[|a| + i .. |a| + i + 2] == b[i .. i + 2]
  {
    assert (a + b + c)[|a| + i .. |a| + i + 2] == [b[i], b[i + 1]];
  }

  /** A complete repaint is the grids, the dabs, the shown rectangles, the
      shown ovals and the shown lines, in that order. */
  lemma RenderSections(s: Store, fine: bool, coarse: bool, width: int, height: int)
    requires WellShaped(s) && 0 <= s.dabs.count <= MAX_FHAND
    ensures var pre := GridsOps(fine, coarse, width, height) + AllDabOps(s.dabs, s.dabs.count);
      && |pre| == |GridsOps(fine, coarse, width, height)| + 2 * s.dabs.count
      && Render(s, fine, coarse, width, height).ops
         == pre + AllBoxOps(Rect, s.rects, Shown(s.rects.count, MAX_RECTS))
            + AllBoxOps(Ellipse, s.ovals, Shown(s.ovals.count, MAX_OVALS))
            + AllSegmentOps(s.lines, Shown(s.lines.count, MAX_LINES))
  {
  }

  /** Rectangle slot k is the pair of calls 2k and 2k+1 after the grids and dabs. */
  lemma RenderedRectAt(s: Store, fine: bool, coarse: bool, width: int, height: int, k: nat)
    requires WellShaped(s) && 0 <= s.dabs.count <= MAX_FHAND && k < Shown(s.rects.count, MAX_RECTS)
    ensures var ops, g := Render(s, fine, coarse, width, height).ops, |GridsOps(fine, coarse, width, height)| + 2 * s.dabs.count;
      g + 2 * k + 2 <= |ops| && ops[g + 2 * k .. g + 2 * k + 2] == BoxOps(Rect, s.rects, k)
  {
    RenderSections(s, fine, coarse, width, height);
    var pre := GridsOps(fine, coarse, width, height) + AllDabOps(s.dabs, s.dabs.count);
    var rects := AllBoxOps(Rect, s.rects, Shown(s.rects.count, MAX_RECTS));
    var rest := AllBoxOps(Ellipse, s.ovals, Shown(s.ovals.count, MAX_OVALS)) + AllSegmentOps(s.lines, Shown(s.lines.count, MAX_LINES));
    AllBoxOpsAt(Rect, s.rects, Shown(s.rects.count, MAX_RECTS), k);
    assert Render(s, fine, coarse, width, height).ops == pre + rects + rest;
    PairAt(pre, rects, rest, 2 * k);
  }

  /** Oval slot k is the pair of calls 2k and 2k+1 after the shown rectangles. */
  lemma RenderedOvalAt(s: Store, fine: bool, coarse: bool, width: int, height: int, k: nat)
    requires WellShaped(s) && 0 <= s.dabs.count <= MAX_FHAND && k < Shown(s.ovals.count, MAX_OVALS)
    ensures var ops := Render(s, fine, coarse, width, height).ops;
      var g := |GridsOps(fine, coarse, width, height)| + 2 * s.dabs.count + 2 * Shown(s.rects.count, MAX_RECTS);
      g + 2 * k + 2 <= |ops| && ops[g + 2 * k .. g + 2 * k + 2] == BoxOps(Ellipse, s.ovals, k)
  {
    RenderSections(s, fine, coarse, width, height);
    var pre := GridsOps(fine, coarse, width, height) + AllDabOps(s.dabs, s.dabs.count)
               + AllBoxOps(Rect, s.rects, Shown(s.rects.count, MAX_RECTS));
    var ovals := AllBoxOps(Ellipse, s.ovals, Shown(s.ovals.count, MAX_OVALS));
    AllBoxOpsAt(Ellipse, s.ovals, Shown(s.ovals.count, MAX_OVALS), k);
    PairAt(pre, ovals, AllSegmentOps(s.lines, Shown(s.lines.count, MAX_LINES)), 2 * k);
  }

  /** Line slot k is the pair of calls 2k and 2k+1 after the shown ovals, and
      the shown lines end the picture. */
  lemma RenderedLineAt(s: Store, fine: bool, coarse: bool, width: int, height: int, k: nat)
    requires WellShaped(s) && 0 <= s.dabs.count <= MAX_FHAND && k < Shown(s.lines.count, MAX_LINES)
    ensures var ops := Render(s, fine, coarse, width, height).ops;
      var g := |GridsOps(fine, coarse, width, height)| + 2 * s.dabs.count
               + 2 * Shown(s.rects.count, MAX_RECTS) + 2 * Shown(s.ovals.count, MAX_OVALS);
      |ops| == g + 2 * Shown(s.lines.count, MAX_LINES) && ops[g + 2 * k .. g + 2 * k + 2] == SegmentOps(s.lines, k)
  {
    RenderSections(s, fine, coarse, width, height);
    var pre := GridsOps(fine, coarse, width, height) + AllDabOps(s.dabs, s.dabs.count)
               + AllBoxOps(Rect, s.rects, Shown(s.rects.count, MAX_RECTS))
               + AllBoxOps(Ellipse, s.ovals, Shown(s.ovals.count, MAX_OVALS));
    var lines := AllSegmentOps(s.lines, Shown(s.lines.count, MAX_LINES));
    AllSegmentOpsAt(s.lines, Shown(s.lines.count, MAX_LINES), k);
    assert pre + lines == pre + lines + [];
    PairAt(pre, lines, [], 2 * k);
  }

  /** Load reads `fhand_count` but leaves `fh_left` alone, so a complete load of
      a file whose dab count differs from the drawing's breaks the ink balance
      that every mouse event and the tick keep. */
  lemma LoadCanUnbalanceInk(e: State, rs: seq<Record>)
    requires InkBalanced(e)
    requires Decode(rs).Ok? && Decode(rs).value.dabs.count != e.store.dabs.count
    ensures !InkBalanced(e.(store := Overlay(e.store, rs, Readable(rs))))
  {
    FullLoadIsDecode(e.store, rs);
  }
}
