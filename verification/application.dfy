/**
 * The `NXDraw` frame's drawing state as the program keeps it: two-dimensional
 * `int` arrays and `Color` arrays updated in place by the mouse listeners, the
 * animation timer, the clear button and the load menu, and read by the
 * canvas's `draw` and the save menu. Every method is proved against the
 * matching function of `Events`, `Rendering` or `Persistence` applied to the
 * abstract state `Model()` the fields stand for.
 */
module Application {
  import opened Shapes
  import opened Events
  import opened Rendering
  import opened Persistence

  /** The rows of a two-dimensional array, as the `int[][]` it stands for. */
  function Rows(a: array2<int>): (g: seq<seq<int>>)
    reads a
    ensures |g| == a.Length0
    ensures forall i | 0 <= i < a.Length0 :: |g[i]| == a.Length1
    ensures forall i, j | 0 <= i < a.Length0 && 0 <= j < a.Length1 :: g[i][j] == a[i, j]
  {
    seq(a.Length0, i requires 0 <= i < a.Length0 reads a =>
      seq(a.Length1, j requires 0 <= j < a.Length1 reads a => a[i, j]))
  }

  /** An array whose every entry is the matching entry of `g` has `g` as its rows. */
  lemma RowsAre(a: array2<int>, g: seq<seq<int>>)
    requires |g| == a.Length0
    requires forall i | 0 <= i < a.Length0 :: |g[i]| == a.Length1
    requires forall i, j | 0 <= i < a.Length0 && 0 <= j < a.Length1 :: g[i][j] == a[i, j]
    ensures Rows(a) == g
  {
    forall i | 0 <= i < a.Length0
      ensures Rows(a)[i] == g[i]
    {
    }
  }

  /** An array whose row `r` now holds `row` and whose other rows are those of `before`. */
  lemma RowReplaced(a: array2<int>, before: seq<seq<int>>, r: nat, row: seq<int>)
    requires |before| == a.Length0 && r < a.Length0 && |row| == a.Length1
    requires forall i | 0 <= i < a.Length0 :: |before[i]| == a.Length1
    requires forall i, j | 0 <= i < a.Length0 && 0 <= j < a.Length1 ::
      a[i, j] == if i == r then row[j] else before[i][j]
    ensures Rows(a) == before[r := row]
  {
    RowsAre(a, before[r := row]);
  }

  /** `new int[n][m]` holding the given rows (all zeros for a fresh table). */
  method NewGrid(g: seq<seq<int>>, n: nat, m: nat) returns (a: array2<int>)
    requires |g| == n && forall i | 0 <= i < n :: |g[i]| == m
    ensures fresh(a) && a.Length0 == n && a.Length1 == m
    ensures Rows(a) == g
  {
    a := new int[n, m]((i, j) requires 0 <= i < n && 0 <= j < m => g[i][j]);
    RowsAre(a, g);
  }

  /** A `Color[]` holding the given colours. */
  method NewColors(cs: seq<Color>) returns (a: array<Color>)
    ensures fresh(a) && a[..] == cs
  {
    a := new Color[|cs|](i requires 0 <= i < |cs| => cs[i]);
  }

  /** One case of `mousePressed`: both corners of slot `count` go to (x, y) and
      its colour to `c`. An index out of range faults before anything is written. */
  method StartShape(xy: array2<int>, colors: array<Color>, count: int, x: int, y: int, c: Color)
    returns (status: Status)
    requires xy.Length1 == CORNER_FIELDS && colors.Length == xy.Length0
    modifies xy, colors
    ensures status == if 0 <= count < xy.Length0 then Done else Fault
    ensures status == Done ==> Rows(xy) == old(Rows(xy))[count := [x, y, x, y]]
    ensures status == Done ==> colors[..] == old(colors[..])[count := c]
    ensures status == Fault ==> Rows(xy) == old(Rows(xy)) && colors[..] == old(colors[..])
  {
    if 0 <= count < xy.Length0 {
      ghost var before := Rows(xy);
      xy[count, 2] := x;
      xy[count, 0] := x;
      xy[count, 3] := y;
      xy[count, 1] := y;
      colors[count] := c;
      RowReplaced(xy, before, count, [x, y, x, y]);
      status := Done;
    } else {
      status := Fault;
    }
  }

  /** The writes of `updateFreeHandArrays`: slot `count` gets the colour `c`
      and the row (x, y, size). */
  method WriteDab(xy: array2<int>, colors: array<Color>, count: nat, x: int, y: int, size: int, c: Color)
    requires xy.Length1 == DAB_FIELDS && count < xy.Length0 && colors.Length == xy.Length0
    modifies xy, colors
    ensures Rows(xy) == old(Rows(xy))[count := [x, y, size]]
    ensures colors[..] == old(colors[..])[count := c]
  {
    ghost var before := Rows(xy);
    colors[count] := c;
    xy[count, 0] := x;
    xy[count, 1] := y;
    xy[count, 2] := size;
    RowReplaced(xy, before, count, [x, y, size]);
  }

  /** One case of `mouseDragged`: the second corner of slot `count` goes to
      (x, y). An index out of range faults before anything is written. */
  method MoveCorner(xy: array2<int>, count: int, x: int, y: int) returns (status: Status)
    requires xy.Length1 == CORNER_FIELDS
    modifies xy
    ensures status == if 0 <= count < xy.Length0 then Done else Fault
    ensures status == Done ==> Rows(xy) == old(Rows(xy))[count := old(Rows(xy))[count][2 := x][3 := y]]
    ensures status == Fault ==> Rows(xy) == old(Rows(xy))
  {
    if 0 <= count < xy.Length0 {
      ghost var before := Rows(xy);
      xy[count, 2] := x;
      xy[count, 3] := y;
      RowReplaced(xy, before, count, before[count][2 := x][3 := y]);
      status := Done;
    } else {
      status := Fault;
    }
  }

  /** The calls one grid makes: its gray, a horizontal line every `step` pixels
      down the canvas, then a vertical line every `step` pixels across it. */
  method GridCalls(ink: Ink, step: nat, width: int, height: int) returns (ops: seq<Op>)
    requires step > 0
    ensures ops == GridOps(ink, step, width, height)
  {
    ops := [SetColor(ink)];
    var i := 0;
    while i < height
      invariant ops + HRules(step, width, height, i) == [SetColor(ink)] + HRules(step, width, height, 0)
      decreases height - i
    {
      assert HRules(step, width, height, i) == [DrawLine(0, i, width, i)] + HRules(step, width, height, i + step);
      ops := ops + [DrawLine(0, i, width, i)];
      i := i + step;
    }
    assert HRules(step, width, height, i) == [];
    ghost var across := ops;
    i := 0;
    while i < width
      invariant ops + VRules(step, width, height, i) == across + VRules(step, width, height, 0)
      decreases width - i
    {
      assert VRules(step, width, height, i) == [DrawLine(i, 0, i, height)] + VRules(step, width, height, i + step);
      ops := ops + [DrawLine(i, 0, i, height)];
      i := i + step;
    }
    assert VRules(step, width, height, i) == [];
    assert across == [SetColor(ink)] + HRules(step, width, height, 0);
  }

  /** The dab loop of `draw`: for i from 0 while i < count, the colour of dab i
      and a filled circle of its size centred on it. Once i reaches the end of
      the arrays the colour lookup faults and the loop stops incomplete. */
  method DabCalls(xy: array2<int>, colors: array<Color>, count: int) returns (ops: seq<Op>, complete: bool)
    requires xy.Length0 == MAX_FHAND && xy.Length1 == DAB_FIELDS && colors.Length == MAX_FHAND
    ensures complete <==> count <= MAX_FHAND
    ensures ops == AllDabOps(Table(Rows(xy), colors[..], count),
                             if count > MAX_FHAND then MAX_FHAND else if count < 0 then 0 else count)
  {
    ghost var t := Table(Rows(xy), colors[..], count);
    ops := [];
    var i := 0;
    while i < count
      invariant 0 <= i <= MAX_FHAND && (i <= count || i == 0)
      invariant ops == AllDabOps(t, i)
    {
      if i >= colors.Length {
        return ops, false;
      }
      var size := xy[i, 2];
      ops := ops + [SetColor(Picked(colors[i])), FillOval(xy[i, 0] - Half(size), xy[i, 1] - Half(size), size, size)];
      i := i + 1;
    }
    complete := true;
  }

  /** One pass of the rectangle or oval loop: the colour of slot i and the box
      spanned by its two corners. */
  method BoxCall(f: Figure, xy: array2<int>, colors: array<Color>, count: int, i: nat) returns (step: seq<Op>)
    requires i < xy.Length0 == colors.Length && xy.Length1 == CORNER_FIELDS
    ensures step == BoxOps(f, Table(Rows(xy), colors[..], count), i)
  {
    var b := Normalise(xy[i, 0], xy[i, 1], xy[i, 2], xy[i, 3]);
    step := [SetColor(Picked(colors[i])),
             if f == Rect then DrawRect(b.x, b.y, b.width, b.height) else DrawOval(b.x, b.y, b.width, b.height)];
  }

  /** The rectangle or oval loop of `draw`: `for (i = 0; i <= count && count < max; i++)`,
      the colour of slot i and its normalised box. */
  method BoxCalls(f: Figure, xy: array2<int>, colors: array<Color>, count: int, max: nat) returns (ops: seq<Op>)
    requires xy.Length0 == max && xy.Length1 == CORNER_FIELDS && colors.Length == max
    ensures ops == AllBoxOps(f, Table(Rows(xy), colors[..], count), Shown(count, max))
  {
    ghost var t := Table(Rows(xy), colors[..], count);
    ops := [];
    var i := 0;
    while i <= count && count < max
      invariant 0 <= i <= Shown(count, max)
      invariant ops == AllBoxOps(f, t, i)
    {
      var step := BoxCall(f, xy, colors, count, i);
      ops := ops + step;
      assert ops == AllBoxOps(f, t, i + 1);
      i := i + 1;
    }
    assert i == Shown(count, max);
  }

  /** The line loop of `draw`: `for (i = 0; i <= count && count < max; i++)`,
      the colour of slot i and the segment between its two corners. */
  method SegmentCalls(xy: array2<int>, colors: array<Color>, count: int, max: nat) returns (ops: seq<Op>)
    requires xy.Length0 == max && xy.Length1 == CORNER_FIELDS && colors.Length == max
    ensures ops == AllSegmentOps(Table(Rows(xy), colors[..], count), Shown(count, max))
  {
    ghost var t := Table(Rows(xy), colors[..], count);
    assert Shaped(t, max, CORNER_FIELDS);
    ops := [];
    var i := 0;
    while i <= count && count < max
      invariant 0 <= i <= Shown(count, max)
      invariant ops == AllSegmentOps(t, i)
    {
      ops := ops + [SetColor(Picked(colors[i])), DrawLine(xy[i, 0], xy[i, 1], xy[i, 2], xy[i, 3])];
      i := i + 1;
    }
  }

  class NXDraw {
    var fhandThickness: int
    var fhandCount: int
    var fhandColor: array<Color>
    var fhandXY: array2<int>
    var selectedColor: Color
    var fhLeft: int

    var rectXY: array2<int>
    var rectColor: array<Color>
    var rectCount: int

    var ovalXY: array2<int>
    var ovalColor: array<Color>
    var ovalCount: int

    var lineXY: array2<int>
    var lineColor: array<Color>
    var lineCount: int

    var mode: Tool

    /** The arrays have the shapes the program allocates, and no two fields
        share an array. */
    ghost predicate Valid()
      reads this`lineXY, this`lineColor, this`ovalXY, this`ovalColor, this`rectXY, this`rectColor, this`fhandXY, this`fhandColor
    {
      && lineXY.Length0 == MAX_LINES && lineXY.Length1 == CORNER_FIELDS && lineColor.Length == MAX_LINES
      && ovalXY.Length0 == MAX_OVALS && ovalXY.Length1 == CORNER_FIELDS && ovalColor.Length == MAX_OVALS
      && rectXY.Length0 == MAX_RECTS && rectXY.Length1 == CORNER_FIELDS && rectColor.Length == MAX_RECTS
      && fhandXY.Length0 == MAX_FHAND && fhandXY.Length1 == DAB_FIELDS && fhandColor.Length == MAX_FHAND
      && lineXY != ovalXY && lineXY != rectXY && lineXY != fhandXY
      && ovalXY != rectXY && ovalXY != fhandXY && rectXY != fhandXY
      && lineColor != ovalColor && lineColor != rectColor && lineColor != fhandColor
      && ovalColor != rectColor && ovalColor != fhandColor && rectColor != fhandColor
    }

    /** Each table as its arrays and count hold it. */
    ghost function Lines(): Table
      reads this`lineXY, this`lineColor, this`lineCount, lineXY, lineColor
    {
      Table(Rows(lineXY), lineColor[..], lineCount)
    }

    ghost function Ovals(): Table
      reads this`ovalXY, this`ovalColor, this`ovalCount, ovalXY, ovalColor
    {
      Table(Rows(ovalXY), ovalColor[..], ovalCount)
    }

    ghost function Rects(): Table
      reads this`rectXY, this`rectColor, this`rectCount, rectXY, rectColor
    {
      Table(Rows(rectXY), rectColor[..], rectCount)
    }

    ghost function Dabs(): Table
      reads this`fhandXY, this`fhandColor, this`fhandCount, fhandXY, fhandColor
    {
      Table(Rows(fhandXY), fhandColor[..], fhandCount)
    }

    /** What the arrays and counts hold: everything drawn and saved. */
    ghost function Stored(): (s: Store)
      reads this`lineXY, this`lineColor, this`lineCount, this`ovalXY, this`ovalColor, this`ovalCount,
        this`rectXY, this`rectColor, this`rectCount, this`fhandXY, this`fhandColor, this`fhandCount,
        lineXY, lineColor, ovalXY, ovalColor, rectXY, rectColor, fhandXY, fhandColor
      ensures Valid() ==> WellShaped(s)
    {
      Store(Lines(), Ovals(), Rects(), Dabs())
    }

    /** The whole drawing state: the store, the ink left and the session state. */
    ghost function Model(): State
      reads this, lineXY, lineColor, ovalXY, ovalColor, rectXY, rectColor, fhandXY, fhandColor
    {
      State(Stored(), fhLeft, mode, selectedColor, fhandThickness)
    }

    /** The field initialisers: empty tables, all the ink, the line tool, the
        initial colour and thickness 1. */
    constructor (black: Paint)
      ensures Valid() && Model() == Initial(Shade(black))
    {
      var dabs := NewGrid(Zeros(MAX_FHAND, DAB_FIELDS), MAX_FHAND, DAB_FIELDS);
      var dabColors := NewColors(Nulls(MAX_FHAND));
      var rects := NewGrid(Zeros(MAX_RECTS, CORNER_FIELDS), MAX_RECTS, CORNER_FIELDS);
      var rectColors := NewColors(Nulls(MAX_RECTS));
      var ovals := NewGrid(Zeros(MAX_OVALS, CORNER_FIELDS), MAX_OVALS, CORNER_FIELDS);
      var ovalColors := NewColors(Nulls(MAX_OVALS));
      var lines := NewGrid(Zeros(MAX_LINES, CORNER_FIELDS), MAX_LINES, CORNER_FIELDS);
      var lineColors := NewColors(Nulls(MAX_LINES));
      fhandThickness := 1;
      fhandCount := 0;
      fhandColor := dabColors;
      fhandXY := dabs;
      selectedColor := Shade(black);
      fhLeft := MAX_FHAND;
      rectXY := rects;
      rectColor := rectColors;
      rectCount := 0;
      ovalXY := ovals;
      ovalColor := ovalColors;
      ovalCount := 0;
      lineXY := lines;
      lineColor := lineColors;
      lineCount := 0;
      mode := Line;
    }

    /** `updateFreeHandArrays`: the dab at (x, y) with the current thickness and
        colour goes into slot `fhandCount`; false when there is no such slot. */
    method UpdateFreeHandArrays(x: int, y: int) returns (ok: bool)
      requires Valid()
      modifies this`fhandCount, this`fhLeft, fhandXY, fhandColor
      ensures Valid()
      ensures var r := AppendDab(old(Model()), x, y); ok == (r.status == Done) && Model() == r.next
    {
      ghost var e := old(Model());
      ok := 0 <= fhandCount < fhandColor.Length;
      if ok {
        WriteDab(fhandXY, fhandColor, fhandCount, x, y, fhandThickness, selectedColor);
        fhandCount := fhandCount + 1;
        fhLeft := fhLeft - 1;
        assert Dabs() == AppendDab(e, x, y).next.store.dabs;
        assert Stored() == AppendDab(e, x, y).next.store;
      }
    }

    /** `mousePressed`: start a line, rectangle or oval at (x, y) in slot `count`. */
    method MousePressed(x: int, y: int) returns (status: Status)
      requires Valid()
      modifies lineXY, lineColor, rectXY, rectColor, ovalXY, ovalColor
      ensures Valid()
      ensures var r := Press(old(Model()), x, y); status == r.status && Model() == r.next
    {
      match mode
      case Line => status := StartShape(lineXY, lineColor, lineCount, x, y, selectedColor);
      case Rectangle => status := StartShape(rectXY, rectColor, rectCount, x, y, selectedColor);
      case Oval => status := StartShape(ovalXY, ovalColor, ovalCount, x, y, selectedColor);
      case Freehand => status := Done;
    }

    /** `mouseDragged`: a dab with the freehand tool; otherwise the pending
        shape's second corner follows the mouse. */
    method MouseDragged(x: int, y: int) returns (status: Status)
      requires Valid()
      modifies this`fhandCount, this`fhLeft, fhandXY, fhandColor, lineXY, rectXY, ovalXY
      ensures Valid()
      ensures var r := Drag(old(Model()), x, y); status == r.status && Model() == r.next
    {
      status := Done;
      if mode == Freehand {
        var ok := UpdateFreeHandArrays(x, y);
        if !ok {
          status := NoInk;
        }
      }
      match mode
      case Line => status := MoveCorner(lineXY, lineCount, x, y);
      case Rectangle => status := MoveCorner(rectXY, rectCount, x, y);
      case Oval => status := MoveCorner(ovalXY, ovalCount, x, y);
      case Freehand =>
    }

    /** `mouseReleased`: count the pending line, rectangle or oval. */
    method MouseReleased()
      requires Valid()
      modifies this`lineCount, this`rectCount, this`ovalCount
      ensures Valid()
      ensures Model() == Release(old(Model()))
    {
      match mode
      case Line => lineCount := lineCount + 1;
      case Rectangle => rectCount := rectCount + 1;
      case Oval => ovalCount := ovalCount + 1;
      case Freehand =>
    }

    /** `mouseClicked`: a dab with the freehand tool, nothing otherwise. */
    method MouseClicked(x: int, y: int) returns (status: Status)
      requires Valid()
      modifies this`fhandCount, this`fhLeft, fhandXY, fhandColor
      ensures Valid()
      ensures var r := Click(old(Model()), x, y); status == r.status && Model() == r.next
    {
      status := Done;
      if mode == Freehand {
        var ok := UpdateFreeHandArrays(x, y);
        if !ok {
          status := NoInk;
        }
      }
    }

    /** The thickness slider moved to `value`. */
    method ThicknessChanged(value: int)
      requires Valid() && MIN_THICKNESS <= value <= MAX_THICKNESS
      modifies this`fhandThickness
      ensures Valid()
      ensures Model() == old(Model()).(thickness := value)
    {
      fhandThickness := value;
    }

    /** The colour chooser closed with `chosen` (`Null` when it was cancelled). */
    method ColorChosen(chosen: Color)
      requires Valid()
      modifies this`selectedColor
      ensures Valid()
      ensures Model() == old(Model()).(selected := chosen)
    {
      selectedColor := chosen;
    }

    /** The drawing-tool radio buttons: the action command names the tool. */
    method DrawingToolSelected(command: string)
      requires Valid()
      modifies this`mode
      ensures Valid()
      ensures Model() == SelectTool(old(Model()), command)
    {
      if command == "Line" {
        mode := Line;
      } else if command == "Rectangle" {
        mode := Rectangle;
      } else if command == "Oval" {
        mode := Oval;
      } else if command == "Freehand" {
        mode := Freehand;
      }
    }

    /** The clear button: new zeroed geometry arrays, counts 0, all the ink back.
        The colour arrays are kept. */
    method ClearCanvas()
      requires Valid()
      modifies this
      ensures Valid()
      ensures Model() == Clear(old(Model()))
      ensures lineColor == old(lineColor) && ovalColor == old(ovalColor)
      ensures rectColor == old(rectColor) && fhandColor == old(fhandColor)
    {
      ResetFreehand();
      ResetLines();
      ResetRects();
      ResetOvals();
    }

    /** The freehand part of the clear button: a new zeroed dab table, no dabs,
        all the ink back. */
    method ResetFreehand()
      requires Valid()
      modifies this`fhandXY, this`fhandCount, this`fhLeft
      ensures Valid() && fhandColor == old(fhandColor)
      ensures Model() == old(Model()).(store := old(Stored()).(dabs := old(Dabs()).(xy := Zeros(MAX_FHAND, DAB_FIELDS), count := 0)),
                                       fhLeft := MAX_FHAND)
    {
      fhandXY := NewGrid(Zeros(MAX_FHAND, DAB_FIELDS), MAX_FHAND, DAB_FIELDS);
      fhandCount := 0;
      fhLeft := MAX_FHAND;
    }

    /** The line part of the clear button. */
    method ResetLines()
      requires Valid()
      modifies this`lineXY, this`lineCount
      ensures Valid() && lineColor == old(lineColor)
      ensures Model() == old(Model()).(store := old(Stored()).(lines := old(Lines()).(xy := Zeros(MAX_LINES, CORNER_FIELDS), count := 0)))
    {
      lineXY := NewGrid(Zeros(MAX_LINES, CORNER_FIELDS), MAX_LINES, CORNER_FIELDS);
      lineCount := 0;
    }

    /** The rectangle part of the clear button. */
    method ResetRects()
      requires Valid()
      modifies this`rectXY, this`rectCount
      ensures Valid() && rectColor == old(rectColor)
      ensures Model() == old(Model()).(store := old(Stored()).(rects := old(Rects()).(xy := Zeros(MAX_RECTS, CORNER_FIELDS), count := 0)))
    {
      rectXY := NewGrid(Zeros(MAX_RECTS, CORNER_FIELDS), MAX_RECTS, CORNER_FIELDS);
      rectCount := 0;
    }

    /** The oval part of the clear button. */
    method ResetOvals()
      requires Valid()
      modifies this`ovalXY, this`ovalCount
      ensures Valid() && ovalColor == old(ovalColor)
      ensures Model() == old(Model()).(store := old(Stored()).(ovals := old(Ovals()).(xy := Zeros(MAX_OVALS, CORNER_FIELDS), count := 0)))
    {
      ovalXY := NewGrid(Zeros(MAX_OVALS, CORNER_FIELDS), MAX_OVALS, CORNER_FIELDS);
      ovalCount := 0;
    }

    /** One tick of the animation timer: oval 0 moves a pixel down. */
    method AnimationTick()
      requires Valid()
      modifies ovalXY
      ensures Valid()
      ensures Model() == Tick(old(Model()))
    {
      ghost var before := Rows(ovalXY);
      ovalXY[0, 1] := ovalXY[0, 1] + 1;
      ovalXY[0, 3] := ovalXY[0, 3] + 1;
      RowReplaced(ovalXY, before, 0, before[0][1 := before[0][1] + 1][3 := before[0][3] + 1]);
    }

    /** The save menu: the twelve items written to the object stream. */
    method Save() returns (records: seq<Record>)
      requires Valid()
      ensures records == Encode(Stored())
    {
      records := [IntTable(Rows(lineXY)), ColorTable(lineColor[..]), IntValue(lineCount),
                  IntTable(Rows(ovalXY)), ColorTable(ovalColor[..]), IntValue(ovalCount),
                  IntTable(Rows(rectXY)), ColorTable(rectColor[..]), IntValue(rectCount),
                  IntTable(Rows(fhandXY)), ColorTable(fhandColor[..]), IntValue(fhandCount)];
    }

    /** One `readObject`/`readInt` of the load menu, once items 0 .. k-1 have
        been read over `start`: item k, when it is there and fits, replaces the
        field it names; otherwise reading stops at k and nothing changes. */
    method ReadField(records: seq<Record>, k: nat, ghost start: Store) returns (ok: bool)
      requires Valid() && k < FIELDS && FitsUpTo(records, k)
      requires Stored() == Overlay(start, records, k)
      modifies this
      ensures Valid()
      ensures fhLeft == old(fhLeft) && mode == old(mode)
      ensures selectedColor == old(selectedColor) && fhandThickness == old(fhandThickness)
      ensures ok == (k < |records| && Fits(records[k], k))
      ensures ok ==> FitsUpTo(records, k + 1) && Stored() == Overlay(start, records, k + 1)
      ensures !ok ==> Readable(records) == k && Stored() == old(Stored())
    {
      if k == |records| || !Fits(records[k], k) {
        ReadableAt(records, k);
        return false;
      }
      var r := records[k];
      if Part(k) == 0 {
        SetGrid(ToolAt(k), r.rows);
      } else if Part(k) == 1 {
        SetColors(ToolAt(k), r.colors);
      } else {
        SetCount(ToolAt(k), r.n);
      }
      ok := true;
    }

    /** `*_xy = (int[][]) readObject()`: the geometry table of `tool` becomes a
        new array holding `rows`. */
    method SetGrid(tool: Tool, rows: seq<seq<int>>)
      requires Valid() && |rows| == Capacity(tool)
      requires forall i | 0 <= i < |rows| :: |rows[i]| == if tool == Freehand then DAB_FIELDS else CORNER_FIELDS
      modifies this`lineXY, this`ovalXY, this`rectXY, this`fhandXY
      ensures Valid()
      ensures Model() == old(Model()).(store := WithTable(old(Stored()), tool, TableOf(old(Stored()), tool).(xy := rows)))
    {
      match tool
      case Line => lineXY := NewGrid(rows, MAX_LINES, CORNER_FIELDS);
      case Oval => ovalXY := NewGrid(rows, MAX_OVALS, CORNER_FIELDS);
      case Rectangle => rectXY := NewGrid(rows, MAX_RECTS, CORNER_FIELDS);
      case Freehand => fhandXY := NewGrid(rows, MAX_FHAND, DAB_FIELDS);
    }

    /** `*_color = (Color[]) readObject()`: the colour array of `tool` becomes a
        new array holding `colors`. */
    method SetColors(tool: Tool, colors: seq<Color>)
      requires Valid() && |colors| == Capacity(tool)
      modifies this`lineColor, this`ovalColor, this`rectColor, this`fhandColor
      ensures Valid()
      ensures Model() == old(Model()).(store := WithTable(old(Stored()), tool, TableOf(old(Stored()), tool).(color := colors)))
    {
      match tool
      case Line => lineColor := NewColors(colors);
      case Oval => ovalColor := NewColors(colors);
      case Rectangle => rectColor := NewColors(colors);
      case Freehand => fhandColor := NewColors(colors);
    }

    /** `*_count = readInt()`. */
    method SetCount(tool: Tool, n: int)
      requires Valid()
      modifies this`lineCount, this`ovalCount, this`rectCount, this`fhandCount
      ensures Valid()
      ensures Model() == old(Model()).(store := WithTable(old(Stored()), tool, TableOf(old(Stored()), tool).(count := n)))
    {
      match tool
      case Line => lineCount := n;
      case Oval => ovalCount := n;
      case Rectangle => rectCount := n;
      case Freehand => fhandCount := n;
    }

    /** The load menu: the items are read in Save's order and each replaces its
        field as soon as it is read, so a stream that ends early or holds a bad
        item leaves the fields before it loaded and the rest as they were. */
    method Load(records: seq<Record>) returns (err: Option<LoadError>)
      requires Valid()
      modifies this
      ensures Valid()
      ensures Model() == old(Model()).(store := Overlay(old(Stored()), records, Readable(records)))
      ensures match Decode(records) case Ok(_) => err == None case Err(e) => err == Some(e)
    {
      ghost var start := Stored();
      var ok := ReadBlock(records, 0, start);
      if ok {
        ok := ReadBlock(records, 3, start);
      }
      if ok {
        ok := ReadBlock(records, 6, start);
      }
      if ok {
        ok := ReadBlock(records, 9, start);
      }
      if ok {
        ReadableAt(records, FIELDS);
        err := None;
      } else {
        DecodeStops(records);
        err := Some(StopAt(records, Readable(records)));
      }
      assert Stored() == Overlay(start, records, Readable(records));
    }

    /** The three reads of one shape kind's table, colours and count (items k,
        k+1 and k+2), once items 0 .. k-1 have been read over `start`. When one
        is missing or does not fit, reading stops there. */
    method ReadBlock(records: seq<Record>, k: nat, ghost start: Store) returns (ok: bool)
      requires Valid() && k + 3 <= FIELDS && FitsUpTo(records, k)
      requires Stored() == Overlay(start, records, k)
      modifies this
      ensures Valid()
      ensures fhLeft == old(fhLeft) && mode == old(mode)
      ensures selectedColor == old(selectedColor) && fhandThickness == old(fhandThickness)
      ensures ok ==> FitsUpTo(records, k + 3) && Stored() == Overlay(start, records, k + 3)
      ensures !ok ==> Readable(records) < k + 3 && Stored() == Overlay(start, records, Readable(records))
    {
      ok := ReadField(records, k, start);
      if ok {
        ok := ReadField(records, k + 1, start);
        if ok {
          ok := ReadField(records, k + 2, start);
        }
      }
    }

    /** `Canvas.draw`: the grids the check boxes ask for, every dab, then the
        rectangles, ovals and lines. When the dab loop faults nothing after it
        is drawn. */
    method Draw(fine: bool, coarse: bool, width: int, height: int) returns (pic: Picture)
      requires Valid()
      ensures pic == Render(Stored(), fine, coarse, width, height)
    {
      ghost var s := Stored();
      assert s.dabs == Table(Rows(fhandXY), fhandColor[..], fhandCount);
      assert s.rects == Table(Rows(rectXY), rectColor[..], rectCount);
      assert s.ovals == Table(Rows(ovalXY), ovalColor[..], ovalCount);
      assert s.lines == Table(Rows(lineXY), lineColor[..], lineCount);
      var ops: seq<Op> := [];
      if fine {
        ops := GridCalls(LightGray, FINE_LINE_WIDTH, width, height);
      }
      if coarse {
        var coarseOps := GridCalls(DarkGray, COARSE_LINES_WIDTH, width, height);
        ops := ops + coarseOps;
      }
      var dabOps, complete := DabCalls(fhandXY, fhandColor, fhandCount);
      assert ops == GridsOps(fine, coarse, width, height);
      if !complete {
        return Picture(ops + dabOps, false);
      }
      var rectOps := BoxCalls(Rect, rectXY, rectColor, rectCount, MAX_RECTS);
      var ovalOps := BoxCalls(Ellipse, ovalXY, ovalColor, ovalCount, MAX_OVALS);
      var lineOps := SegmentCalls(lineXY, lineColor, lineCount, MAX_LINES);
      pic := Picture(ops + dabOps + rectOps + ovalOps + lineOps, true);
    }
  }
}
