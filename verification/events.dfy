/**
 * The input transitions of NXDraw as functions on the whole drawing state: the
 * mouse press, drag, release and click handlers, the bounded dab append, clear,
 * the animation tick and the tool selector. Each returns the next state and a
 * status; a handler that would fault on an array access (the program throws
 * ArrayIndexOutOfBoundsException there) returns `Fault`, and because every such
 * access comes before the first write, its state is the state it started from.
 */
module Events {
  import opened Shapes

  /** `NoInk`: the dab append found no free slot (the "no inks left" message).
      `Fault`: the handler indexed past the end of a shape table. */
  datatype Status = Done | NoInk | Fault

  datatype Step = Step(status: Status, next: State)

  /** The slot a press or drag of a line, rectangle or oval writes to exists. */
  predicate HasPendingSlot(s: Store, tool: Tool)
  {
    0 <= TableOf(s, tool).count < |TableOf(s, tool).xy|
  }

  /** A table of the given shape with zero geometry, null colours and no entries,
      as the field initialisers allocate it. */
  function Blank(rows: nat, cols: nat): (t: Table)
    ensures Shaped(t, rows, cols) && t.count == 0
  {
    Table(Zeros(rows, cols), Nulls(rows), 0)
  }

  /** A freshly allocated `Color[n]`: every entry null. */
  function Nulls(n: nat): (cs: seq<Color>)
    ensures |cs| == n
    ensures forall i | 0 <= i < n :: cs[i] == Null
  {
    seq(n, _ => Null)
  }

  /** The state the field initialisers set up: empty tables, all the ink, the
      line tool, the given colour (black in the program) and thickness 1. */
  function Initial(c: Color): (e: State)
    ensures WellShaped(e.store) && InkBalanced(e)
  {
    State(Store(Blank(MAX_LINES, CORNER_FIELDS), Blank(MAX_OVALS, CORNER_FIELDS),
                Blank(MAX_RECTS, CORNER_FIELDS), Blank(MAX_FHAND, DAB_FIELDS)),
          MAX_FHAND, Line, c, 1)
  }

  /** `updateFreeHandArrays`: store (x, y, thickness) and the selected colour at
      index `fhand_count`, then count one more dab and one less ink. */
  function AppendDab(e: State, x: int, y: int): (r: Step)
    requires WellShaped(e.store)
    ensures WellShaped(r.next.store)
    ensures r.status != Fault
    ensures r.status == NoInk ==> r.next == e
    ensures r.next.tool == e.tool && r.next.selected == e.selected && r.next.thickness == e.thickness
  {
    var d := e.store.dabs;
    if 0 <= d.count < |d.color| then
      var d' := Table(d.xy[d.count := [x, y, e.thickness]], d.color[d.count := e.selected], d.count + 1);
      Step(Done, e.(store := e.store.(dabs := d'), fhLeft := e.fhLeft - 1))
    else
      Step(NoInk, e)
  }

  /** `mousePressed`: with the line, rectangle or oval tool, slot `[count]` gets
      both corners at (x, y) and the selected colour. */
  function Press(e: State, x: int, y: int): (r: Step)
    requires WellShaped(e.store)
    ensures WellShaped(r.next.store)
    ensures r.status != NoInk
    ensures r.status == Fault ==> r.next == e
    ensures r.next.tool == e.tool && r.next.selected == e.selected && r.next.thickness == e.thickness
    ensures r.next.fhLeft == e.fhLeft
  {
    if e.tool == Freehand then Step(Done, e)
    else
      var t := TableOf(e.store, e.tool);
      if 0 <= t.count < |t.xy| then
        var t' := t.(xy := t.xy[t.count := [x, y, x, y]], color := t.color[t.count := e.selected]);
        Step(Done, e.(store := WithTable(e.store, e.tool, t')))
      else
        Step(Fault, e)
  }

  /** `mouseDragged`: a dab append with the freehand tool; otherwise entries [2]
      and [3] of slot `[count]` move to (x, y). */
  function Drag(e: State, x: int, y: int): (r: Step)
    requires WellShaped(e.store)
    ensures WellShaped(r.next.store)
    ensures r.status == NoInk ==> e.tool == Freehand
    ensures r.status != Done ==> r.next == e
    ensures e.tool != Freehand && !HasPendingSlot(e.store, e.tool) ==> r == Step(Fault, e)
    ensures r.next.tool == e.tool && r.next.selected == e.selected && r.next.thickness == e.thickness
  {
    if e.tool == Freehand then AppendDab(e, x, y)
    else
      var t := TableOf(e.store, e.tool);
      if 0 <= t.count < |t.xy| then
        var t' := t.(xy := t.xy[t.count := t.xy[t.count][2 := x][3 := y]]);
        Step(Done, e.(store := WithTable(e.store, e.tool, t')))
      else
        Step(Fault, e)
  }

  /** `mouseReleased`: commit the pending line, rectangle or oval by counting it;
      there is no capacity check. */
  function Release(e: State): (r: State)
    ensures e.tool == Freehand ==> r == e
    ensures e.tool != Freehand ==>
      && TableOf(r.store, e.tool).count == TableOf(e.store, e.tool).count + 1
      && (forall u :: u != e.tool ==> TableOf(r.store, u) == TableOf(e.store, u))
    ensures r.tool == e.tool && r.selected == e.selected && r.thickness == e.thickness
    ensures r.fhLeft == e.fhLeft && r.store.dabs == e.store.dabs
    ensures forall u :: TableOf(r.store, u).xy == TableOf(e.store, u).xy
    ensures forall u :: TableOf(r.store, u).color == TableOf(e.store, u).color
  {
    if e.tool == Freehand then e
    else
      var t := TableOf(e.store, e.tool);
      e.(store := WithTable(e.store, e.tool, t.(count := t.count + 1)))
  }

  /** `mouseClicked`: one dab append with the freehand tool, nothing otherwise. */
  function Click(e: State, x: int, y: int): (r: Step)
    requires WellShaped(e.store)
    ensures WellShaped(r.next.store)
    ensures r.status != Fault
    ensures r.status == NoInk ==> r.next == e
    ensures e.tool != Freehand ==> r == Step(Done, e)
    ensures r.next.tool == e.tool && r.next.selected == e.selected && r.next.thickness == e.thickness
  {
    if e.tool == Freehand then AppendDab(e, x, y) else Step(Done, e)
  }

  /** A freshly allocated `int[rows][cols]`: every entry 0. */
  function Zeros(rows: nat, cols: nat): (z: seq<seq<int>>)
    ensures |z| == rows
    ensures forall i | 0 <= i < rows :: |z[i]| == cols
    ensures forall i, j | 0 <= i < rows && 0 <= j < cols :: z[i][j] == 0
  {
    seq(rows, _ => seq(cols, _ => 0))
  }

  /** The clear button: fresh zeroed geometry tables, all counts 0, full ink; the
      colour arrays and the session state stay as they are. */
  function Clear(e: State): (r: State)
    ensures WellShaped(e.store) ==> WellShaped(r.store)
  {
    var s := e.store;
    var s' := Store(
      s.lines.(xy := Zeros(MAX_LINES, CORNER_FIELDS), count := 0),
      s.ovals.(xy := Zeros(MAX_OVALS, CORNER_FIELDS), count := 0),
      s.rects.(xy := Zeros(MAX_RECTS, CORNER_FIELDS), count := 0),
      s.dabs.(xy := Zeros(MAX_FHAND, DAB_FIELDS), count := 0));
    e.(store := s', fhLeft := MAX_FHAND)
  }

  /** One animation tick: oval slot 0 moves down a pixel (`[0][1]` and `[0][3]`
      go up by one). */
  function Tick(e: State): (r: State)
    requires WellShaped(e.store)
    ensures WellShaped(r.store)
    ensures var o, o' := e.store.ovals, r.store.ovals;
      && o'.xy[0] == [o.xy[0][0], o.xy[0][1] + 1, o.xy[0][2], o.xy[0][3] + 1]
      && (forall i | 0 < i < MAX_OVALS :: o'.xy[i] == o.xy[i])
      && o'.color == o.color && o'.count == o.count
      && r.store.(ovals := o) == e.store
    ensures r.fhLeft == e.fhLeft && r.tool == e.tool && r.selected == e.selected && r.thickness == e.thickness
  {
    var o := e.store.ovals;
    var row := o.xy[0];
    e.(store := e.store.(ovals := o.(xy := o.xy[0 := row[1 := row[1] + 1][3 := row[3] + 1]])))
  }

  /** The radio-button label of each tool, which is also its action command. */
  function Label(t: Tool): (s: string)
    ensures s in {"Line", "Rectangle", "Oval", "Freehand"}
  {
    match t
    case Line => "Line"
    case Rectangle => "Rectangle"
    case Oval => "Oval"
    case Freehand => "Freehand"
  }

  /** The tool an action command selects; any other command selects none. */
  function ToolFor(command: string): (r: Option<Tool>)
    ensures r.Some? ==> Label(r.value) == command
  {
    if command == "Line" then Some(Line)
    else if command == "Rectangle" then Some(Rectangle)
    else if command == "Oval" then Some(Oval)
    else if command == "Freehand" then Some(Freehand)
    else None
  }

  /** The drawing-tool listener: a known command switches tool, any other leaves it. */
  function SelectTool(e: State, command: string): (r: State)
    ensures r.store == e.store && r.fhLeft == e.fhLeft
    ensures r.selected == e.selected && r.thickness == e.thickness
  {
    match ToolFor(command)
    case Some(t) => e.(tool := t)
    case None => e
  }

  // ---------------------------------------------------------------------------
  // Properties of single events

  /** The dab append stores exactly the new dab at `fhand_count` and nothing else;
      when the table is full it refuses and changes nothing. */
  lemma DabAppend(e: State, x: int, y: int)
    requires WellShaped(e.store)
    ensures var d, r := e.store.dabs, AppendDab(e, x, y);
      && (0 <= d.count < MAX_FHAND ==>
            && r.status == Done
            && r.next.store.dabs.count == d.count + 1
            && r.next.fhLeft == e.fhLeft - 1
            && r.next.store.dabs.xy == d.xy[d.count := [x, y, e.thickness]]
            && r.next.store.dabs.color == d.color[d.count := e.selected]
            && r.next.store.(dabs := d) == e.store)
      && (d.count == MAX_FHAND ==> r.status == NoInk && r.next == e)
  {
  }

  /** With ink balanced, the append refuses exactly when no ink is left, and every
      event but loading keeps the balance. */
  lemma InkRunsOutAtCapacity(e: State, x: int, y: int)
    requires WellShaped(e.store) && InkBalanced(e)
    ensures AppendDab(e, x, y).status == NoInk <==> e.fhLeft == 0
    ensures InkBalanced(AppendDab(e, x, y).next)
    ensures InkBalanced(Press(e, x, y).next) && InkBalanced(Drag(e, x, y).next)
    ensures InkBalanced(Release(e)) && InkBalanced(Click(e, x, y).next)
    ensures InkBalanced(Tick(e))
  {
  }

  /** Clear re-establishes the ink balance from any state. */
  lemma ClearBalancesInk(e: State)
    ensures InkBalanced(Clear(e))
    ensures forall u :: TableOf(Clear(e).store, u).count == 0
    ensures forall u :: TableOf(Clear(e).store, u).xy == Zeros(Capacity(u), if u == Freehand then DAB_FIELDS else CORNER_FIELDS)
    ensures forall u :: TableOf(Clear(e).store, u).color == TableOf(e.store, u).color
    ensures Clear(e).tool == e.tool && Clear(e).selected == e.selected && Clear(e).thickness == e.thickness
  {
  }

  /** Press records a degenerate shape at slot `[count]`, coloured with the
      selected colour, and changes no count; in freehand mode it does nothing. */
  lemma PressStartsPending(e: State, x: int, y: int)
    requires WellShaped(e.store)
    ensures var r := Press(e, x, y);
      && (e.tool == Freehand ==> r == Step(Done, e))
      && (e.tool != Freehand && HasPendingSlot(e.store, e.tool) ==>
            var t, t' := TableOf(e.store, e.tool), TableOf(r.next.store, e.tool);
            && r.status == Done
            && t'.count == t.count
            && t'.xy[t.count] == [x, y, x, y]
            && t'.color[t.count] == e.selected
            && (forall i | 0 <= i < |t.xy| && i != t.count :: t'.xy[i] == t.xy[i] && t'.color[i] == t.color[i])
            && (forall u :: u != e.tool ==> TableOf(r.next.store, u) == TableOf(e.store, u)))
      && (e.tool != Freehand && !HasPendingSlot(e.store, e.tool) ==> r == Step(Fault, e))
  {
  }

  /** Drag moves only the second corner of the pending slot; a later drag
      overrides an earlier one. */
  lemma DragMovesSecondCorner(e: State, x: int, y: int, x': int, y': int)
    requires WellShaped(e.store) && e.tool != Freehand && HasPendingSlot(e.store, e.tool)
    ensures var r, t := Drag(e, x, y), TableOf(e.store, e.tool);
      && r.status == Done
      && TableOf(r.next.store, e.tool) == t.(xy := t.xy[t.count := t.xy[t.count][..2] + [x, y]])
      && (forall u :: u != e.tool ==> TableOf(r.next.store, u) == TableOf(e.store, u))
      && r.next.fhLeft == e.fhLeft
    ensures Drag(Drag(e, x, y).next, x', y') == Drag(e, x', y')
  {
    var t := TableOf(e.store, e.tool);
    var row := t.xy[t.count];
    assert row[2 := x][3 := y] == row[..2] + [x, y];
    assert row[2 := x][3 := y][2 := x'][3 := y'] == row[2 := x'][3 := y'];
  }

  /** Release counts one more entry for the current shape tool, with no capacity
      check, so a count can pass the capacity; from then on press and drag fault. */
  lemma ReleaseIgnoresCapacity(e: State, x: int, y: int)
    requires WellShaped(e.store) && e.tool != Freehand
    requires TableOf(e.store, e.tool).count == Capacity(e.tool)
    ensures TableOf(Release(e).store, e.tool).count == Capacity(e.tool) + 1
    ensures Press(Release(e), x, y) == Step(Fault, Release(e))
    ensures Drag(Release(e), x, y) == Step(Fault, Release(e))
  {
  }

  /** In freehand mode press and release do nothing and a drag is a click. */
  lemma FreehandIgnoresPressAndRelease(e: State, x: int, y: int)
    requires WellShaped(e.store) && e.tool == Freehand
    ensures Press(e, x, y).next == e && Release(e) == e
    ensures Drag(e, x, y) == Click(e, x, y)
  {
  }

  /** Tool selection maps the four labels to their tools and ignores anything else. */
  lemma {:induction false} ToolSelection(e: State, command: string)
    ensures forall t :: ToolFor(Label(t)) == Some(t)
    ensures SelectTool(e, command).tool == (if command in {"Line", "Rectangle", "Oval", "Freehand"} then ToolFor(command).value else e.tool)
  {
  }

  // ---------------------------------------------------------------------------
  // Event sequences

  /** A run of drag events to the given points. */
  function DragAll(e: State, qs: seq<Point>): (r: State)
    requires WellShaped(e.store)
    ensures WellShaped(r.store)
    ensures r.tool == e.tool && r.selected == e.selected && r.thickness == e.thickness
    decreases |qs|
  {
    if qs == [] then e
    else
      var last := qs[|qs| - 1];
      Drag(DragAll(e, qs[..|qs| - 1]), last.x, last.y).next
  }

  /** A run of drags with a shape tool keeps everything but the second corner of
      the pending slot, which ends at the last point. */
  lemma {:induction false} DragsKeepFirstCorner(e: State, qs: seq<Point>)
    requires WellShaped(e.store) && e.tool != Freehand && HasPendingSlot(e.store, e.tool)
    ensures var t, r := TableOf(e.store, e.tool), DragAll(e, qs);
      && TableOf(r.store, e.tool) == (if qs == [] then t else t.(xy := t.xy[t.count := t.xy[t.count][..2] + [qs[|qs| - 1].x, qs[|qs| - 1].y]]))
      && (forall u :: u != e.tool ==> TableOf(r.store, u) == TableOf(e.store, u))
      && r.fhLeft == e.fhLeft
    decreases |qs|
  {
    if qs != [] {
      var init := qs[..|qs| - 1];
      var m := DragAll(e, init);
      DragsKeepFirstCorner(e, init);
      assert HasPendingSlot(m.store, e.tool);
      DragMovesSecondCorner(m, qs[|qs| - 1].x, qs[|qs| - 1].y, 0, 0);
      var t := TableOf(e.store, e.tool);
      var row := t.xy[t.count];
      if init != [] {
        var p := init[|init| - 1];
        assert (row[..2] + [p.x, p.y])[..2] == row[..2];
      }
    }
  }

  /** Press at p, drag through qs, release: exactly one new committed entry, from
      p to the last drag point (p itself when there was no drag), in the selected
      colour; every other entry and table is as before. */
  lemma {:induction false} StrokeCommitsOneShape(e: State, p: Point, qs: seq<Point>)
    requires WellShaped(e.store) && e.tool != Freehand && HasPendingSlot(e.store, e.tool)
    ensures
      var last := if qs == [] then p else qs[|qs| - 1];
      var e' := Release(DragAll(Press(e, p.x, p.y).next, qs));
      var t, t' := TableOf(e.store, e.tool), TableOf(e'.store, e.tool);
      && t'.count == t.count + 1
      && t'.xy == t.xy[t.count := [p.x, p.y, last.x, last.y]]
      && t'.color == t.color[t.count := e.selected]
      && (forall u :: u != e.tool ==> TableOf(e'.store, u) == TableOf(e.store, u))
      && e'.fhLeft == e.fhLeft && e'.tool == e.tool
  {
    var pressed := Press(e, p.x, p.y).next;
    PressStartsPending(e, p.x, p.y);
    var t := TableOf(e.store, e.tool);
    assert TableOf(pressed.store, e.tool) == t.(xy := t.xy[t.count := [p.x, p.y, p.x, p.y]], color := t.color[t.count := e.selected]);
    DragsKeepFirstCorner(pressed, qs);
    if qs != [] {
      var last := qs[|qs| - 1];
      var row := [p.x, p.y, p.x, p.y][..2] + [last.x, last.y];
      assert row == [p.x, p.y, last.x, last.y];
      assert t.xy[t.count := [p.x, p.y, p.x, p.y]][t.count := row] == t.xy[t.count := row];
    }
  }

  /** A run of freehand clicks at the given points. */
  function Scribble(e: State, pts: seq<Point>): (r: State)
    requires WellShaped(e.store)
    ensures WellShaped(r.store)
    ensures r.tool == e.tool && r.selected == e.selected && r.thickness == e.thickness
    decreases |pts|
  {
    if pts == [] then e
    else
      var last := pts[|pts| - 1];
      Click(Scribble(e, pts[..|pts| - 1]), last.x, last.y).next
  }

  /** N freehand clicks that fit in the remaining capacity add exactly N dabs, in
      order, each with its point, the thickness and the selected colour; earlier
      dabs and the other tables are untouched. */
  lemma {:induction false} ScribbleRecordsEveryDab(e: State, pts: seq<Point>)
    requires WellShaped(e.store) && e.tool == Freehand
    requires 0 <= e.store.dabs.count && e.store.dabs.count + |pts| <= MAX_FHAND
    ensures var d, r := e.store.dabs, Scribble(e, pts);
      && r.store.dabs.count == d.count + |pts|
      && r.fhLeft == e.fhLeft - |pts|
      && (forall i | 0 <= i < MAX_FHAND && !(d.count <= i < d.count + |pts|) ::
            r.store.dabs.xy[i] == d.xy[i] && r.store.dabs.color[i] == d.color[i])
      && (forall k | 0 <= k < |pts| ::
            r.store.dabs.xy[d.count + k] == [pts[k].x, pts[k].y, e.thickness]
            && r.store.dabs.color[d.count + k] == e.selected)
      && r.store.(dabs := d) == e.store
    decreases |pts|
  {
    if pts != [] {
      var init := pts[..|pts| - 1];
      ScribbleRecordsEveryDab(e, init);
      var m := Scribble(e, init);
      var last := pts[|pts| - 1];
      DabAppend(m, last.x, last.y);
      forall k | 0 <= k < |pts|
        ensures Scribble(e, pts).store.dabs.xy[e.store.dabs.count + k] == [pts[k].x, pts[k].y, e.thickness]
      {
        if k < |init| {
          assert pts[k] == init[k];
        }
      }
    }
  }

  /** One click more than the capacity is refused and changes nothing. */
  lemma {:induction false} ScribblePastCapacity(e: State, pts: seq<Point>, q: Point)
    requires WellShaped(e.store) && e.tool == Freehand
    requires 0 <= e.store.dabs.count && e.store.dabs.count + |pts| == MAX_FHAND
    ensures var full := Scribble(e, pts);
      && full.store.dabs.count == MAX_FHAND
      && Click(full, q.x, q.y) == Step(NoInk, full)
  {
    ScribbleRecordsEveryDab(e, pts);
  }
}
