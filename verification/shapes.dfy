/**
 * Values shared by the whole model of the NXDraw drawing state: colours, the
 * drawing tool, the four fixed-capacity shape tables and the session state
 * that the mouse handlers read.
 */
module Shapes {

  /** A colour value, never looked into (its components are floats in the program). */
  type Paint(==)

  /** A `java.awt.Color` reference: `Null` is what a fresh `Color[]` holds and what
      the colour chooser hands back when it is cancelled. */
  datatype Color = Null | Shade(paint: Paint)

  /** The drawing tool, held in `curr_dtool_mode` as 'l', 'r', 'o' or 'f'. */
  datatype Tool = Line | Rectangle | Oval | Freehand

  datatype Option<T> = None | Some(value: T)

  datatype Point = Point(x: int, y: int)

  const MAX_FHAND: nat := 100000
  const MAX_RECTS: nat := 10
  const MAX_OVALS: nat := 10
  const MAX_LINES: nat := 10

  /** Entries per row: x1, y1, x2, y2 for lines, rectangles and ovals; x, y, size for a dab. */
  const CORNER_FIELDS: nat := 4
  const DAB_FIELDS: nat := 3

  /** The thickness slider's range. */
  const MIN_THICKNESS := 0
  const MAX_THICKNESS := 20

  /** One kind of shape: the `*_xy` table, the parallel `*_color` array and `*_count`.
      Rows at index `count` and above are stale or pending. */
  datatype Table = Table(xy: seq<seq<int>>, color: seq<Color>, count: int)

  /** The table has `rows` rows of `cols` entries each, and a colour per row. */
  predicate Shaped(t: Table, rows: nat, cols: nat)
  {
    && |t.xy| == rows
    && |t.color| == rows
    && forall i | 0 <= i < rows :: |t.xy[i]| == cols
  }

  /** Everything the program draws and saves. */
  datatype Store = Store(lines: Table, ovals: Table, rects: Table, dabs: Table)

  /** The array shapes the program allocates (`new int[MAX_LINES][4]` and so on). */
  predicate WellShaped(s: Store)
  {
    && Shaped(s.lines, MAX_LINES, CORNER_FIELDS)
    && Shaped(s.ovals, MAX_OVALS, CORNER_FIELDS)
    && Shaped(s.rects, MAX_RECTS, CORNER_FIELDS)
    && Shaped(s.dabs, MAX_FHAND, DAB_FIELDS)
  }

  /** The store plus the remaining-ink counter `fh_left` and the session state:
      the tool, `selected_color` and `fhand_thickness`. */
  datatype State = State(store: Store, fhLeft: int, tool: Tool, selected: Color, thickness: int)

  /** Capacity of the table a tool draws into. */
  function Capacity(tool: Tool): nat
  {
    match tool
    case Line => MAX_LINES
    case Rectangle => MAX_RECTS
    case Oval => MAX_OVALS
    case Freehand => MAX_FHAND
  }

  /** The table a tool draws into. */
  function TableOf(s: Store, tool: Tool): Table
  {
    match tool
    case Line => s.lines
    case Rectangle => s.rects
    case Oval => s.ovals
    case Freehand => s.dabs
  }

  /** `s` with the table of `tool` replaced by `t`; the other three are kept. */
  function WithTable(s: Store, tool: Tool, t: Table): (r: Store)
    ensures TableOf(r, tool) == t
    ensures forall u :: u != tool ==> TableOf(r, u) == TableOf(s, u)
  {
    match tool
    case Line => s.(lines := t)
    case Rectangle => s.(rects := t)
    case Oval => s.(ovals := t)
    case Freehand => s.(dabs := t)
  }

  /** The invariant the program keeps between `fhand_count` and `fh_left`: the
      dabs drawn plus the ink left is the capacity. */
  predicate InkBalanced(e: State)
    ensures InkBalanced(e) ==> 0 <= e.fhLeft <= MAX_FHAND
  {
    0 <= e.store.dabs.count <= MAX_FHAND && e.store.dabs.count + e.fhLeft == MAX_FHAND
  }
}
