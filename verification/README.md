# NXDraw drawing state in Dafny

NXDraw is a Swing drawing program: a canvas with line, rectangle, oval and
freehand tools, a colour chooser, a freehand thickness slider, fine and coarse
grids, a clear button, a one-shape animation and save/load through a Java
object stream. This project models the drawing state behind the window, as
`src/NXDraw.java` keeps it:

- the four fixed-capacity shape tables (`*_xy`, `*_color`, `*_count`), the
  remaining-ink counter `fh_left` and the session state (tool, selected colour,
  thickness);
- the mouse handlers, the bounded dab append `updateFreeHandArrays`, the tool,
  thickness and colour setters, the clear button and one animation tick;
- `Canvas.draw`, as the sequence of graphics calls it makes;
- the save and load menus, as the order of the twelve items in the object
  stream.

The model has two layers.

- **Pure modules.**
  - `Shapes`: the values.
  - `Events`: each input as a function from state to state plus a status.
  - `Rendering`: `draw` as a function to a `Picture`.
  - `Persistence`: the stream as `Encode`/`Decode`, with the field-by-field load as `Overlay`.
  - `Scenarios`: properties that cross these modules.
- **The class `Application.NXDraw`.** It holds the program's fields as Dafny
  arrays. `int[][]` becomes `array2<int>` and `Color[]` becomes
  `array<Color>`. Each handler is a method that updates them in place. Each
  method is proved against the matching pure function, applied to the
  abstract state `Model()` that the fields stand for.

Conventions:

- A colour is `Null` or `Shade(p)`, where `p` is an abstract `Paint`: the
  float components are never looked into.
- A handler that would throw `ArrayIndexOutOfBoundsException` returns
  `Fault`. In every such handler the faulting access comes before the first
  write, so the state is unchanged.
- An append with no free slot returns `NoInk`.
- Integers are unbounded.
- Java's `/` on the dab size truncates toward zero. `Half` models this
  explicitly.

Behaviour of the code that the model keeps as written, including where it is
probably not what the authors meant:

- Release counts the pending line, rectangle or oval without a capacity check
  (`ReleaseIgnoresCapacity`). A count can reach or pass the capacity. From then
  on, press and drag of that tool fault; the exception is not reported.
- The rectangle, oval and line loops of `draw` run `i <= count && count < MAX`.
  They draw the committed slots and the pending slot `count`. Once the count
  reaches the capacity, they draw none of that kind at all (`RenderCounts`).
- After a clear the canvas still shows slot 0 of the rectangles, ovals and
  lines (`ClearedCanvasShowsSlotZero`): a point at the origin, in the colour
  the slot had before, because clear keeps the colour arrays. When that colour
  is null, `setColor(null)` is ignored and the point is drawn in whatever
  colour was set last.
- Load assigns each item as soon as it is read. A stream that ends early or
  holds an item of the wrong type leaves the earlier fields loaded and the
  later ones as they were (`Application.NXDraw.Load`,
  `Scenarios.LoadOfCutSaveMixes`). Load restores neither `fh_left` nor the
  session state.
- Save and load handle all twelve items (lines, ovals, rectangles, dabs; each
  as table, colours, count) and complete round trips (`RoundTrip`,
  `DecodeInverse`, `Scenarios.LoadRestoresSave`).
- Tool selection compares the action command with the four labels. The Java
  code uses `==` on strings. That works because the radio buttons pass their
  interned label literals, so it is modelled as string equality.

## Model

| member | source | states |
|---|---|---|
| Events.Zeros | src/NXDraw.java:40 | a fresh `int[rows][cols]` has `rows` rows of `cols` entries, all 0 |
| Events.Nulls | src/NXDraw.java:39 | a fresh `Color[n]` has n entries, all null |
| Events.Blank | src/NXDraw.java:49-51 | a freshly allocated table has the allocated shape and count 0 |
| Events.Initial | src/NXDraw.java:36-61 | the initial state has every table in its allocated shape, and dabs plus ink left equals MAX_FHAND |
| Events.AppendDab | src/NXDraw.java:666-691 | the append never faults, keeps the table shapes and session state, and changes nothing when it reports no ink |
| Events.Press | src/NXDraw.java:219-241 | press keeps shapes, session state and ink; a fault leaves the state unchanged |
| Events.Drag | src/NXDraw.java:174-211 | only freehand mode can run out of ink; with a line, rectangle or oval tool and no slot at `count` the drag faults and changes nothing; any failure leaves the state unchanged |
| Events.Release | src/NXDraw.java:243-251 | with a line, rectangle or oval tool the count of that tool goes up by exactly one, whatever its value (no capacity check), and every other table is unchanged; in freehand mode nothing changes; no geometry, colour, dab, ink or session state changes |
| Events.Click | src/NXDraw.java:253-266 | a click never faults; with a line, rectangle or oval tool it changes nothing; it changes nothing when it reports no ink |
| Events.Clear | src/NXDraw.java:314-340 | clear keeps every table in its allocated shape |
| Events.Tick | src/NXDraw.java:352-362 | `oval_xy[0][1]` and `oval_xy[0][3]` go up by one; the other entries of slot 0, the other oval slots, the oval colours and count, the other tables, the ink and the session state are unchanged |
| Events.Label | src/NXDraw.java:582-591 | each tool's radio-button label is one of the four commands the tool listener recognises |
| Events.ToolFor | src/NXDraw.java:365-387 | a command selects a tool only when it is that tool's label |
| Events.SelectTool | src/NXDraw.java:365-387 | tool selection changes neither the store, the ink, the colour nor the thickness |
| Events.DabAppend | src/NXDraw.java:666-691 | below capacity the dab (x, y, thickness) and the selected colour go into slot `fhand_count`, the count goes up and the ink down by one, and nothing else changes; at capacity the append is refused and nothing changes |
| Events.InkRunsOutAtCapacity | src/NXDraw.java:676-678 | with ink balanced, the append is refused exactly when no ink is left, and every mouse event and the tick keep `fhand_count + fh_left == MAX_FHAND`; a load can break it (`Scenarios.LoadCanUnbalanceInk`) |
| Events.ClearBalancesInk | src/NXDraw.java:320-335 | after clear the ink is balanced, all counts are 0 and every geometry table is a fresh all-zero table of the allocated shape; colour arrays, tool, colour and thickness are kept |
| Events.PressStartsPending | src/NXDraw.java:219-241 | press writes (x, y, x, y) and the selected colour to slot `count` of the current tool only, changes no count, does nothing in freehand mode and faults with no change when the slot does not exist |
| Events.DragMovesSecondCorner | src/NXDraw.java:189-205 | drag replaces entries [2] and [3] of the pending slot and nothing else; a second drag overrides the first |
| Events.ReleaseIgnoresCapacity | src/NXDraw.java:243-251 | release at capacity takes the count past it, after which press and drag fault |
| Events.FreehandIgnoresPressAndRelease | src/NXDraw.java:174-251 | in freehand mode press and release change nothing and a drag is the same as a click |
| Events.ToolSelection | src/NXDraw.java:365-387 | each label selects its tool; the four labels switch the tool and any other command leaves it |
| Events.DragAll | src/NXDraw.java:174-211 | a run of drags keeps the table shapes and session state |
| Events.DragsKeepFirstCorner | src/NXDraw.java:189-205 | a run of drags leaves the pending slot's first corner and everything else, with the second corner at the last point |
| Events.StrokeCommitsOneShape | src/NXDraw.java:219-251 | press at p, drags, release: exactly one new entry (p, last point) in the selected colour, count up by one, everything else unchanged |
| Events.Scribble | src/NXDraw.java:253-259 | a run of clicks keeps the table shapes and session state |
| Events.ScribbleRecordsEveryDab | src/NXDraw.java:666-691 | N clicks within capacity add exactly N dabs in order, each with its point, the thickness and the colour, and change nothing else |
| Events.ScribblePastCapacity | src/NXDraw.java:686-690 | once the table is full, one more click is refused and changes nothing |
| Shapes.InkBalanced | src/NXDraw.java:37-42 | the program's invariant `fhand_count + fh_left == MAX_FHAND` with the count within the table; it keeps `fh_left` between 0 and MAX_FHAND |
| Rendering.Render | src/NXDraw.java:94-159 | `draw` runs to the end exactly when `fhand_count` does not exceed the dab table, and always starts with the grids |
| Rendering.HRules | src/NXDraw.java:103-106 | every call of a horizontal grid loop is a full-width horizontal line at a height from `from` up to, not including, the canvas height |
| Rendering.VRules | src/NXDraw.java:107-110 | every call of a vertical grid loop is a full-height vertical line at an x from `from` up to, not including, the canvas width |
| Rendering.GridOps | src/NXDraw.java:100-111 | a grid first sets its gray, then only draws lines |
| Rendering.GridsOps | src/NXDraw.java:99-126 | no call at all when neither check box is ticked; otherwise the first call sets the fine gray, or the coarse gray when only the coarse grid is on |
| Rendering.DabOps | src/NXDraw.java:131-135 | a dab is its colour then a filled circle of diameter `size`, centred on (x, y) to within Java's truncation |
| Rendering.AllDabOps | src/NXDraw.java:129-136 | n dabs make exactly 2n calls |
| Rendering.BoxOps | src/NXDraw.java:142-143 | a rectangle or oval slot sets its colour, then draws the figure of its kind over the box whose edges are the slot's two corners, with non-negative size |
| Rendering.AllBoxOps | src/NXDraw.java:140-151 | n box slots make exactly 2n calls |
| Rendering.SegmentOps | src/NXDraw.java:156-157 | a line slot sets its colour, then draws from its first corner to its second, without normalising |
| Rendering.AllSegmentOps | src/NXDraw.java:154-158 | n line slots make exactly 2n calls |
| Rendering.Half | src/NXDraw.java:132-134 | `n / 2` truncates toward zero: remainder within one, same sign as n |
| Rendering.Normalise | src/NXDraw.java:143 | the box's width and height are never negative |
| Rendering.NormaliseSpansCorners | src/NXDraw.java:143 | the box starts at the smaller coordinates and its edges are exactly the two corners' coordinates |
| Rendering.NormaliseIgnoresCornerOrder | src/NXDraw.java:150 | the box is the same whichever corner came first, or when the corners are mirrored |
| Rendering.Shown | src/NXDraw.java:140 | the loop `i <= count && count < MAX` draws at most MAX slots, and some exactly when 0 <= count < MAX |
| Rendering.HRulesAt | src/NXDraw.java:103-106 | grid line k is the horizontal line at from + k·step, every line is inside the canvas, and the next would not be |
| Rendering.VRulesAt | src/NXDraw.java:107-110 | grid line k is the vertical line at from + k·step, every line is inside the canvas, and the next would not be |
| Rendering.AllDabOpsAt | src/NXDraw.java:129-136 | the dab loop makes two calls per dab, in order: the dab's colour, then its circle centred on (x, y) |
| Rendering.GridsArePlain | src/NXDraw.java:99-126 | the grids only set colours and draw straight lines |
| Rendering.AllBoxOpsAt | src/NXDraw.java:140-151 | the rectangle or oval loop draws slot k on pass k: calls 2k and 2k+1 of its section are slot k's colour and figure |
| Rendering.AllSegmentOpsAt | src/NXDraw.java:154-158 | the line loop draws slot k on pass k: calls 2k and 2k+1 of its section are slot k's colour and segment |
| Rendering.DabSectionCounts | src/NXDraw.java:129-136 | n dabs fill n circles and draw no box |
| Rendering.BoxSectionCounts | src/NXDraw.java:140-151 | n box slots draw n rectangles (or ovals) and nothing else countable |
| Rendering.SegmentSectionCounts | src/NXDraw.java:154-158 | n line slots draw exactly n segments, fill nothing and draw no box |
| Rendering.RenderCounts | src/NXDraw.java:94-159 | a repaint fills one circle per dab; it draws one rectangle per slot 0..count while the count is below capacity and none otherwise, ovals likewise; it stops incomplete exactly when the dab count exceeds the table |
| Rendering.CompleteCounts | src/NXDraw.java:138-158 | after grids and dabs, the rectangle, oval and line loops add `Shown(count, MAX)` rectangles and ovals and no fills |
| Persistence.Fits | src/NXDraw.java:457-468 | an item fits position k only when it is of the type the cast at k expects (`int[][]`, `Color[]` or `int`), with the capacity of that tool's table |
| Persistence.Install | src/NXDraw.java:457-468 | assigning an item changes only the table of the tool it belongs to and keeps the allocated shapes |
| Persistence.Overlay | src/NXDraw.java:457-468 | the field-by-field load keeps the allocated shapes, and a load that assigns at most the first nine items keeps the dab table |
| Persistence.Encode | src/NXDraw.java:400-411 | save writes exactly twelve items |
| Persistence.ReadableFrom | src/NXDraw.java:457-468 | reading goes on while items are present and fit, and stops at the first that is not |
| Persistence.Readable | src/NXDraw.java:457-468 | the items read all fit, and reading stopped at 12, at the end of the stream, or at an item that does not fit |
| Persistence.StopAt | src/NXDraw.java:471-480 | the error names where reading stopped, and is truncation exactly when the stream ended there |
| Persistence.ReadableAt | src/NXDraw.java:457-468 | the first position where reading cannot go on is where it stops |
| Persistence.Decode | src/NXDraw.java:457-468 | a stream decodes exactly when all twelve items are readable, and then to tables of the allocated shape |
| Persistence.DecodeStops | src/NXDraw.java:457-480 | a stream that stops early decodes to the error at the stopping point |
| Persistence.InstallOneField | src/NXDraw.java:457-468 | assigning item k changes item k of the save to the record read and no other item, and keeps the allocated shapes |
| Persistence.RoundTrip | src/NXDraw.java:400-468 | every saved store loads back as itself |
| Persistence.DecodeInverse | src/NXDraw.java:400-468 | whatever loads as a store is that store's save followed by anything |
| Persistence.CutSaveIsTruncated | src/NXDraw.java:457-477 | a save cut after k items loads as truncated at k |
| Persistence.OverlayFields | src/NXDraw.java:457-468 | after n assignments items before n come from the stream and the rest are unchanged |
| Persistence.EncodeInjective | src/NXDraw.java:400-411 | two stores with the same save are equal |
| Persistence.FullLoadIsDecode | src/NXDraw.java:457-468 | a load that reads all twelve items replaces every saved field, whatever was there before |
| Application.NewGrid | src/NXDraw.java:321 | a new `int[n][m]` holding the given rows |
| Application.NewColors | src/NXDraw.java:39 | a new `Color[]` holding the given colours |
| Application.StartShape | src/NXDraw.java:224-226 | slot `count` gets corners (x, y, x, y) and the colour, or a fault with nothing written |
| Application.WriteDab | src/NXDraw.java:672-675 | slot `count` gets (x, y, size) and the colour, nothing else changes |
| Application.MoveCorner | src/NXDraw.java:192-193 | entries [2] and [3] of slot `count` become (x, y), or a fault with nothing written |
| Application.GridCalls | src/NXDraw.java:100-111 | the two grid loops make exactly the calls of `GridOps` |
| Application.DabCalls | src/NXDraw.java:129-136 | the dab loop makes the calls of `AllDabOps` for min(count, MAX_FHAND) dabs, and is complete exactly when count <= MAX_FHAND |
| Application.BoxCall | src/NXDraw.java:142-143 | one pass makes the calls of `BoxOps` for slot i |
| Application.BoxCalls | src/NXDraw.java:140-151 | the rectangle or oval loop makes the calls of `AllBoxOps` for `Shown(count, MAX)` slots |
| Application.SegmentCalls | src/NXDraw.java:154-158 | the line loop makes the calls of `AllSegmentOps` for `Shown(count, MAX)` slots |
| Application.NXDraw.constructor | src/NXDraw.java:36-61 | the fields hold `Initial(black)` |
| Application.NXDraw.UpdateFreeHandArrays | src/NXDraw.java:666-691 | the fields move as `AppendDab` says and the result is true exactly when it stored the dab |
| Application.NXDraw.MousePressed | src/NXDraw.java:219-241 | the fields move as `Press` says, with its status |
| Application.NXDraw.MouseDragged | src/NXDraw.java:174-211 | the fields move as `Drag` says, with its status |
| Application.NXDraw.MouseReleased | src/NXDraw.java:243-251 | the fields move as `Release` says |
| Application.NXDraw.MouseClicked | src/NXDraw.java:253-266 | the fields move as `Click` says, with its status |
| Application.NXDraw.ThicknessChanged | src/NXDraw.java:285-289 | only the thickness changes, to the slider value |
| Application.NXDraw.ColorChosen | src/NXDraw.java:306-310 | only the selected colour changes, to the chooser's result (null when cancelled) |
| Application.NXDraw.DrawingToolSelected | src/NXDraw.java:367-386 | the fields move as `SelectTool` says |
| Application.NXDraw.ClearCanvas | src/NXDraw.java:316-339 | the fields move as `Clear` says, and the colour arrays are the same arrays as before |
| Application.NXDraw.ResetFreehand | src/NXDraw.java:321-323 | a new zeroed dab table, dab count 0, all the ink back; nothing else changes |
| Application.NXDraw.ResetLines | src/NXDraw.java:326-327 | a new zeroed line table and line count 0; nothing else changes |
| Application.NXDraw.ResetRects | src/NXDraw.java:330-331 | a new zeroed rectangle table and rectangle count 0; nothing else changes |
| Application.NXDraw.ResetOvals | src/NXDraw.java:334-335 | a new zeroed oval table and oval count 0; nothing else changes |
| Application.NXDraw.AnimationTick | src/NXDraw.java:354-361 | the fields move as `Tick` says |
| Application.NXDraw.Save | src/NXDraw.java:399-411 | the items written are `Encode` of the store |
| Application.NXDraw.ReadField | src/NXDraw.java:457-468 | one read either assigns item k over the fields or stops at k with nothing changed |
| Application.NXDraw.SetGrid | src/NXDraw.java:457 | the geometry table of one tool becomes the rows read, nothing else changes |
| Application.NXDraw.SetColors | src/NXDraw.java:458 | the colour array of one tool becomes the colours read, nothing else changes |
| Application.NXDraw.SetCount | src/NXDraw.java:459 | the count of one tool becomes the value read, nothing else changes |
| Application.NXDraw.ReadBlock | src/NXDraw.java:457-459 | the three reads of one tool assign their items, or stop at the first that is missing or does not fit |
| Application.NXDraw.Load | src/NXDraw.java:447-480 | the store becomes `Overlay` of the readable prefix; the session state and ink are kept; the result is no error exactly when the stream decodes, and otherwise the decode error |
| Application.NXDraw.Draw | src/NXDraw.java:94-159 | the calls made are `Render` of the store |
| Scenarios.SlotZeroAtOrigin | src/NXDraw.java:140-158 | a table with slot 0 zeroed draws a point at the origin in slot 0's colour |
| Scenarios.EmptyStoreShowsSlotsZero | src/NXDraw.java:94-159 | with every count 0, a repaint draws the grids, no dab, then slot 0 of the rectangles, ovals and lines |
| Scenarios.EmptyStoreShowsSlotZero | src/NXDraw.java:138-158 | with every count 0 and slot 0 zeroed, those slots are drawn as points at the origin in their colours |
| Scenarios.ClearedCanvasShowsSlotZero | src/NXDraw.java:138-158 | after a clear a repaint draws the grids, then one point-sized rectangle, oval and line at the origin in their old colours |
| Scenarios.ClearedCanvasCounts | src/NXDraw.java:138-158 | after a clear a repaint fills nothing and draws one rectangle and one oval |
| Scenarios.TickMovesOvalDown | src/NXDraw.java:354-361 | after a tick oval 0 is drawn one pixel lower, same size and colour |
| Scenarios.LoadRestoresSave | src/NXDraw.java:400-468 | loading a save reads all twelve items and yields exactly the saved store |
| Scenarios.LoadOfCutSaveMixes | src/NXDraw.java:457-477 | loading a save cut after k items stops at k, with those k fields from the file and the rest as before |
| Scenarios.RenderedDabAt | src/NXDraw.java:129-136 | dab k is drawn by calls 2k and 2k+1 after the grids |
| Scenarios.RenderSections | src/NXDraw.java:94-159 | a complete repaint is the grids, the dabs (two calls each), then the shown rectangles, ovals and lines |
| Scenarios.RenderedRectAt | src/NXDraw.java:140-144 | rectangle slot k is drawn by the calls 2k and 2k+1 after the grids and dabs |
| Scenarios.RenderedOvalAt | src/NXDraw.java:147-151 | oval slot k is drawn by the calls 2k and 2k+1 after the shown rectangles |
| Scenarios.RenderedLineAt | src/NXDraw.java:154-158 | line slot k is drawn by the calls 2k and 2k+1 after the shown ovals, and the lines end the picture |
| Scenarios.LoadCanUnbalanceInk | src/NXDraw.java:468 | a complete load of a dab count other than the drawing's breaks `fhand_count + fh_left == MAX_FHAND`, because load keeps `fh_left` |
| Scenarios.ScribbleIsDrawnInOrder | src/NXDraw.java:129-136 | N clicks on an empty table then a repaint fill N circles, dab k centred on the k-th point with the thickness and the selected colour |

## Left out

- Window, menus, panels, slider and check-box construction, `main` and the look and feel: Swing plumbing with no drawing state.
- `mouseMoved` and the coordinate label, `mouseEntered`/`mouseExited` (empty), the message area's texts and the `DEBUG` prints: UI output. The handlers return a `Status` instead.
- `repaint` requests and the grid check boxes' listener. `Draw` takes the two check-box states and the canvas size as parameters.
- The Swing `Timer` behind the animate button: only one tick is modelled. Repeated ticks and several timers started by repeated clicks are not.
- `JColorChooser`: its result is an input of `ColorChosen`. `Color`'s float components and the antialiasing hint are left out; `Paint` is abstract.
- File choosers, file I/O errors and the Java object serialization bytes: the stream is the sequence of twelve items (`Record`). I/O exceptions and the stream ending are the `Truncated` error. Two type mismatches are also `IOException`s in the program, caught at src/NXDraw.java:475: `readObject` meeting an `int` throws `OptionalDataException`, and `readInt` meeting an object throws `EOFException`. The model reports both as `Malformed`, because `Fits` rejects the item's kind; the program's handling, a stack trace with the earlier fields kept, is the same. An unexpected class (`ClassCastException`, uncaught in the program) is the `Malformed` error.
- Load: accepts an `int[][]` or `Color[]` only when it has the shape the program allocates. The program would also accept other sizes, jagged rows or one array shared by two fields from a crafted stream; the model treats those as `Malformed`. The loaded arrays are fresh and never aliased.
- Load and the handlers: `readObject` returning `null` for a field, and the faults that would follow later, are not modelled.
- 32-bit `int` overflow of coordinates, counts and `fh_left`: integers are unbounded.
- The root `NXDraw.java`, a superseded first revision with a random-colour dab append. It is not part of this model.
- Application.NXDraw.ThicknessChanged: requires the value to lie in the slider's range 0..20, which the `JSlider` guarantees.
