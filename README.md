# Sticker Sketchpad drawing engine, in Dafny

This project models the drawing-state engine of the Sticker Sketchpad web app
(`src/main.ts`) and proves properties of that model. The engine is a
single-threaded state machine over a few pieces of state:

- `lines` is the ordered list of committed draw objects, and `undoStack` is the
  redo buffer filled by undo.
- `currentLine` is the object being drawn. It is an alias of the object that the
  last mouse-down pushed onto `lines`.
- `mouseIsDown` is the mouse button state.
- `currentTool` is a marker with a thickness or a sticker with a glyph.
- `availableStickers` is the registry of sticker glyphs.

A draw object is either a marker stroke or a sticker stamp. A stroke's point list
grows with every drag. A stamp keeps a fixed anchor, glyph and rotation. Each
object draws itself onto a 2D canvas context. The app repaints the whole canvas
after a mouse-move, a mouse-up, undo, redo and clear. It exports the committed
objects onto a canvas four times the size.

Files and modules:

- `canvas.dfy` (`Canvas`): a stand-in for the 2D context. It holds the commands
  the app issues (`save`, `translate`, `rotate`, `fillText`, `restore`,
  `beginPath`, `moveTo`, `lineTo`, `stroke`, `clearRect`, `scale`, line width and
  stroke colour). It also holds an interpreter, `Run`, that turns a command list
  into the marks it leaves on the surface. The interpreter tracks the transform,
  the save/restore stack, the line width, the stroke colour and the current path.
- `drawing.dfy` (`Drawing`): the two kinds of draw object as a datatype
  (`Marker`, `Sticker`), and the class `DrawObject`. The class is a reference
  holding the object's current value, so the alias `currentLine` works as it does
  in the app. It also holds the display command lists and the proofs of what
  they draw.
- `history.dfy` (`UndoHistory`): `lines` and `undoStack` as an undo history,
  together with push, undo, redo and clear and their laws.
- `tools.dfy` (`Tools`): the tool variants, the start-up marker thickness, the
  initial stickers and the sticker-registry check.
- `sketchpad.dfy` (`Sketchpad`): the session as a class `Sketchpad`. Its fields are
  the app's module-level variables. Its methods are the mouse handlers and the
  toolbar actions.

Behaviour of the code worth knowing, all of it modelled as written:

- Mouse-down commits the new object at once (`src/main.ts:152`) and leaves
  `undoStack` as it is. After undo, a new stroke and redo, the undone object
  comes back on top of the new one (`UndoHistory.RedoAfterPush`).
- `clearCanvas` empties both `lines` and `undoStack` (`src/main.ts:187-191`), so
  cleared objects cannot be brought back by redo.
- The code has no live preview: `_toolPreview` is a constant `null` and is never
  drawn.
- The code has no colour or rotation changes: `currentColor` and
  `currentRotation` are constants, so every marker is drawn in black and every
  sticker with rotation 0.

## Model

| member | source | states |
|---|---|---|
| `Drawing.DrawObject.CreateMarker` | src/main.ts:106-108 | a new stroke holds exactly the mouse-down point and the thickness and colour given at creation |
| `Drawing.DrawObject.CreateSticker` | src/main.ts:123-124 | a new stamp holds the mouse-down point as anchor, and the glyph and rotation given at creation |
| `Drawing.DrawObject.Drag` | src/main.ts:106-127 | a drag turns the object's value into `Dragged(x, y)`: a stroke gains the point, a stamp is unchanged |
| `Drawing.DragThroughRecords` | src/main.ts:106-127 | after any run of drags, a stroke's points are its old points followed by exactly the drag points in order, with thickness and colour unchanged; a stamp is unchanged |
| `Drawing.StrokeFromMouseDown` | src/main.ts:106-111 | a stroke begun at (x, y) and dragged through some moves has points [(x, y)] + moves, so its first point is the mouse-down point |
| `Drawing.LineTos` | src/main.ts:117 | the lineTo run holds one `lineTo` per point, in point order |
| `Drawing.DrawObject.Display` | src/main.ts:112-134 | the loop over the points issues exactly the object's command list `Commands(value)` |
| `Drawing.MarkerInk` | src/main.ts:112-119 | a stroke's commands draw one polyline through its first point and then every point, with its own width and colour, under the transform in force; transform and saved states are left as they were |
| `Drawing.StickerInk` | src/main.ts:128-134 | a stamp's commands draw its glyph at the origin moved to its anchor and turned by its rotation, and hand the context back exactly as they found it (save/restore bracket the transform) |
| `Drawing.DisplayInk` | src/main.ts:112-134 | any object's display draws exactly its `Ink` under the current transform and leaves transform and saved states unchanged |
| `Drawing.DisplayAll` | src/main.ts:220 | the loop over the objects issues each object's commands in list order |
| `Drawing.RenderInk` | src/main.ts:218-221 | rendering a list draws every object as it draws alone under the starting transform, in list order, and restores transform and stack: a stamp's rotation never reaches a later object |
| `Drawing.InkUnder` | src/main.ts:208-210 | one object drawn under an extra leading transform leaves its own marks with that transform applied to each |
| `Drawing.InkAllUnder` | src/main.ts:208-210 | drawing under an extra leading transform gives the same marks with that transform applied to each as a whole |
| `UndoHistory.History.Push` | src/main.ts:152 | mouse-down's commit adds exactly one object, at the end of `lines`, keeps the earlier ones and leaves `undoStack` unchanged |
| `UndoHistory.History.Undo` | src/main.ts:193-196 | undo keeps the multiset of objects in the two lists, and changes nothing when `lines` is empty |
| `UndoHistory.History.Redo` | src/main.ts:198-201 | redo keeps the multiset of objects in the two lists, and changes nothing when `undoStack` is empty |
| `UndoHistory.History.Clear` | src/main.ts:187-191 | clear leaves both lists empty, so a following undo or redo changes nothing |
| `UndoHistory.UndoMovesLast` | src/main.ts:194 | undo on a non-empty `lines` moves exactly its last object to the top of `undoStack` |
| `UndoHistory.RedoMovesTop` | src/main.ts:199 | redo on a non-empty `undoStack` moves exactly its top object back to the end of `lines` |
| `UndoHistory.UndoRedoKeepCount` | src/main.ts:193-201 | undo and redo keep the total number of objects in `lines` and `undoStack` |
| `UndoHistory.UndoThenRedo` | src/main.ts:193-201 | undo then redo on a non-empty `lines` restores both lists exactly |
| `UndoHistory.RedoThenUndo` | src/main.ts:193-201 | redo then undo on a non-empty `undoStack` restores both lists exactly |
| `UndoHistory.UndoSuffix` | src/main.ts:193-196 | undoing as many times as a final run of `lines` is long moves exactly that run onto the undo stack, last object first, and keeps the rest |
| `UndoHistory.RedoSuffix` | src/main.ts:198-201 | redoing as many times as the top run of the undo stack is long moves exactly that run back onto `lines`, top first |
| `UndoHistory.UndoTimesShape` | src/main.ts:193-196 | n undos (n at most the number of objects in `lines`) leave the first objects committed and push the last n onto the undo stack, newest first to come back |
| `UndoHistory.RedoTimesShape` | src/main.ts:198-201 | n redos bring the top n objects of the undo stack back onto `lines`, top first |
| `UndoHistory.UndoTimesThenRedoTimes` | src/main.ts:193-201 | n redos after n undos restore both lists exactly |
| `UndoHistory.RedoAfterPush` | src/main.ts:152-199 | a new commit does not empty the undo stack: redo afterwards puts the undone object on top of the new one |
| `Tools.Register` | src/main.ts:171-185 | the registry gains the answer only when it is present, non-empty and new, at the end; otherwise it is unchanged; a registry with no duplicate and no empty glyph stays so |
| `Tools.RegisterTwice` | src/main.ts:173-174 | once a non-empty glyph has been offered it is registered exactly once, and offering it again changes nothing |
| `Tools.InitialRegistryOk` | src/main.ts:53 | the three initial glyphs are distinct and non-empty |
| `Sketchpad.ScreenShows` | src/main.ts:218-221 | on the reused on-screen context, any repaint that starts with no transform shows the cleared 256 x 256 canvas and then every committed object as it draws alone, and hands the context back with no transform and the saved states it had, so the next repaint starts the same way |
| `Sketchpad.ExportShows` | src/main.ts:203-210 | the export shows a clear of the scaled 1024 x 1024 area and then the on-screen picture of the committed objects, every mark scaled by 4 |
| `Sketchpad.Sketchpad.constructor` | src/main.ts:42-53 | the session starts with both lists empty, no object being drawn, the mouse up, the thick marker (9) and the three initial stickers |
| `Sketchpad.Sketchpad.MouseDown` | src/main.ts:139-153 | sets `mouseIsDown`, commits exactly one fresh object and makes `currentLine` that same object; it is a stroke with the tool's thickness or a stamp with the tool's glyph; `undoStack` and the screen are untouched |
| `Sketchpad.Sketchpad.MouseMove` | src/main.ts:155-158 | drags `currentLine` only when the mouse is down and there is one (through the alias, so the committed object changes); lists and mouse state are unchanged; the screen is a repaint of the current objects |
| `Sketchpad.Sketchpad.MouseUp` | src/main.ts:160-164 | clears `mouseIsDown` and `currentLine`, leaves both lists unchanged and repaints |
| `Sketchpad.Sketchpad.SelectMarker` | src/main.ts:167-169 | the tool becomes a marker of the given thickness; nothing else changes |
| `Sketchpad.Sketchpad.SelectSticker` | src/main.ts:175-180 | a sticker button makes its registered glyph the tool; nothing else changes |
| `Sketchpad.Sketchpad.AddStickerPrompt` | src/main.ts:171-185 | reports acceptance exactly for a present, non-empty, new glyph and registers it; otherwise rejects and leaves the registry unchanged; the registry stays duplicate-free |
| `Sketchpad.Sketchpad.ClearCanvas` | src/main.ts:187-191 | both lists become empty (`History.Clear`), the object being drawn is untouched, the screen is a blank repaint |
| `Sketchpad.Sketchpad.Undo` | src/main.ts:193-196 | the lists change as `History.Undo` says, and the screen is repainted |
| `Sketchpad.Sketchpad.Redo` | src/main.ts:198-201 | the lists change as `History.Redo` says, and the screen is repainted |
| `Sketchpad.Sketchpad.RedrawCanvas` | src/main.ts:218-221 | the repaint issues a full clear and then every committed object's display, in order |
| `Sketchpad.Sketchpad.ExportCanvas` | src/main.ts:203-210 | the export canvas is 1024 x 1024 and receives a scale by 4, a clear and every committed object's display; it never draws anything else |
| `Sketchpad.UndoWhileDrawing` | src/main.ts:139-201 | on any session in the middle of a stroke (mouse down, `currentLine` last in `lines`), undo, a drag and redo leave both lists, the tool and the sticker registry as they were, the committed stroke has gained the drag point through the alias `currentLine`, and the screen is a repaint of the committed objects |

## Left out

- DOM construction and wiring are not modelled: buttons, inputs, divs, `append` calls, event-listener registration and the stylesheet. This is UI plumbing.
- The `prompt` dialog and the `alert` in `addStickerPrompt` are user I/O. The prompt's answer is a parameter: `None` for a cancelled prompt, `Some(text)` otherwise. Creating the new sticker's button is modelled only as what the button does, `SelectSticker`.
- Pixel rendering is not modelled. The canvas is a command interpreter that records marks under symbolic transforms. Rotation stays an integer number of degrees, so the degrees-to-radians conversion with `Math.PI` and all trigonometry are left out.
- The canvas's own rules are simplified. It ignores a non-positive `lineWidth`, and it has a fill style and a font; none of these are modelled. The app only sets widths of 3 and 9.
- PNG encoding and the download in `exportCanvas` (`toDataURL`, the anchor click) are I/O and are left out. The export is the bitmap's size and the commands drawn on it.
- Coordinates, thickness and rotation are JavaScript numbers (doubles) in the source. Here they are modelled as integers, which loses nothing because the engine does no arithmetic on them.
- The colour picker and the slider are never read. `currentColor` and `currentRotation` are constants (`CurrentColor`, `CurrentRotation`).
- The tool preview has no behaviour, because `_toolPreview` is a constant `null`.
- `screen` holds only the commands of the most recent repaint. Everything drawn before a repaint's full `clearRect` is erased by it. The canvas is blank at start-up (`screen == []`).
- The `if (currentLine)` guard before the push in the mouse-down handler is always true in the code, since both tool branches create an object. The model pushes unconditionally.
