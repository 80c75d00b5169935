/** The sketchpad's session: the committed draw objects, the undo stack, the
    object being drawn, the mouse state, the selected tool and the sticker
    registry, driven by the mouse handlers and the toolbar actions. */
module Sketchpad {
  import opened Canvas
  import opened Drawing
  import opened UndoHistory
  import opened Tools

  const CanvasSize: int := 256
  const ExportScale: int := 4
  /** The colour and rotation new objects get; nothing in the app changes them. */
  const CurrentColor: string := "#000000"
  const CurrentRotation: int := 0

  /** A full repaint of the on-screen canvas: clear it, then display every object in order. */
  function ScreenTrace(ds: seq<Drawable>): seq<Command>
  {
    [ClearRect(0, 0, CanvasSize, CanvasSize)] + Render(ds)
  }

  /** The off-screen export canvas and the commands drawn on it. */
  datatype Bitmap = Bitmap(width: int, height: int, commands: seq<Command>)

  /** The export: scale the coordinate system, clear, display every object. */
  function ExportTrace(ds: seq<Drawable>): seq<Command>
  {
    [Scale(ExportScale, ExportScale), ClearRect(0, 0, CanvasSize * ExportScale, CanvasSize * ExportScale)] + Render(ds)
  }

  /** A repaint shows the cleared canvas and then every object as it draws
      alone with no transform, on any context whose transform is the identity,
      and leaves that context with the identity transform and the saved states
      it had. The on-screen context is reused by every repaint, so what one
      repaint hands back is what the next one starts from, and each repaint
      shows the same way. */
  lemma ScreenShows(c: Ctx, ds: seq<Drawable>)
    requires c.gfx.transform == []
    ensures Run(c, ScreenTrace(ds)).marks == [Cleared(0, 0, CanvasSize, CanvasSize, [])] + InkAll(ds, [])
    ensures Run(c, ScreenTrace(ds)).ctx.gfx.transform == [] && Run(c, ScreenTrace(ds)).ctx.stack == c.stack
  {
    var clear := ClearRect(0, 0, CanvasSize, CanvasSize);
    RunAppend(c, [clear], Render(ds));
    RunOne(c, clear);
    RenderInk(c, ds);
  }

  /** The export shows exactly the on-screen picture of the same objects, each
      mark scaled by 4 as a whole, after a clear of the scaled 1024 x 1024 area. */
  lemma ExportShows(ds: seq<Drawable>)
    ensures Run(Fresh, ExportTrace(ds)).marks
         == [Cleared(0, 0, 1024, 1024, [Scaling(4, 4)])] + UnderAll(InkAll(ds, []), [Scaling(4, 4)])
  {
    var head := [Scale(ExportScale, ExportScale), ClearRect(0, 0, CanvasSize * ExportScale, CanvasSize * ExportScale)];
    var scaled := Step(Fresh, head[0]).ctx;
    RunAppend(Fresh, head, Render(ds));
    assert head == [head[0]] + [head[1]];
    RunAppend(Fresh, [head[0]], [head[1]]);
    RunOne(Fresh, head[0]);
    RunOne(scaled, head[1]);
    RenderInk(scaled, ds);
    assert CanvasSize * ExportScale == 1024;
    assert scaled.gfx.transform == [Scaling(4, 4)];
    InkAllUnder(ds, [Scaling(4, 4)], []);
    assert [Scaling(4, 4)] + [] == [Scaling(4, 4)];
  }

  class Sketchpad {
    /** The committed objects, in drawing order. */
    var lines: seq<DrawObject>
    /** The objects taken off by undo; the top is the last element. */
    var undoStack: seq<DrawObject>
    /** The object being drawn: the one the last mouse-down pushed, until mouse-up. */
    var currentLine: DrawObject?
    var mouseIsDown: bool
    var currentTool: Tool
    var availableStickers: seq<string>
    /** The commands of the most recent repaint of the on-screen canvas. */
    var screen: seq<Command>

    ghost predicate Valid()
      reads this
    {
      (mouseIsDown <==> currentLine != null)
      && RegistryOk(availableStickers)
      && (currentTool.StickerTool? ==> currentTool.sticker in availableStickers)
    }

    /** The two lists as an undo history. */
    ghost function History(): History<DrawObject>
      reads this
    {
      UndoHistory.History(lines, undoStack)
    }

    /** The state at start-up: nothing drawn, the thick marker, three stickers. */
    constructor ()
      ensures Valid()
      ensures lines == [] && undoStack == [] && currentLine == null && !mouseIsDown
      ensures currentTool == MarkerTool(ThickMarkerThickness)
      ensures availableStickers == InitialStickers && screen == []
    {
      lines := [];
      undoStack := [];
      currentLine := null;
      mouseIsDown := false;
      currentTool := MarkerTool(ThickMarkerThickness);
      availableStickers := InitialStickers;
      screen := [];
    }

    /** Mouse-down at (x, y): starts an object of the selected tool there and
        commits it at once; `currentLine` is that same object. The undo stack is
        kept, and the canvas is not repainted. */
    method MouseDown(x: int, y: int)
      requires Valid()
      modifies this
      ensures Valid()
      ensures mouseIsDown && currentLine != null && fresh(currentLine)
      ensures History() == old(History()).Push(currentLine)
      ensures currentLine.value == match currentTool
                                   case MarkerTool(t) => Marker([Point(x, y)], t, CurrentColor)
                                   case StickerTool(s) => Sticker(Point(x, y), s, CurrentRotation)
      ensures currentTool == old(currentTool) && availableStickers == old(availableStickers)
      ensures screen == old(screen)
    {
      mouseIsDown := true;
      if currentTool.MarkerTool? {
        currentLine := new DrawObject.CreateMarker(x, y, currentTool.thickness, CurrentColor);
      } else {
        currentLine := new DrawObject.CreateSticker(x, y, currentTool.sticker, CurrentRotation);
      }
      lines := lines + [currentLine];
    }

    /** Mouse-move to (x, y): drags the object being drawn, if the button is down
        and there is one, then repaints. Only that object can change. */
    method MouseMove(x: int, y: int)
      requires Valid()
      modifies this, currentLine
      ensures Valid()
      ensures lines == old(lines) && undoStack == old(undoStack)
      ensures currentLine == old(currentLine) && mouseIsDown == old(mouseIsDown)
      ensures currentTool == old(currentTool) && availableStickers == old(availableStickers)
      ensures old(mouseIsDown) && currentLine != null ==> currentLine.value == old(currentLine.value).Dragged(x, y)
      ensures screen == ScreenTrace(Values(lines))
    {
      if mouseIsDown && currentLine != null {
        currentLine.Drag(x, y);
      }
      var frame := RedrawCanvas();
      screen := frame;
    }

    /** Mouse-up: ends the drawing; the committed objects stay as they are. */
    method MouseUp()
      requires Valid()
      modifies this
      ensures Valid()
      ensures !mouseIsDown && currentLine == null
      ensures lines == old(lines) && undoStack == old(undoStack)
      ensures currentTool == old(currentTool) && availableStickers == old(availableStickers)
      ensures screen == ScreenTrace(Values(lines))
    {
      mouseIsDown := false;
      currentLine := null;
      var frame := RedrawCanvas();
      screen := frame;
    }

    /** A marker button: selects a marker of that thickness. */
    method SelectMarker(thickness: int)
      requires Valid()
      modifies this
      ensures Valid()
      ensures currentTool == MarkerTool(thickness)
      ensures lines == old(lines) && undoStack == old(undoStack) && currentLine == old(currentLine)
      ensures mouseIsDown == old(mouseIsDown) && availableStickers == old(availableStickers) && screen == old(screen)
    {
      currentTool := MarkerTool(thickness);
    }

    /** A sticker button: there is one per registered glyph, in registry order,
        and it selects that glyph. */
    method SelectSticker(button: nat)
      requires Valid()
      requires button < |availableStickers|
      modifies this
      ensures Valid()
      ensures lines == old(lines) && undoStack == old(undoStack) && currentLine == old(currentLine)
      ensures mouseIsDown == old(mouseIsDown) && availableStickers == old(availableStickers) && screen == old(screen)
      ensures currentTool == StickerTool(availableStickers[button])
    {
      currentTool := StickerTool(availableStickers[button]);
    }

    /** The sticker prompt answered `input` (None when cancelled): a present,
        non-empty, new glyph is registered; anything else is rejected and the
        registry is left as it was. */
    method AddStickerPrompt(input: Option<string>) returns (added: bool)
      requires Valid()
      modifies this
      ensures Valid()
      ensures added <==> Accepts(old(availableStickers), input)
      ensures availableStickers == Register(old(availableStickers), input)
      ensures lines == old(lines) && undoStack == old(undoStack) && currentLine == old(currentLine)
      ensures mouseIsDown == old(mouseIsDown) && currentTool == old(currentTool) && screen == old(screen)
    {
      added := input.Some? && input.value != "" && input.value !in availableStickers;
      if added {
        availableStickers := availableStickers + [input.value];
      }
    }

    /** Empties both lists and repaints. The object being drawn, if any, is no
        longer in either list. */
    method ClearCanvas()
      requires Valid()
      modifies this
      ensures Valid()
      ensures History() == old(History()).Clear()
      ensures currentLine == old(currentLine) && mouseIsDown == old(mouseIsDown)
      ensures currentTool == old(currentTool) && availableStickers == old(availableStickers)
      ensures screen == ScreenTrace([])
    {
      lines := [];
      undoStack := [];
      var frame := RedrawCanvas();
      screen := frame;
    }

    method Undo()
      requires Valid()
      modifies this
      ensures Valid()
      ensures History() == old(History()).Undo()
      ensures currentLine == old(currentLine) && mouseIsDown == old(mouseIsDown)
      ensures currentTool == old(currentTool) && availableStickers == old(availableStickers)
      ensures screen == ScreenTrace(Values(lines))
    {
      if |lines| > 0 {
        var last := lines[|lines| - 1];
        lines := lines[..|lines| - 1];
        undoStack := undoStack + [last];
      }
      var frame := RedrawCanvas();
      screen := frame;
    }

    method Redo()
      requires Valid()
      modifies this
      ensures Valid()
      ensures History() == old(History()).Redo()
      ensures currentLine == old(currentLine) && mouseIsDown == old(mouseIsDown)
      ensures currentTool == old(currentTool) && availableStickers == old(availableStickers)
      ensures screen == ScreenTrace(Values(lines))
    {
      if |undoStack| > 0 {
        var top := undoStack[|undoStack| - 1];
        undoStack := undoStack[..|undoStack| - 1];
        lines := lines + [top];
      }
      var frame := RedrawCanvas();
      screen := frame;
    }

    /** The commands a repaint sends to the on-screen canvas. */
    method RedrawCanvas() returns (frame: seq<Command>)
      ensures frame == ScreenTrace(Values(lines))
    {
      var cmds := DisplayAll(lines);
      frame := [ClearRect(0, 0, CanvasSize, CanvasSize)] + cmds;
    }

    /** The export: a canvas four times the size, scaled by four, showing the
        committed objects only. */
    method ExportCanvas() returns (image: Bitmap)
      ensures image.width == CanvasSize * ExportScale && image.height == CanvasSize * ExportScale
      ensures image.commands == ExportTrace(Values(lines))
    {
      var cmds := DisplayAll(lines);
      image := Bitmap(CanvasSize * ExportScale, CanvasSize * ExportScale,
                      [Scale(ExportScale, ExportScale), ClearRect(0, 0, CanvasSize * ExportScale, CanvasSize * ExportScale)] + cmds);
    }
  }

  /** Undo in the middle of a stroke, as right after a mouse-down: the stroke
      goes onto the undo stack, the next drag still extends it through the
      alias `currentLine`, and redo puts it back at the end of the committed
      list, carrying the new point. */
  method UndoWhileDrawing(pad: Sketchpad, x: int, y: int)
    requires pad.Valid() && pad.mouseIsDown
    requires pad.lines != [] && pad.lines[|pad.lines| - 1] == pad.currentLine
    modifies pad, pad.currentLine
    ensures pad.Valid() && pad.mouseIsDown
    ensures pad.lines == old(pad.lines) && pad.undoStack == old(pad.undoStack)
    ensures pad.currentLine == old(pad.currentLine)
    ensures pad.currentTool == old(pad.currentTool) && pad.availableStickers == old(pad.availableStickers)
    ensures pad.lines[|pad.lines| - 1].value == old(pad.currentLine.value).Dragged(x, y)
    ensures pad.screen == ScreenTrace(Values(pad.lines))
  {
    ghost var h := pad.History();
    pad.Undo();
    pad.MouseMove(x, y);
    pad.Redo();
    UndoThenRedo(h);
  }
}
