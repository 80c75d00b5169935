/** The draw objects: a marker stroke that grows with every drag, and a sticker
    stamp that ignores drags. Each one renders itself as a fixed list of canvas
    commands; what that list draws depends only on the object and on the
    transform in force when it starts. */
module Drawing {
  import opened Canvas

  /** A marker's points: created with the mouse-down point, so never empty. */
  type Path = s: seq<Point> | |s| > 0 witness [Point(0, 0)]

  /** The value of a draw object. Thickness, colour, glyph and rotation are the
      tool's values captured when the object was created. */
  datatype Drawable =
    | Marker(points: Path, thickness: int, color: string)
    | Sticker(anchor: Point, sticker: string, rotation: int)
  {
    /** The object after a drag to (x, y). */
    function Dragged(x: int, y: int): Drawable
    {
      match this
      case Marker(points, thickness, color) => Marker(points + [Point(x, y)], thickness, color)
      case Sticker(_, _, _) => this
    }
  }

  /** The object after a drag to each of `moves`, in order. */
  function DragThrough(d: Drawable, moves: seq<Point>): Drawable
    decreases |moves|
  {
    if moves == [] then d else DragThrough(d.Dragged(moves[0].x, moves[0].y), moves[1..])
  }

  /** A marker records every drag point, after the points it already had, and
      keeps its thickness and colour; a sticker is left exactly as it was. */
  lemma {:induction false} DragThroughRecords(d: Drawable, moves: seq<Point>)
    ensures d.Marker? ==> DragThrough(d, moves) == Marker(d.points + moves, d.thickness, d.color)
    ensures d.Sticker? ==> DragThrough(d, moves) == d
    decreases |moves|
  {
    if moves != [] {
      DragThroughRecords(d.Dragged(moves[0].x, moves[0].y), moves[1..]);
      if d.Marker? {
        assert d.points + [moves[0]] + moves[1..] == d.points + moves;
      }
    }
  }

  /** A stroke begun at (x, y) and dragged through `moves` has exactly the points
      [(x, y)] + moves: its first point is the mouse-down point. */
  lemma StrokeFromMouseDown(x: int, y: int, thickness: int, color: string, moves: seq<Point>)
    ensures DragThrough(Marker([Point(x, y)], thickness, color), moves) == Marker([Point(x, y)] + moves, thickness, color)
    ensures DragThrough(Marker([Point(x, y)], thickness, color), moves).points[0] == Point(x, y)
  {
    DragThroughRecords(Marker([Point(x, y)], thickness, color), moves);
  }

  /** One `lineTo` per point, in order. */
  function LineTos(ps: seq<Point>): (cmds: seq<Command>)
    ensures |cmds| == |ps|
    ensures forall i :: 0 <= i < |ps| ==> cmds[i] == LineTo(ps[i].x, ps[i].y)
    decreases |ps|
  {
    if ps == [] then [] else LineTos(ps[..|ps| - 1]) + [LineTo(ps[|ps| - 1].x, ps[|ps| - 1].y)]
  }

  /** The commands an object's display issues. A marker moves to its first point
      and then draws a line to every point, the first one included; a sticker
      brackets its translate, rotate and text between save and restore. */
  function Commands(d: Drawable): seq<Command>
  {
    match d
    case Marker(points, thickness, color) =>
      [SetLineWidth(thickness), SetStrokeStyle(color)] + [BeginPath, MoveTo(points[0].x, points[0].y)]
      + LineTos(points) + [Stroke]
    case Sticker(anchor, sticker, rotation) =>
      [Save] + [Translate(anchor.x, anchor.y), Rotate(rotation)] + [FillText(sticker, 0, 0), Restore]
  }

  /** Points as vertices under one transform. */
  function Trail(ps: seq<Point>, t: seq<Transform>): (vs: seq<Vertex>)
    ensures |vs| == |ps|
    ensures forall i :: 0 <= i < |ps| ==> vs[i] == Vertex(ps[i], t)
    decreases |ps|
  {
    if ps == [] then [] else Trail(ps[..|ps| - 1], t) + [Vertex(ps[|ps| - 1], t)]
  }

  /** What an object should leave on the surface when drawn under transform `t`:
      a marker, one stroked polyline of its own width and colour through its first
      point and then every point; a sticker, its glyph at the origin of `t`
      moved to its anchor and turned by its rotation. */
  function Ink(d: Drawable, t: seq<Transform>): seq<Mark>
  {
    match d
    case Marker(points, thickness, color) =>
      [Stroked([Trail([points[0]] + points, t)], thickness, color, t)]
    case Sticker(anchor, sticker, rotation) =>
      [Text(sticker, Point(0, 0), t + [Translation(anchor.x, anchor.y), Rotation(rotation)])]
  }

  /** The `lineTo` run extends the last subpath by every point, under the current transform. */
  lemma {:induction false} LineTosExtend(c: Ctx, ps: seq<Point>)
    requires c.path != []
    ensures Run(c, LineTos(ps)).marks == []
    ensures Run(c, LineTos(ps)).ctx
         == c.(path := c.path[..|c.path| - 1] + [c.path[|c.path| - 1] + Trail(ps, c.gfx.transform)])
    decreases |ps|
  {
    var n := |c.path| - 1;
    var t := c.gfx.transform;
    if ps == [] {
      assert Trail(ps, t) == [];
      assert c.path[n] + [] == c.path[n];
      assert c.path[..n] + [c.path[n]] == c.path;
    } else {
      var init := ps[..|ps| - 1];
      var p := ps[|ps| - 1];
      LineTosExtend(c, init);
      var mid := Run(c, LineTos(init)).ctx;
      assert LineTos(ps) == LineTos(init) + [LineTo(p.x, p.y)];
      RunAppend(c, LineTos(init), [LineTo(p.x, p.y)]);
      RunOne(mid, LineTo(p.x, p.y));
      assert mid.gfx == c.gfx;
      assert |mid.path| == n + 1;
      assert mid.path[..n] == c.path[..n];
      assert mid.path[n] == c.path[n] + Trail(init, t);
      assert Trail(ps, t) == Trail(init, t) + [Vertex(p, t)];
      assert mid.path[n] + [Vertex(p, t)] == c.path[n] + Trail(ps, t);
    }
  }

  /** A marker's first four commands: its own width and colour, and a fresh
      path holding only its first point. */
  lemma MarkerHead(c: Ctx, p0: Point, thickness: int, color: string)
    ensures Run(c, [SetLineWidth(thickness), SetStrokeStyle(color)] + [BeginPath, MoveTo(p0.x, p0.y)])
         == Outcome(Ctx(Gfx(c.gfx.transform, thickness, color), c.stack, [[Vertex(p0, c.gfx.transform)]]), [])
  {
    var c2 := c.(gfx := Gfx(c.gfx.transform, thickness, color));
    RunPair(c, SetLineWidth(thickness), SetStrokeStyle(color));
    RunPair(c2, BeginPath, MoveTo(p0.x, p0.y));
    RunAppend(c, [SetLineWidth(thickness), SetStrokeStyle(color)], [BeginPath, MoveTo(p0.x, p0.y)]);
  }

  /** A path starting at `p` and then running through `ps`. */
  lemma TrailCons(p: Point, ps: seq<Point>, t: seq<Transform>)
    ensures Trail([p] + ps, t) == [Vertex(p, t)] + Trail(ps, t)
  {
    var l := Trail([p] + ps, t);
    var r := [Vertex(p, t)] + Trail(ps, t);
    assert |l| == |r|;
    forall i | 0 <= i < |l|
      ensures l[i] == r[i]
    {
      if i > 0 {
        assert ([p] + ps)[i] == ps[i - 1];
      }
    }
  }

  /** From the path holding a marker's first point, the `lineTo` run extends
      that path through every point and draws nothing. */
  lemma MarkerTrail(c: Ctx, points: Path)
    requires c.path == [[Vertex(points[0], c.gfx.transform)]]
    ensures Run(c, LineTos(points)) == Outcome(c.(path := [Trail([points[0]] + points, c.gfx.transform)]), [])
  {
    var t := c.gfx.transform;
    LineTosExtend(c, points);
    TrailCons(points[0], points, t);
    assert c.path[..0] + [c.path[0] + Trail(points, t)] == [Trail([points[0]] + points, t)];
  }

  /** The rest of a marker's commands, from the path holding its first point:
      the `lineTo` run extends it through every point and `stroke` draws it. */
  lemma MarkerBody(c: Ctx, points: Path, thickness: int, color: string)
    requires c.gfx == Gfx(c.gfx.transform, thickness, color) && c.path == [[Vertex(points[0], c.gfx.transform)]]
    ensures Run(c, LineTos(points) + [Stroke])
         == Outcome(c.(path := [Trail([points[0]] + points, c.gfx.transform)]),
                    [Stroked([Trail([points[0]] + points, c.gfx.transform)], thickness, color, c.gfx.transform)])
  {
    var c5 := c.(path := [Trail([points[0]] + points, c.gfx.transform)]);
    MarkerTrail(c, points);
    RunAppend(c, LineTos(points), [Stroke]);
    RunOne(c5, Stroke);
  }

  /** A marker's display sets its own width and colour, starts a fresh path at
      its first point, extends it through every point and strokes it. */
  lemma MarkerInk(c: Ctx, points: Path, thickness: int, color: string)
    ensures Run(c, Commands(Marker(points, thickness, color))).marks == Ink(Marker(points, thickness, color), c.gfx.transform)
    ensures Run(c, Commands(Marker(points, thickness, color))).ctx.gfx.transform == c.gfx.transform
    ensures Run(c, Commands(Marker(points, thickness, color))).ctx.stack == c.stack
  {
    var head := [SetLineWidth(thickness), SetStrokeStyle(color)] + [BeginPath, MoveTo(points[0].x, points[0].y)];
    var body := LineTos(points) + [Stroke];
    MarkerHead(c, points[0], thickness, color);
    MarkerBody(Run(c, head).ctx, points, thickness, color);
    RunAppend(c, head, body);
    assert Commands(Marker(points, thickness, color)) == head + body;
  }

  /** A sticker's move to its anchor and turn by its rotation. */
  lemma StickerMoves(c: Ctx, anchor: Point, rotation: int)
    ensures Run(c, [Translate(anchor.x, anchor.y), Rotate(rotation)])
         == Outcome(c.(gfx := c.gfx.(transform := c.gfx.transform + [Translation(anchor.x, anchor.y), Rotation(rotation)])), [])
  {
    RunPair(c, Translate(anchor.x, anchor.y), Rotate(rotation));
    assert c.gfx.transform + [Translation(anchor.x, anchor.y)] + [Rotation(rotation)]
        == c.gfx.transform + [Translation(anchor.x, anchor.y), Rotation(rotation)];
  }

  /** A sticker's glyph, written at the origin, and the restore of the state
      saved last. */
  lemma StickerGlyph(c: Ctx, sticker: string)
    requires c.stack != []
    ensures Run(c, [FillText(sticker, 0, 0), Restore])
         == Outcome(c.(gfx := c.stack[|c.stack| - 1], stack := c.stack[..|c.stack| - 1]),
                    [Text(sticker, Point(0, 0), c.gfx.transform)])
  {
    assert Step(c, FillText(sticker, 0, 0)) == Outcome(c, [Text(sticker, Point(0, 0), c.gfx.transform)]);
    RunPair(c, FillText(sticker, 0, 0), Restore);
  }

  /** A sticker's display saves the state, moves and turns the origin, writes
      its glyph there and restores the state it saved. */
  lemma StickerInk(c: Ctx, anchor: Point, sticker: string, rotation: int)
    ensures Run(c, Commands(Sticker(anchor, sticker, rotation))).marks == Ink(Sticker(anchor, sticker, rotation), c.gfx.transform)
    ensures Run(c, Commands(Sticker(anchor, sticker, rotation))).ctx == c
  {
    var c1 := c.(stack := c.stack + [c.gfx]);
    var moves := [Translate(anchor.x, anchor.y), Rotate(rotation)];
    var glyph := [FillText(sticker, 0, 0), Restore];
    RunOne(c, Save);
    StickerMoves(c1, anchor, rotation);
    RunAppend(c, [Save], moves);
    var c3 := Run(c1, moves).ctx;
    StickerGlyph(c3, sticker);
    assert c3.stack[..|c3.stack| - 1] == c.stack;
    RunAppend(c, [Save] + moves, glyph);
  }

  /** Displaying an object draws exactly its `Ink` under the transform in force,
      and leaves the transform and the saved states as they were: nothing an
      object does to the coordinate system outlives its own display. */
  lemma DisplayInk(c: Ctx, d: Drawable)
    ensures Run(c, Commands(d)).marks == Ink(d, c.gfx.transform)
    ensures Run(c, Commands(d)).ctx.gfx.transform == c.gfx.transform
    ensures Run(c, Commands(d)).ctx.stack == c.stack
  {
    match d
    case Marker(points, thickness, color) => MarkerInk(c, points, thickness, color);
    case Sticker(anchor, sticker, rotation) => StickerInk(c, anchor, sticker, rotation);
  }

  /** The commands of a list of objects displayed in order. */
  function Render(ds: seq<Drawable>): seq<Command>
    decreases |ds|
  {
    if ds == [] then [] else Render(ds[..|ds| - 1]) + Commands(ds[|ds| - 1])
  }

  /** The marks of a list of objects, each under the same transform `t`. */
  function InkAll(ds: seq<Drawable>, t: seq<Transform>): seq<Mark>
    decreases |ds|
  {
    if ds == [] then [] else InkAll(ds[..|ds| - 1], t) + Ink(ds[|ds| - 1], t)
  }

  /** Rendering a list draws every object as it would be drawn alone under the
      starting transform, in list order, and hands the context back with that
      transform and those saved states: no stamp's rotation leaks onto a later
      object. */
  lemma {:induction false} RenderInk(c: Ctx, ds: seq<Drawable>)
    ensures Run(c, Render(ds)).marks == InkAll(ds, c.gfx.transform)
    ensures Run(c, Render(ds)).ctx.gfx.transform == c.gfx.transform
    ensures Run(c, Render(ds)).ctx.stack == c.stack
    decreases |ds|
  {
    if ds != [] {
      var init := ds[..|ds| - 1];
      RenderInk(c, init);
      var mid := Run(c, Render(init)).ctx;
      RunAppend(c, Render(init), Commands(ds[|ds| - 1]));
      DisplayInk(mid, ds[|ds| - 1]);
    }
  }

  /** The same marks with `s` applied before each one's own transform. */
  function Under(m: Mark, s: seq<Transform>): Mark
  {
    match m
    case Cleared(x, y, w, h, t) => Cleared(x, y, w, h, s + t)
    case Stroked(path, width, color, t) => Stroked(UnderPath(path, s), width, color, s + t)
    case Text(text, at, t) => Text(text, at, s + t)
  }

  function UnderPath(path: seq<seq<Vertex>>, s: seq<Transform>): (r: seq<seq<Vertex>>)
    ensures |r| == |path|
    ensures forall i :: 0 <= i < |path| ==> |r[i]| == |path[i]|
    ensures forall i, j :: 0 <= i < |path| && 0 <= j < |path[i]| ==>
              r[i][j] == Vertex(path[i][j].at, s + path[i][j].transform)
    decreases |path|
  {
    if path == [] then []
    else UnderPath(path[..|path| - 1], s) + [seq(|path[|path| - 1]|, j requires 0 <= j < |path[|path| - 1]| =>
                                                 Vertex(path[|path| - 1][j].at, s + path[|path| - 1][j].transform))]
  }

  function UnderAll(ms: seq<Mark>, s: seq<Transform>): (r: seq<Mark>)
    ensures |r| == |ms|
    ensures forall i :: 0 <= i < |ms| ==> r[i] == Under(ms[i], s)
    decreases |ms|
  {
    if ms == [] then [] else UnderAll(ms[..|ms| - 1], s) + [Under(ms[|ms| - 1], s)]
  }

  lemma UnderTrail(ps: seq<Point>, s: seq<Transform>, t: seq<Transform>)
    ensures UnderPath([Trail(ps, t)], s) == [Trail(ps, s + t)]
  {
    var path := [Trail(ps, t)];
    var r := UnderPath(path, s);
    assert |r| == 1 && |r[0]| == |ps|;
    forall j | 0 <= j < |ps|
      ensures r[0][j] == Trail(ps, s + t)[j]
    {
      assert path[0][j] == Vertex(ps[j], t);
      assert r[0][j] == Vertex(path[0][j].at, s + path[0][j].transform);
    }
    assert r[0] == Trail(ps, s + t);
    assert r == [r[0]];
  }

  /** One object drawn under `s + t` is the object drawn under `t`, moved by `s`. */
  lemma InkUnder(d: Drawable, s: seq<Transform>, t: seq<Transform>)
    ensures Ink(d, s + t) == UnderAll(Ink(d, t), s)
  {
    match d
    case Marker(points, thickness, color) =>
      var m := Stroked([Trail([points[0]] + points, t)], thickness, color, t);
      assert UnderAll([m], s) == [Under(m, s)];
      UnderTrail([points[0]] + points, s, t);
    case Sticker(anchor, sticker, rotation) =>
      var m := Text(sticker, Point(0, 0), t + [Translation(anchor.x, anchor.y), Rotation(rotation)]);
      assert UnderAll([m], s) == [Under(m, s)];
      assert (s + t) + [Translation(anchor.x, anchor.y), Rotation(rotation)]
          == s + (t + [Translation(anchor.x, anchor.y), Rotation(rotation)]);
  }

  /** Moving two runs of marks is moving each. */
  lemma UnderAllAppend(a: seq<Mark>, b: seq<Mark>, s: seq<Transform>)
    ensures UnderAll(a + b, s) == UnderAll(a, s) + UnderAll(b, s)
  {
    var l := UnderAll(a + b, s);
    var r := UnderAll(a, s) + UnderAll(b, s);
    assert |l| == |r|;
    forall i | 0 <= i < |l|
      ensures l[i] == r[i]
    {
      if i < |a| {
        assert (a + b)[i] == a[i];
      } else {
        assert (a + b)[i] == b[i - |a|];
      }
    }
  }

  /** Drawing under `s + t` is drawing under `t` and then applying `s`: the same
      picture, moved as a whole by `s`. */
  lemma {:induction false} InkAllUnder(ds: seq<Drawable>, s: seq<Transform>, t: seq<Transform>)
    ensures InkAll(ds, s + t) == UnderAll(InkAll(ds, t), s)
    decreases |ds|
  {
    if ds != [] {
      var init := ds[..|ds| - 1];
      var d := ds[|ds| - 1];
      InkAllUnder(init, s, t);
      InkUnder(d, s, t);
      UnderAllAppend(InkAll(init, t), Ink(d, t), s);
    }
  }

  /** A draw object: a reference, so the handlers can keep an alias to the
      object they have just added to the committed list and keep dragging it. */
  class DrawObject {
    var value: Drawable

    /** A marker stroke begun at (x, y). */
    constructor CreateMarker(x: int, y: int, thickness: int, color: string)
      ensures value == Marker([Point(x, y)], thickness, color)
    {
      value := Marker([Point(x, y)], thickness, color);
    }

    /** A sticker stamp placed at (x, y). */
    constructor CreateSticker(x: int, y: int, sticker: string, rotation: int)
      ensures value == Sticker(Point(x, y), sticker, rotation)
    {
      value := Sticker(Point(x, y), sticker, rotation);
    }

    method Drag(x: int, y: int)
      modifies this
      ensures value == old(value).Dragged(x, y)
    {
      match value
      case Marker(points, thickness, color) =>
        value := Marker(points + [Point(x, y)], thickness, color);
      case Sticker(_, _, _) =>
    }

    /** The commands the object issues to the context it is given. */
    method Display() returns (cmds: seq<Command>)
      ensures cmds == Commands(value)
    {
      match value
      case Marker(points, thickness, color) =>
        var head := [SetLineWidth(thickness), SetStrokeStyle(color)] + [BeginPath, MoveTo(points[0].x, points[0].y)];
        cmds := head;
        var i := 0;
        while i < |points|
          invariant 0 <= i <= |points|
          invariant cmds == head + LineTos(points[..i])
        {
          assert points[..i + 1][..i] == points[..i];
          cmds := cmds + [LineTo(points[i].x, points[i].y)];
          i := i + 1;
        }
        assert points[..i] == points;
        cmds := cmds + [Stroke];
      case Sticker(anchor, sticker, rotation) =>
        cmds := [Save] + [Translate(anchor.x, anchor.y), Rotate(rotation)] + [FillText(sticker, 0, 0), Restore];
    }
  }

  /** The current values of a list of objects. */
  function Values(objs: seq<DrawObject>): (ds: seq<Drawable>)
    reads objs
    ensures |ds| == |objs|
    decreases |objs|
  {
    if objs == [] then [] else Values(objs[..|objs| - 1]) + [objs[|objs| - 1].value]
  }

  /** The value at each position is the value of the object there. */
  lemma {:induction false} ValuesAt(objs: seq<DrawObject>, i: nat)
    requires i < |objs|
    ensures Values(objs)[i] == objs[i].value
    decreases |objs|
  {
    if i < |objs| - 1 {
      ValuesAt(objs[..|objs| - 1], i);
    }
  }

  lemma RenderSnoc(ds: seq<Drawable>, i: nat)
    requires i < |ds|
    ensures Render(ds[..i + 1]) == Render(ds[..i]) + Commands(ds[i])
  {
    assert ds[..i + 1][..i] == ds[..i];
  }

  /** Displays every object of `objs` in order, as `lines.forEach(display)` does. */
  method DisplayAll(objs: seq<DrawObject>) returns (cmds: seq<Command>)
    ensures cmds == Render(Values(objs))
  {
    ghost var ds := Values(objs);
    cmds := [];
    var i := 0;
    while i < |objs|
      invariant 0 <= i <= |objs|
      invariant cmds == Render(ds[..i])
    {
      var c := objs[i].Display();
      ValuesAt(objs, i);
      RenderSnoc(ds, i);
      cmds := cmds + c;
      i := i + 1;
    }
    assert ds[..i] == ds;
  }
}
