/** A stand-in for the browser's 2D drawing context: the commands the sketchpad
    issues to it, and a small interpreter saying what a command list leaves on
    the surface. Only the state the sketchpad relies on is kept: the transform,
    the save/restore stack, the line width, the stroke colour and the current
    path. Coordinates and angles are integers; rotation stays an opaque number
    of degrees (no trigonometry is modelled). */
module Canvas {

  datatype Point = Point(x: int, y: int)

  /** One change of coordinate system, in the order the context applies them. */
  datatype Transform =
    | Scaling(sx: int, sy: int)
    | Translation(dx: int, dy: int)
    | Rotation(degrees: int)

  /** The context calls the sketchpad makes. */
  datatype Command =
    | ClearRect(x: int, y: int, width: int, height: int)
    | Scale(sx: int, sy: int)
    | Translate(dx: int, dy: int)
    | Rotate(degrees: int)
    | Save
    | Restore
    | SetLineWidth(width: int)
    | SetStrokeStyle(color: string)
    | BeginPath
    | MoveTo(x: int, y: int)
    | LineTo(x: int, y: int)
    | Stroke
    | FillText(text: string, x: int, y: int)

  /** A path vertex, with the transform that was in force when it was added. */
  datatype Vertex = Vertex(at: Point, transform: seq<Transform>)

  /** What a command leaves on the surface. */
  datatype Mark =
    | Cleared(x: int, y: int, width: int, height: int, transform: seq<Transform>)
    | Stroked(path: seq<seq<Vertex>>, lineWidth: int, color: string, transform: seq<Transform>)
    | Text(text: string, at: Point, transform: seq<Transform>)

  /** The part of the drawing state that `save` and `restore` keep. */
  datatype Gfx = Gfx(transform: seq<Transform>, lineWidth: int, strokeStyle: string)

  /** The whole context: drawing state, saved states (top last) and the current path as subpaths. */
  datatype Ctx = Ctx(gfx: Gfx, stack: seq<Gfx>, path: seq<seq<Vertex>>)

  datatype Outcome = Outcome(ctx: Ctx, marks: seq<Mark>)

  /** A context as a new canvas hands it out: no transform, width 1, black. */
  const Fresh: Ctx := Ctx(Gfx([], 1, "#000000"), [], [])

  function Transformed(c: Ctx, t: Transform): Ctx
  {
    c.(gfx := c.gfx.(transform := c.gfx.transform + [t]))
  }

  /** The effect of one command. `restore` with nothing saved does nothing;
      `lineTo` with no subpath starts one. */
  function Step(c: Ctx, cmd: Command): Outcome
  {
    match cmd
    case ClearRect(x, y, w, h) => Outcome(c, [Cleared(x, y, w, h, c.gfx.transform)])
    case Scale(sx, sy) => Outcome(Transformed(c, Scaling(sx, sy)), [])
    case Translate(dx, dy) => Outcome(Transformed(c, Translation(dx, dy)), [])
    case Rotate(deg) => Outcome(Transformed(c, Rotation(deg)), [])
    case Save => Outcome(c.(stack := c.stack + [c.gfx]), [])
    case Restore =>
      if c.stack == [] then Outcome(c, [])
      else Outcome(c.(gfx := c.stack[|c.stack| - 1], stack := c.stack[..|c.stack| - 1]), [])
    case SetLineWidth(w) => Outcome(c.(gfx := c.gfx.(lineWidth := w)), [])
    case SetStrokeStyle(s) => Outcome(c.(gfx := c.gfx.(strokeStyle := s)), [])
    case BeginPath => Outcome(c.(path := []), [])
    case MoveTo(x, y) => Outcome(c.(path := c.path + [[Vertex(Point(x, y), c.gfx.transform)]]), [])
    case LineTo(x, y) =>
      var v := Vertex(Point(x, y), c.gfx.transform);
      if c.path == [] then Outcome(c.(path := [[v]]), [])
      else Outcome(c.(path := c.path[..|c.path| - 1] + [c.path[|c.path| - 1] + [v]]), [])
    case Stroke => Outcome(c, [Stroked(c.path, c.gfx.lineWidth, c.gfx.strokeStyle, c.gfx.transform)])
    case FillText(s, x, y) => Outcome(c, [Text(s, Point(x, y), c.gfx.transform)])
  }

  /** The effect of a command list, run from the front. */
  function Run(c: Ctx, cmds: seq<Command>): Outcome
    decreases |cmds|
  {
    if cmds == [] then Outcome(c, [])
    else
      var first := Step(c, cmds[0]);
      var rest := Run(first.ctx, cmds[1..]);
      Outcome(rest.ctx, first.marks + rest.marks)
  }

  /** Running two lists one after the other is running their concatenation. */
  lemma {:induction false} RunAppend(c: Ctx, a: seq<Command>, b: seq<Command>)
    ensures Run(c, a + b).ctx == Run(Run(c, a).ctx, b).ctx
    ensures Run(c, a + b).marks == Run(c, a).marks + Run(Run(c, a).ctx, b).marks
    decreases |a|
  {
    if a == [] {
      assert a + b == b;
    } else {
      assert (a + b)[0] == a[0];
      assert (a + b)[1..] == a[1..] + b;
      RunAppend(Step(c, a[0]).ctx, a[1..], b);
    }
  }

  /** A one-command list does what the command does. */
  lemma RunOne(c: Ctx, cmd: Command)
    ensures Run(c, [cmd]) == Step(c, cmd)
  {
  }

  /** Running a list is running its first command and then the rest. */
  lemma RunCons(c: Ctx, cmd: Command, rest: seq<Command>)
    ensures Run(c, [cmd] + rest)
         == Outcome(Run(Step(c, cmd).ctx, rest).ctx, Step(c, cmd).marks + Run(Step(c, cmd).ctx, rest).marks)
  {
  }

  /** A two-command list does what its commands do, one after the other. */
  lemma RunPair(c: Ctx, a: Command, b: Command)
    ensures Run(c, [a, b])
         == Outcome(Step(Step(c, a).ctx, b).ctx, Step(c, a).marks + Step(Step(c, a).ctx, b).marks)
  {
    RunCons(c, a, [b]);
    RunOne(Step(c, a).ctx, b);
    assert [a, b] == [a] + [b];
  }
}
