/** The canvas rendering calls made by the pen, recorded as commands, and the
    effect those commands have on the 2D context's current path, after the
    path operations of the HTML Living Standard's canvas 2D context
    (beginPath, moveTo, lineTo, stroke). The path is kept in logical
    coordinates: the standard maps each point through the current transform
    (the `scale` set by `init`) before adding it, which `Sizing` states
    separately. */
module Render {

  /** A point in the canvas' logical coordinate space (`layerX`, `layerY`). */
  datatype Point = Point(x: int, y: int)

  /** One call on the 2D context. */
  datatype Command = BeginPath | MoveTo(p: Point) | LineTo(p: Point) | Stroke

  /** A path is a list of subpaths; a subpath is a polyline. */
  type Subpath = seq<Point>
  type Path = seq<Subpath>

  /** The part of a 2D context the pen touches: its current path, and the
      paths painted so far by `stroke()`, oldest first. */
  datatype Canvas = Canvas(path: Path, painted: seq<Path>)

  const Blank := Canvas([], [])

  /** The path's last subpath ends at `p`: the point the next `lineTo` starts
      its segment from. */
  predicate EndsAt(path: Path, p: Point) {
    && path != []
    && path[|path| - 1] != []
    && path[|path| - 1][|path[|path| - 1]| - 1] == p
  }

  /** The effect of one command. `lineTo` on a path without subpaths only
      opens a subpath at its point; otherwise it extends the last subpath. */
  function Exec(c: Canvas, cmd: Command): (r: Canvas)
    ensures cmd.BeginPath? ==> r.path == []
    ensures cmd.Stroke? ==> r.path == c.path && r.painted == c.painted + [c.path]
    ensures !cmd.Stroke? ==> r.painted == c.painted
    ensures cmd.MoveTo? ==> r.path == c.path + [[cmd.p]]
    ensures cmd.LineTo? && c.path == [] ==> r.path == [[cmd.p]]
    ensures cmd.LineTo? && c.path != [] ==>
              |r.path| == |c.path| && r.path[..|c.path| - 1] == c.path[..|c.path| - 1]
              && r.path[|r.path| - 1] == c.path[|c.path| - 1] + [cmd.p]
    ensures cmd.MoveTo? || cmd.LineTo? ==> EndsAt(r.path, cmd.p)
  {
    match cmd
    case BeginPath => c.(path := [])
    case MoveTo(p) => c.(path := c.path + [[p]])
    case LineTo(p) =>
      if c.path == [] then c.(path := [[p]])
      else c.(path := c.path[..|c.path| - 1] + [c.path[|c.path| - 1] + [p]])
    case Stroke => c.(painted := c.painted + [c.path])
  }

  /** The effect of a command list, executed front to back. */
  function ExecAll(c: Canvas, cmds: seq<Command>): (r: Canvas)
    ensures |r.painted| == |c.painted| + StrokeCount(cmds)
    ensures r.painted[..|c.painted|] == c.painted
    decreases |cmds|
  {
    if cmds == [] then c else ExecAll(Exec(c, cmds[0]), cmds[1..])
  }

  /** How many `stroke()` calls a command list holds. */
  function StrokeCount(cmds: seq<Command>): nat
    decreases |cmds|
  {
    if cmds == [] then 0
    else (if cmds[0].Stroke? then 1 else 0) + StrokeCount(cmds[1..])
  }

  /** Executing two command lists one after the other is executing their
      concatenation. */
  lemma {:induction false} ExecAllAppend(c: Canvas, a: seq<Command>, b: seq<Command>)
    ensures ExecAll(c, a + b) == ExecAll(ExecAll(c, a), b)
    decreases |a|
  {
    if a == [] {
      assert a + b == b;
    } else {
      assert (a + b)[0] == a[0];
      assert (a + b)[1..] == a[1..] + b;
      ExecAllAppend(Exec(c, a[0]), a[1..], b);
    }
  }
}
