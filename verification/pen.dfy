/** The pen of `startDraw`: the `mousedown` handler and the `move`/`up`
    closures, as transition functions over an explicit state record. Each
    handler returns the next state and the canvas commands it issues. */
module Pen {
  import opened Render

  /** The instance fields the handlers read and write: the drawing flag and
      the last pointer position. */
  datatype State = State(canDraw: bool, x: int, y: int)

  /** The events the pen listens to. `KeyDown` is the keyboard listener that
      is meant to undo. */
  datatype Event = Press(at: Point) | Move(at: Point) | Release | KeyDown(ctrlKey: bool, code: string)

  /** What handling events produces: the new state and the commands issued. */
  datatype Step = Step(state: State, cmds: seq<Command>)

  /** Before any event `canDraw` is undefined (falsy) and the position is
      undefined; it is never read before a press sets it, so 0 stands in. */
  const Initial := State(false, 0, 0)

  /** The two-state view of the pen. */
  datatype Phase = Idle | Drawing

  function PhaseOf(s: State): Phase {
    if s.canDraw then Drawing else Idle
  }

  function Cursor(s: State): Point {
    Point(s.x, s.y)
  }

  /** The abstract transition table: press always draws, release always
      stops, every other event keeps the phase. */
  function Next(ph: Phase, e: Event): Phase {
    match e
    case Press(_) => Drawing
    case Release => Idle
    case _ => ph
  }

  /** `mousedown`: no guard, so a press while drawing restarts the path. */
  function OnPress(s: State, p: Point): (r: Step)
    ensures PhaseOf(r.state) == Drawing && Cursor(r.state) == p
    ensures r.cmds == [BeginPath, MoveTo(p)]
  {
    Step(State(true, p.x, p.y), [BeginPath, MoveTo(p)])
  }

  /** The `move` closure: draws a segment only while `canDraw` is set. */
  function OnMove(s: State, p: Point): (r: Step)
    ensures PhaseOf(r.state) == PhaseOf(s)
    ensures s.canDraw ==> Cursor(r.state) == p && r.cmds == [LineTo(p), Stroke]
    ensures !s.canDraw ==> r == Step(s, [])
  {
    if s.canDraw then Step(s.(x := p.x, y := p.y), [LineTo(p), Stroke])
    else Step(s, [])
  }

  /** The `up` closure: clears `canDraw` whatever the state. */
  function OnRelease(s: State): (r: Step)
    ensures PhaseOf(r.state) == Idle && Cursor(r.state) == Cursor(s) && r.cmds == []
  {
    Step(s.(canDraw := false), [])
  }

  /** The key combination the `keydown` listener reacts to. */
  predicate IsUndoShortcut(ctrlKey: bool, code: string) {
    ctrlKey && code == "KeyZ"
  }

  /** The `keydown` listener: on the undo shortcut it only writes a console
      message, which is not a canvas command, and it never touches the pen. */
  function OnKeyDown(s: State, ctrlKey: bool, code: string): (r: Step)
    ensures r.state == s && r.cmds == []
  {
    Step(s, [])
  }

  /** Dispatch one event to its handler. The result follows the two-phase
      table, and an idle pen is left as it was by anything but a press. */
  function Handle(s: State, e: Event): (r: Step)
    ensures PhaseOf(r.state) == Next(PhaseOf(s), e)
    ensures PhaseOf(s) == Idle && !e.Press? ==> r == Step(s, [])
  {
    match e
    case Press(p) => OnPress(s, p)
    case Move(p) => OnMove(s, p)
    case Release => OnRelease(s)
    case KeyDown(ctrl, code) => OnKeyDown(s, ctrl, code)
  }

  /** Events delivered one at a time, in order; the commands concatenate. */
  function Run(s: State, events: seq<Event>): (r: Step)
    ensures !s.canDraw && (forall i :: 0 <= i < |events| ==> !events[i].Press?) ==> r == Step(s, [])
    decreases |events|
  {
    if events == [] then Step(s, [])
    else
      var first := Handle(s, events[0]);
      var rest := Run(first.state, events[1..]);
      Step(rest.state, first.cmds + rest.cmds)
  }

  /** One move event per point, in order. */
  function Moves(ps: seq<Point>): (r: seq<Event>)
    ensures |r| == |ps| && forall i :: 0 <= i < |ps| ==> r[i] == Move(ps[i])
    decreases |ps|
  {
    if ps == [] then [] else [Move(ps[0])] + Moves(ps[1..])
  }

  /** The commands a drawing pen issues for a run of moves. */
  function Segments(ps: seq<Point>): seq<Command>
    decreases |ps|
  {
    if ps == [] then [] else [LineTo(ps[0]), Stroke] + Segments(ps[1..])
  }

  /** Where a gesture that starts at `p0` and moves through `ps` ends. */
  function LastOf(p0: Point, ps: seq<Point>): Point {
    if ps == [] then p0 else ps[|ps| - 1]
  }

  /** Release is idempotent and changes nothing but the drawing flag. */
  lemma ReleaseIdempotent(s: State)
    ensures OnRelease(s).state == s.(canDraw := false)
    ensures OnRelease(OnRelease(s).state) == OnRelease(s)
  {
  }

  /** Undo is not implemented: the shortcut leaves the pen, and so the
      drawing, exactly as it was, even in the middle of a stroke. */
  lemma UndoShortcutIsInert(s: State, c: Canvas, ctrlKey: bool, code: string)
    requires IsUndoShortcut(ctrlKey, code)
    ensures Handle(s, KeyDown(ctrlKey, code)).state == s
    ensures ExecAll(c, Handle(s, KeyDown(ctrlKey, code)).cmds) == c
  {
  }

  /** Running two event lists one after the other is running their
      concatenation. */
  lemma {:induction false} RunAppend(s: State, a: seq<Event>, b: seq<Event>)
    ensures Run(s, a + b).state == Run(Run(s, a).state, b).state
    ensures Run(s, a + b).cmds == Run(s, a).cmds + Run(Run(s, a).state, b).cmds
    decreases |a|
  {
    if a == [] {
      assert a + b == b;
    } else {
      assert (a + b)[0] == a[0];
      assert (a + b)[1..] == a[1..] + b;
      RunAppend(Handle(s, a[0]).state, a[1..], b);
    }
  }

  /** A drawing pen draws one segment per move and ends at the last point. */
  lemma {:induction false} MovesWhileDrawing(s: State, ps: seq<Point>)
    requires s.canDraw
    ensures Run(s, Moves(ps)).cmds == Segments(ps)
    ensures Run(s, Moves(ps)).state == State(true, LastOf(Cursor(s), ps).x, LastOf(Cursor(s), ps).y)
    decreases |ps|
  {
    if ps != [] {
      var m := Moves(ps);
      assert m[0] == Move(ps[0]);
      assert m[1..] == Moves(ps[1..]);
      var s1 := OnMove(s, ps[0]).state;
      MovesWhileDrawing(s1, ps[1..]);
      if |ps| > 1 {
        assert ps[1..][|ps[1..]| - 1] == ps[|ps| - 1];
      }
    }
  }

  /** A complete gesture from any state: press at `p0`, moves through `ps`,
      release, then further moves `qs`. The trace is a fresh path at `p0`
      followed by one segment and stroke per move, and nothing after the
      release. */
  lemma GestureTrace(s: State, p0: Point, ps: seq<Point>, qs: seq<Point>)
    ensures Run(s, [Press(p0)] + Moves(ps) + [Release] + Moves(qs)).cmds
            == [BeginPath, MoveTo(p0)] + Segments(ps)
    ensures Run(s, [Press(p0)] + Moves(ps) + [Release] + Moves(qs)).state
            == State(false, LastOf(p0, ps).x, LastOf(p0, ps).y)
  {
    var s1 := OnPress(s, p0).state;
    MovesWhileDrawing(s1, ps);
    var s2 := Run(s1, Moves(ps)).state;
    var s3 := OnRelease(s2).state;
    var rel := Run(s2, [Release]);
    assert rel == Step(s3, []);
    var idle := Run(s3, Moves(qs));
    assert idle == Step(s3, []);
    RunAppend(s, [Press(p0)], Moves(ps));
    RunAppend(s, [Press(p0)] + Moves(ps), [Release]);
    RunAppend(s, [Press(p0)] + Moves(ps) + [Release], Moves(qs));
  }

  /** The pen and the canvas agree: while drawing, the current path ends at
      the pen's position, so the next move's segment starts there. */
  predicate Coupled(s: State, c: Canvas) {
    s.canDraw ==> EndsAt(c.path, Cursor(s))
  }

  /** Every handler keeps the pen and the canvas coupled; a move while
      drawing extends the last subpath by exactly its point, so the segment
      runs from the previous position to the new one. */
  lemma HandleKeepsCoupled(s: State, e: Event, c: Canvas)
    requires Coupled(s, c)
    ensures Coupled(Handle(s, e).state, ExecAll(c, Handle(s, e).cmds))
    ensures e.Move? && s.canDraw ==>
              var c' := ExecAll(c, Handle(s, e).cmds);
              && |c'.path| == |c.path|
              && c'.path[..|c.path| - 1] == c.path[..|c.path| - 1]
              && c'.path[|c.path| - 1] == c.path[|c.path| - 1] + [e.at]
              && c'.painted == c.painted + [c'.path]
  {
    var cmds := Handle(s, e).cmds;
    match e
    case Press(p) =>
      ExecAllAppend(c, [BeginPath], [MoveTo(p)]);
    case Move(p) =>
      if s.canDraw {
        ExecAllAppend(c, [LineTo(p)], [Stroke]);
      }
    case Release =>
    case KeyDown(_, _) =>
  }

  /** The coupling holds along any event sequence. */
  lemma {:induction false} RunKeepsCoupled(s: State, events: seq<Event>, c: Canvas)
    requires Coupled(s, c)
    ensures Coupled(Run(s, events).state, ExecAll(c, Run(s, events).cmds))
    decreases |events|
  {
    if events != [] {
      var first := Handle(s, events[0]);
      HandleKeepsCoupled(s, events[0], c);
      var c1 := ExecAll(c, first.cmds);
      RunKeepsCoupled(first.state, events[1..], c1);
      ExecAllAppend(c, first.cmds, Run(first.state, events[1..]).cmds);
    }
  }

  /** From the pen's initial state and a blank canvas: events without a
      press draw nothing, and along any events the pen and canvas stay
      coupled, so the placeholder position 0 is never drawn from. */
  lemma FromInitial(events: seq<Event>)
    ensures (forall i :: 0 <= i < |events| ==> !events[i].Press?) ==> Run(Initial, events) == Step(Initial, [])
    ensures Coupled(Run(Initial, events).state, ExecAll(Blank, Run(Initial, events).cmds))
  {
    RunKeepsCoupled(Initial, events, Blank);
  }

  /** What a gesture paints: the current path becomes the single polyline
      `p0, ps...`, and each move strokes the polyline drawn so far. */
  lemma GesturePaints(c: Canvas, s: State, p0: Point, ps: seq<Point>, qs: seq<Point>)
    ensures ExecAll(c, Run(s, [Press(p0)] + Moves(ps) + [Release] + Moves(qs)).cmds)
            == Canvas([[p0] + ps], c.painted + Painting([], [p0], ps))
  {
    GestureTrace(s, p0, ps, qs);
    ExecAllAppend(c, [BeginPath, MoveTo(p0)], Segments(ps));
    ExecAllAppend(c, [BeginPath], [MoveTo(p0)]);
    var c1 := ExecAll(c, [BeginPath, MoveTo(p0)]);
    assert c1 == Canvas([[p0]], c.painted);
    SegmentsExtend(c1, ps);
    assert [] + [[p0] + ps] == [[p0] + ps];
  }

  /** Polylines stroked by a run of segments: the last subpath grown by one
      more point each time. */
  function Painting(init: Path, last: Subpath, ps: seq<Point>): (r: seq<Path>)
    ensures |r| == |ps|
  {
    seq(|ps|, i requires 0 <= i < |ps| => init + [last + ps[..i + 1]])
  }

  /** One segment: `lineTo(p)` then `stroke()` extends the last subpath by
      `p` and paints the result. */
  lemma SegmentStep(c: Canvas, p: Point)
    requires c.path != []
    ensures ExecAll(c, [LineTo(p), Stroke]) == Canvas(
              c.path[..|c.path| - 1] + [c.path[|c.path| - 1] + [p]],
              c.painted + [c.path[..|c.path| - 1] + [c.path[|c.path| - 1] + [p]]])
  {
    ExecAllAppend(c, [LineTo(p)], [Stroke]);
  }

  /** The paintings of a run of points: the first, then those of the rest
      from the grown subpath. */
  lemma PaintingCons(init: Path, last: Subpath, ps: seq<Point>)
    requires ps != []
    ensures Painting(init, last, ps) == [init + [last + [ps[0]]]] + Painting(init, last + [ps[0]], ps[1..])
  {
    var tail := Painting(init, last + [ps[0]], ps[1..]);
    forall i | 0 <= i < |ps[1..]|
      ensures tail[i] == Painting(init, last, ps)[i + 1]
    {
      assert (last + [ps[0]]) + ps[1..][..i + 1] == last + ps[..i + 2];
    }
    assert ps[..1] == [ps[0]];
  }

  /** Executing the segments of `ps` on a non-empty path extends its last
      subpath by `ps`, stroking once per point. */
  lemma {:induction false} SegmentsExtend(c: Canvas, ps: seq<Point>)
    requires c.path != []
    ensures ExecAll(c, Segments(ps)) == Canvas(
              c.path[..|c.path| - 1] + [c.path[|c.path| - 1] + ps],
              c.painted + Painting(c.path[..|c.path| - 1], c.path[|c.path| - 1], ps))
    decreases |ps|
  {
    var init := c.path[..|c.path| - 1];
    var last := c.path[|c.path| - 1];
    if ps == [] {
      assert last + ps == last;
      assert c.path == init + [last];
    } else {
      var p := ps[0];
      ExecAllAppend(c, [LineTo(p), Stroke], Segments(ps[1..]));
      SegmentStep(c, p);
      var c1 := ExecAll(c, [LineTo(p), Stroke]);
      SegmentsExtend(c1, ps[1..]);
      assert (init + [last + [p]])[..|c1.path| - 1] == init;
      assert last + [p] + ps[1..] == last + ps;
      PaintingCons(init, last, ps);
    }
  }
}
