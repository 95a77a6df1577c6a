/** The drawing back end the grid needs, reduced to what it observes: points, the two paints,
    paths built from contours, and a canvas that records what it is asked to do. The Android
    Canvas, Paint and Path objects stand behind these; nothing here rasterises anything. */
module Graphics {

  datatype Option<T> = None | Some(value: T)

  datatype Point = Point(x: real, y: real)

  /** The two colours the dotted divider paint is switched between: the ordinary divider
      colour (resource stock_dotted_column_line) and the axis colour (stock_dotted_row_line). */
  datatype Colour = Ordinary | Axis

  /** linePaint draws solid strokes in the border colour; dottedLinePaint draws dashed strokes
      in whatever colour it was last given. */
  datatype Paint = Solid | Dotted(colour: Colour)

  /** One contour of a path: its points in order, and whether close() was called on it. */
  datatype Contour = Contour(points: seq<Point>, closed: bool)

  /** A path is its contours in the order they were started; reset() makes it empty. */
  type Path = seq<Contour>

  /** moveTo: starts a new contour at p; the contours already in the path stay. */
  function MoveTo(path: Path, p: Point): Path
  {
    path + [Contour([p], false)]
  }

  /** lineTo: extends the last contour to p. On an empty path the line starts at the origin,
      after close() it starts a new contour at the closed contour's first point. */
  function LineTo(path: Path, p: Point): Path
  {
    if path == [] then
      [Contour([Point(0.0, 0.0), p], false)]
    else
      var last := path[|path| - 1];
      if last.closed then
        var start := if last.points == [] then Point(0.0, 0.0) else last.points[0];
        path + [Contour([start, p], false)]
      else
        path[..|path| - 1] + [Contour(last.points + [p], false)]
  }

  /** close: marks the last contour closed. */
  function Close(path: Path): Path
  {
    if path == [] then [] else path[..|path| - 1] + [path[|path| - 1].(closed := true)]
  }

  /** Extending an open last contour adds the point to it and leaves the rest of the path. */
  lemma LineToOpen(path: Path, points: seq<Point>, p: Point)
    ensures LineTo(path + [Contour(points, false)], p) == path + [Contour(points + [p], false)]
  {
    var q := path + [Contour(points, false)];
    assert q[..|q| - 1] == path;
  }

  /** Closing marks the last contour closed and leaves the rest of the path. */
  lemma CloseLast(path: Path, points: seq<Point>)
    ensures Close(path + [Contour(points, false)]) == path + [Contour(points, true)]
  {
    var q := path + [Contour(points, false)];
    assert q[..|q| - 1] == path;
  }

  /** What the canvas is asked to do, in order. TimeTextHook and ChildHook mark the points where
      the view hands the canvas to its extension hooks. */
  datatype DrawEvent =
    | Save
    | Translate(dx: real, dy: real)
    | Restore
    | DrawPath(path: Path, paint: Paint)
    | TimeTextHook
    | ChildHook

  /** The part of a canvas that save, translate and restore change: the current translation
      of the origin and the stack of saved translations. */
  datatype Transform = Transform(origin: Point, saved: seq<Point>)

  /** The effect of one event on the transform; None is the underflow of a restore with
      nothing saved, which the canvas reports as an error. */
  function Step(t: Transform, e: DrawEvent): Option<Transform>
  {
    match e
    case Save => Some(Transform(t.origin, t.saved + [t.origin]))
    case Translate(dx, dy) => Some(Transform(Point(t.origin.x + dx, t.origin.y + dy), t.saved))
    case Restore =>
      if t.saved == [] then None
      else Some(Transform(t.saved[|t.saved| - 1], t.saved[..|t.saved| - 1]))
    case _ => Some(t)
  }

  /** The transform after a whole sequence of events, or None once a restore underflows. */
  function Replay(t: Transform, es: seq<DrawEvent>): Option<Transform>
    decreases |es|
  {
    if es == [] then Some(t)
    else
      match Step(t, es[0])
      case None => None
      case Some(t') => Replay(t', es[1..])
  }

  /** Events that only paint: they leave the transform alone. */
  predicate PaintsOnly(es: seq<DrawEvent>)
  {
    forall i :: 0 <= i < |es| ==> es[i].DrawPath? || es[i].TimeTextHook? || es[i].ChildHook?
  }

  /** Replaying two sequences one after the other is replaying their concatenation. */
  lemma {:induction false} ReplayAppend(t: Transform, a: seq<DrawEvent>, b: seq<DrawEvent>)
    ensures Replay(t, a + b) == match Replay(t, a) case None => None case Some(t') => Replay(t', b)
    decreases |a|
  {
    if a == [] {
      assert a + b == b;
    } else {
      assert (a + b)[0] == a[0];
      assert (a + b)[1..] == a[1..] + b;
      match Step(t, a[0])
      case None =>
      case Some(t') => ReplayAppend(t', a[1..], b);
    }
  }

  /** Painting never moves the origin or touches the saved stack. */
  lemma {:induction false} ReplayPaintsOnly(t: Transform, es: seq<DrawEvent>)
    requires PaintsOnly(es)
    ensures Replay(t, es) == Some(t)
    decreases |es|
  {
    if es != [] {
      assert Step(t, es[0]) == Some(t);
      assert PaintsOnly(es[1..]) by {
        forall i | 0 <= i < |es[1..]|
          ensures es[1..][i].DrawPath? || es[1..][i].TimeTextHook? || es[1..][i].ChildHook?
        {
          assert es[1..][i] == es[i + 1];
        }
      }
      ReplayPaintsOnly(t, es[1..]);
    }
  }

  /** A save, a translation, any painting and the matching restore leave the transform as it
      was, and everything painted in between is painted with the origin moved by (dx, dy). */
  lemma BracketedPaintingRestores(t: Transform, dx: real, dy: real, body: seq<DrawEvent>)
    requires PaintsOnly(body)
    ensures Replay(t, [Save, Translate(dx, dy)] + body)
              == Some(Transform(Point(t.origin.x + dx, t.origin.y + dy), t.saved + [t.origin]))
    ensures Replay(t, [Save, Translate(dx, dy)] + body + [Restore]) == Some(t)
  {
    var moved := Transform(Point(t.origin.x + dx, t.origin.y + dy), t.saved + [t.origin]);
    var saved := Transform(t.origin, t.saved + [t.origin]);
    assert Replay(moved, []) == Some(moved);
    assert [Save, Translate(dx, dy)][1..] == [Translate(dx, dy)];
    assert Replay(saved, [Translate(dx, dy)]) == Some(moved) by {
      assert [Translate(dx, dy)][1..] == [];
    }
    assert Replay(t, [Save, Translate(dx, dy)]) == Some(moved);
    ReplayAppend(t, [Save, Translate(dx, dy)], body);
    ReplayPaintsOnly(moved, body);
    ReplayAppend(t, [Save, Translate(dx, dy)] + body, [Restore]);
    assert (t.saved + [t.origin])[..|t.saved|] == t.saved;
  }

  /** The canvas a view draws on, kept as the record of what it was asked to do. */
  class Canvas {
    var trace: seq<DrawEvent>

    constructor ()
      ensures trace == []
    {
      trace := [];
    }

    /** The translation in force now, starting from an untranslated canvas; None after a
        restore underflow. */
    function Current(): Option<Transform>
      reads this
    {
      Replay(Transform(Point(0.0, 0.0), []), trace)
    }

    method Save()
      modifies this
      ensures trace == old(trace) + [DrawEvent.Save]
    {
      trace := trace + [DrawEvent.Save];
    }

    method Translate(dx: real, dy: real)
      modifies this
      ensures trace == old(trace) + [DrawEvent.Translate(dx, dy)]
    {
      trace := trace + [DrawEvent.Translate(dx, dy)];
    }

    method Restore()
      modifies this
      ensures trace == old(trace) + [DrawEvent.Restore]
    {
      trace := trace + [DrawEvent.Restore];
    }

    method DrawPath(path: Path, paint: Paint)
      modifies this
      ensures trace == old(trace) + [DrawEvent.DrawPath(path, paint)]
    {
      trace := trace + [DrawEvent.DrawPath(path, paint)];
    }

    /** Hands the canvas to an extension hook; the base hooks draw nothing. */
    method Hook(mark: DrawEvent)
      requires mark.TimeTextHook? || mark.ChildHook?
      modifies this
      ensures trace == old(trace) + [mark]
    {
      trace := trace + [mark];
    }
  }
}
