/** The thread drawn from the recorded attachment points to the spider:
    one refresh step of the thread view. Coordinates are exact reals. */
module Thread {
  import opened Optionals

  datatype Point = Point(x: real, y: real)
  datatype Vector = Vector(dx: real, dy: real)

  /** The commands of a Bezier path. */
  datatype PathCommand =
    | MoveTo(point: Point)
    | CurveTo(to: Point, control1: Point, control2: Point)

  /** How far the gravity vector pulls the control points. */
  const GravityScale: real := 60.0

  function Shift(p: Point, v: Vector): Point
  {
    Point(p.x + v.dx, p.y + v.dy)
  }

  function Midpoint(a: Point, b: Point): Point
  {
    Point((a.x + b.x) * 0.5, (a.y + b.y) * 0.5)
  }

  /** The gravity vector scaled by `GravityScale`. */
  function Pull(gravity: Vector): Vector
  {
    Vector(gravity.dx * GravityScale, gravity.dy * GravityScale)
  }

  /** The point list: the attachment points, then the spider's centre
      (absent when the spider is gone), with the absent entry dropped. */
  function AllPoints(attachments: seq<Point>, spider: Option<Point>): seq<Point>
  {
    CompactMap(seq(|attachments|, i requires 0 <= i < |attachments| => Some(attachments[i])) + [spider])
  }

  /** One candidate per index: the pair starting there, or `nil` at the last index. */
  function PairCandidates(points: seq<Point>): seq<Option<(Point, Point)>>
  {
    seq(|points|, i requires 0 <= i < |points| =>
      if i + 1 < |points| then Some((points[i], points[i + 1])) else None)
  }

  /** The consecutive pairs of the point list. */
  function Pairs(points: seq<Point>): (r: seq<(Point, Point)>)
    ensures |r| == if |points| == 0 then 0 else |points| - 1
    ensures forall i :: 0 <= i < |r| ==> r[i] == (points[i], points[i + 1])
  {
    var candidates := PairCandidates(points);
    if |points| == 0 then
      CompactMapAllAbsent(candidates);
      CompactMap(candidates)
    else
      var n := |points| - 1;
      assert candidates == candidates[..n] + candidates[n..];
      CompactMapAppend(candidates[..n], candidates[n..]);
      CompactMapAllPresent(candidates[..n]);
      CompactMapAllAbsent(candidates[n..]);
      CompactMap(candidates)
  }

  /** The control point of the curve for `pair`: the midpoint of the pair's
      two ends, each first pulled by gravity. It is the plain midpoint,
      pulled by gravity. */
  function ControlPoint(pair: (Point, Point), gravity: Vector): (r: Point)
    ensures r == Shift(Midpoint(pair.0, pair.1), Pull(gravity))
  {
    var v := Pull(gravity);
    Midpoint(Shift(pair.0, v), Shift(pair.1, v))
  }

  /** The curve segment drawn for one pair: it ends at the pair's second
      point, unshifted, with both control points at `ControlPoint`. */
  function Curve(pair: (Point, Point), gravity: Vector): PathCommand
  {
    CurveTo(pair.1, ControlPoint(pair, gravity), ControlPoint(pair, gravity))
  }

  function Curves(pairs: seq<(Point, Point)>, gravity: Vector): seq<PathCommand>
  {
    seq(|pairs|, i requires 0 <= i < |pairs| => Curve(pairs[i], gravity))
  }

  /** The path a refresh installs, or `None` when there is no pair and the
      refresh leaves the current path alone. */
  function RefreshedPath(attachments: seq<Point>, spider: Option<Point>, gravity: Vector): Option<seq<PathCommand>>
  {
    var points := AllPoints(attachments, spider);
    var pairs := Pairs(points);
    if |pairs| == 0 then None
    else Some([MoveTo(points[0])] + Curves(pairs, gravity))
  }

  /** The end points of the curve segments of a path, in order. */
  function CurveEnds(path: seq<PathCommand>): seq<Point>
  {
    if path == [] then []
    else (if path[0].CurveTo? then [path[0].to] else []) + CurveEnds(path[1..])
  }

  /** The point list is the attachment points in order, followed by the
      spider's centre exactly when the spider is there. */
  lemma AllPointsShape(attachments: seq<Point>, spider: Option<Point>)
    ensures AllPoints(attachments, spider)
         == attachments + (if spider.Some? then [spider.value] else [])
    ensures |AllPoints(attachments, spider)| == |attachments| + (if spider.Some? then 1 else 0)
  {
    var lifted := seq(|attachments|, i requires 0 <= i < |attachments| => Some(attachments[i]));
    CompactMapAppend(lifted, [spider]);
    CompactMapAllPresent(lifted);
    assert CompactMap(lifted) == attachments;
    assert CompactMap([spider]) == if spider.Some? then [spider.value] else [] by {
      assert [spider][1..] == [];
    }
  }

  /** The curve end points of a concatenation are those of its parts, in order. */
  lemma {:induction false} CurveEndsAppend(p: seq<PathCommand>, q: seq<PathCommand>)
    ensures CurveEnds(p + q) == CurveEnds(p) + CurveEnds(q)
  {
    if p == [] {
      assert p + q == q;
    } else {
      var head := if p[0].CurveTo? then [p[0].to] else [];
      assert (p + q)[0] == p[0];
      assert (p + q)[1..] == p[1..] + q;
      CurveEndsAppend(p[1..], q);
      assert CurveEnds(p + q) == head + (CurveEnds(p[1..]) + CurveEnds(q));
      assert CurveEnds(p) == head + CurveEnds(p[1..]);
    }
  }

  /** The curves of a pair list end at the pairs' second points, in order. */
  lemma {:induction false} CurveEndsOfCurves(pairs: seq<(Point, Point)>, gravity: Vector)
    ensures CurveEnds(Curves(pairs, gravity)) == seq(|pairs|, i requires 0 <= i < |pairs| => pairs[i].1)
  {
    if pairs != [] {
      var c := Curves(pairs, gravity);
      assert c[1..] == Curves(pairs[1..], gravity);
      CurveEndsOfCurves(pairs[1..], gravity);
    }
  }

  /** The shape of a refreshed path: nothing is drawn below two points;
      otherwise a move to the first point and one curve per consecutive
      pair, ending at the later point, both control points at the pulled
      midpoint of the pair. */
  lemma RefreshedPathShape(attachments: seq<Point>, spider: Option<Point>, gravity: Vector)
    ensures var points := AllPoints(attachments, spider);
      var r := RefreshedPath(attachments, spider, gravity);
      && (r.None? <==> |points| < 2)
      && (r.Some? ==>
            && |r.value| == |points|
            && r.value[0] == MoveTo(points[0])
            && forall i :: 1 <= i < |r.value| ==>
                 && r.value[i].CurveTo?
                 && r.value[i].to == points[i]
                 && r.value[i].control1 == r.value[i].control2
                 && r.value[i].control1 == Shift(Midpoint(points[i - 1], points[i]), Pull(gravity)))
  {
  }

  /** The curve end points, in order, are the point list without its first point. */
  lemma RefreshedPathEnds(attachments: seq<Point>, spider: Option<Point>, gravity: Vector)
    requires RefreshedPath(attachments, spider, gravity).Some?
    ensures CurveEnds(RefreshedPath(attachments, spider, gravity).value)
         == AllPoints(attachments, spider)[1..]
  {
    var points := AllPoints(attachments, spider);
    var pairs := Pairs(points);
    CurveEndsAppend([MoveTo(points[0])], Curves(pairs, gravity));
    assert CurveEnds([MoveTo(points[0])]) == [] by {
      assert [MoveTo(points[0])][1..] == [];
    }
    CurveEndsOfCurves(pairs, gravity);
  }

  /** With no gravity, every control point is the plain midpoint of its pair. */
  lemma ZeroGravityControlPoints(attachments: seq<Point>, spider: Option<Point>)
    ensures var points := AllPoints(attachments, spider);
      var r := RefreshedPath(attachments, spider, Vector(0.0, 0.0));
      r.Some? ==> forall i :: 1 <= i < |r.value| ==>
        r.value[i].control1 == r.value[i].control2 == Midpoint(points[i - 1], points[i])
  {
    RefreshedPathShape(attachments, spider, Vector(0.0, 0.0));
  }

  /** Build the path step by step: move to `start`, then add one curve per pair. */
  method BuildPath(start: Point, pairs: seq<(Point, Point)>, gravity: Vector) returns (path: seq<PathCommand>)
    ensures path == [MoveTo(start)] + Curves(pairs, gravity)
  {
    path := [MoveTo(start)];
    var vector := Vector(gravity.dx * GravityScale, gravity.dy * GravityScale);
    var i := 0;
    while i < |pairs|
      invariant 0 <= i <= |pairs|
      invariant path == [MoveTo(start)] + Curves(pairs[..i], gravity)
    {
      var pair := pairs[i];
      var a := Point(pair.0.x + vector.dx, pair.0.y + vector.dy);
      var b := Point(pair.1.x + vector.dx, pair.1.y + vector.dy);
      var quarterPoint := Point((a.x + b.x) * 0.5, (a.y + b.y) * 0.5);
      var threeQuarterPoint := Point((a.x + b.x) * 0.5, (a.y + b.y) * 0.5);
      path := path + [CurveTo(pair.1, quarterPoint, threeQuarterPoint)];
      assert Curves(pairs[..i + 1], gravity) == Curves(pairs[..i], gravity) + [Curve(pair, gravity)];
      i := i + 1;
    }
    assert pairs[..i] == pairs;
  }

  /** The thread view: the inputs another component keeps up to date, and
      the path currently installed on its shape layer (`None` until drawn). */
  class ThreadView {
    var gravityVector: Vector
    var attachmentPoints: seq<Point>
    var spiderCenter: Option<Point>
    var path: Option<seq<PathCommand>>

    /** A new view has no points, no gravity and no spider, so its first
        refresh draws nothing. */
    constructor ()
      ensures gravityVector == Vector(0.0, 0.0)
      ensures attachmentPoints == [] && spiderCenter == None
      ensures path == None
    {
      gravityVector := Vector(0.0, 0.0);
      attachmentPoints := [];
      spiderCenter := None;
      path := None;
      new;
      AllPointsShape([], None);
      Refresh();
    }

    /** One refresh step: assemble the points, pair them, and when there is
        a pair replace the installed path with a freshly built one. */
    method Refresh()
      modifies this`path
      ensures var r := RefreshedPath(attachmentPoints, spiderCenter, gravityVector);
        path == if r.Some? then r else old(path)
    {
      var allPoints := AllPoints(attachmentPoints, spiderCenter);
      var pairs := Pairs(allPoints);
      if |pairs| == 0 {
        return;
      }
      var built := BuildPath(allPoints[0], pairs, gravityVector);
      path := Some(built);
    }
  }
}
