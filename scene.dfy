/**
 * The scene items of src/main.cpp: a triangle, a circle and a square, each a
 * stateless renderer whose output depends only on the current view state.
 */
module Scene {
  import opened Geometry
  import opened ViewModel

  /** Half the side of the triangle's bounding box. */
  const TriangleSize := 50.0
  /** How far the circle (up-left) and the square (down-right) sit from the centre, on each axis. */
  const DistanceFromCentre := 100.0
  const CircleRadius := 30.0
  const CircleSegments := 100
  const SquareSize := 40.0

  /** The triangle's corners relative to its origin, before rotation. */
  const TriangleCorners := [Point(-TriangleSize, TriangleSize), Point(TriangleSize, TriangleSize), Point(0.0, -TriangleSize)]

  /**
   * Triangle::Render: nothing when the triangle is hidden; otherwise one
   * red/green/blue triangle placed at the centre and rotated by the model's angle.
   */
  function TriangleRender(s: ViewState): (r: seq<Primitive>)
    ensures r == [] <==> !s.showTriangle
    ensures s.showTriangle ==>
              |r| == 1 && r[0].Triangles? &&
              r[0].origin == Point(s.cx, s.cy) && r[0].angle == s.rotationAngle &&
              r[0].corners == TriangleCorners && r[0].colours == [Red, Green, Blue]
  {
    if !s.showTriangle then []
    else [Triangles(Point(s.cx, s.cy), s.rotationAngle, TriangleCorners, [Red, Green, Blue])]
  }

  /** A hidden triangle draws nothing, whatever the rotation, zoom, size or centre. */
  lemma HiddenTriangleIgnoresView(s: ViewState, t: ViewState)
    requires !s.showTriangle && !t.showTriangle
    ensures TriangleRender(s) == TriangleRender(t) == []
  {
  }

  /**
   * The triangle that is drawn, before rotation, spans exactly the square of
   * half-side 50 around its origin: every corner lies within 50 of the origin
   * on both axes, and each side of the box is touched by a corner.
   */
  lemma TriangleBoundingBoxCentred(s: ViewState)
    requires s.showTriangle
    ensures var c := TriangleRender(s)[0].corners;
            (forall i :: 0 <= i < |c| ==>
               -TriangleSize <= c[i].x <= TriangleSize && -TriangleSize <= c[i].y <= TriangleSize) &&
            (exists i :: 0 <= i < |c| && c[i].x == -TriangleSize) &&
            (exists i :: 0 <= i < |c| && c[i].x == TriangleSize) &&
            (exists i :: 0 <= i < |c| && c[i].y == -TriangleSize) &&
            (exists i :: 0 <= i < |c| && c[i].y == TriangleSize)
  {
    var c := TriangleRender(s)[0].corners;
    assert c[0].x == -TriangleSize && c[1].x == TriangleSize;
    assert c[2].y == -TriangleSize && c[0].y == TriangleSize;
  }

  /**
   * Circle::Render: a yellow loop of radius 30 centred 100 units up and left
   * of the model centre. The vertices, which need cos and sin, are not modelled.
   */
  function CircleRender(s: ViewState): (r: seq<Primitive>)
    ensures |r| == 1 && r[0].CircleLoop? && r[0].colour == Yellow
    ensures r[0].centre.x + DistanceFromCentre == s.cx && r[0].centre.y + DistanceFromCentre == s.cy
    ensures r[0].radius == CircleRadius && r[0].segments == CircleSegments
  {
    [CircleLoop(Yellow, Point(s.cx - DistanceFromCentre, s.cy - DistanceFromCentre), CircleRadius, CircleSegments)]
  }

  /**
   * The square's corners in the order Square::Render emits them:
   * top-left, top-right, bottom-right, bottom-left (y grows downwards).
   */
  function SquareVertices(s: ViewState): (r: seq<Point>)
    ensures |r| == 4
    // every corner is half a side away from the square's centre on both axes
    ensures forall i :: 0 <= i < 4 ==>
      (r[i].x - (s.cx + DistanceFromCentre) == SquareSize / 2.0 || (s.cx + DistanceFromCentre) - r[i].x == SquareSize / 2.0) &&
      (r[i].y - (s.cy + DistanceFromCentre) == SquareSize / 2.0 || (s.cy + DistanceFromCentre) - r[i].y == SquareSize / 2.0)
    // the corners average to the square's centre, 100 units down and right of the model centre
    ensures (r[0].x + r[1].x + r[2].x + r[3].x) / 4.0 == s.cx + DistanceFromCentre
    ensures (r[0].y + r[1].y + r[2].y + r[3].y) / 4.0 == s.cy + DistanceFromCentre
    // consecutive corners are one side apart along exactly one axis, going clockwise on screen
    ensures r[1].x - r[0].x == SquareSize && r[1].y == r[0].y
    ensures r[2].y - r[1].y == SquareSize && r[2].x == r[1].x
    ensures r[2].x - r[3].x == SquareSize && r[3].y == r[2].y
    ensures r[3].y - r[0].y == SquareSize && r[0].x == r[3].x
  {
    var cx := s.cx + DistanceFromCentre;
    var cy := s.cy + DistanceFromCentre;
    [Point(cx - SquareSize / 2.0, cy - SquareSize / 2.0),
     Point(cx + SquareSize / 2.0, cy - SquareSize / 2.0),
     Point(cx + SquareSize / 2.0, cy + SquareSize / 2.0),
     Point(cx - SquareSize / 2.0, cy + SquareSize / 2.0)]
  }

  /** Square::Render: one red closed loop through the four corners. */
  function SquareRender(s: ViewState): (r: seq<Primitive>)
    ensures |r| == 1 && r[0].LineLoop? && r[0].colour == Red && r[0].points == SquareVertices(s)
  {
    [LineLoop(Red, SquareVertices(s))]
  }

  /** Moving the model centre moves the square by the same amount, and the square depends on nothing else. */
  lemma SquareFollowsCentre(s: ViewState, t: ViewState, i: nat)
    requires i < 4
    ensures SquareVertices(t)[i].x - SquareVertices(s)[i].x == t.cx - s.cx
    ensures SquareVertices(t)[i].y - SquareVertices(s)[i].y == t.cy - s.cy
  {
  }

  /** The scene items in the order the canvas renders them: triangle, circle, square. */
  function SceneItems(s: ViewState): (r: seq<Primitive>)
    ensures |r| == if s.showTriangle then 3 else 2
    ensures r[|r| - 1] == SquareRender(s)[0] && r[|r| - 2] == CircleRender(s)[0]
    ensures s.showTriangle ==> r[0] == TriangleRender(s)[0]
  {
    TriangleRender(s) + CircleRender(s) + SquareRender(s)
  }
}
