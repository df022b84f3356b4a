/** Screen-space values shared by the scene items and the overlay button. */
module Geometry {

  /** A 2D point in canvas coordinates; (0,0) is the top-left corner and y grows downwards. */
  datatype Point = Point(x: real, y: real)

  /** An RGBA colour with components in [0,1]. */
  datatype Colour = Colour(r: real, g: real, b: real, a: real)

  const Red := Colour(1.0, 0.0, 0.0, 1.0)
  const Green := Colour(0.0, 1.0, 0.0, 1.0)
  const Blue := Colour(0.0, 0.0, 1.0, 1.0)
  const Yellow := Colour(1.0, 1.0, 0.0, 1.0)
  const White := Colour(1.0, 1.0, 1.0, 1.0)

  /** What one render call emits, in the order it emits it. */
  datatype Primitive =
      /** Filled triangles drawn after translating to `origin` and rotating by `angle` degrees. */
    | Triangles(origin: Point, angle: real, corners: seq<Point>, colours: seq<Colour>)
      /** A closed polyline through `points`. */
    | LineLoop(colour: Colour, points: seq<Point>)
      /** A closed polyline approximating a circle; its vertices are not modelled. */
    | CircleLoop(colour: Colour, centre: Point, radius: real, segments: nat)
      /** A quad with texture coordinates, drawn with alpha blending. */
    | TexturedQuad(colour: Colour, corners: seq<Point>, texCoords: seq<Point>)

  /**
   * The z component of (b - a) x (p - a): positive when p lies strictly to the
   * right of the directed edge a->b as seen on a y-down screen.
   */
  function Cross(a: Point, b: Point, p: Point): real
  {
    (b.x - a.x) * (p.y - a.y) - (b.y - a.y) * (p.x - a.x)
  }

  /**
   * p lies strictly inside the convex polygon whose corners are listed clockwise
   * on screen: strictly on the inner side of every edge.
   */
  predicate StrictlyInsidePolygon(corners: seq<Point>, p: Point)
  {
    forall i :: 0 <= i < |corners| ==> InnerSideOfEdge(corners, i, p)
  }

  /** p lies strictly on the inner side of the edge from corner i to the next corner. */
  predicate InnerSideOfEdge(corners: seq<Point>, i: nat, p: Point)
    requires i < |corners|
  {
    Cross(corners[i], corners[(i + 1) % |corners|], p) > 0.0
  }

  /** Inside of an edge running right along the screen: strictly below it. */
  lemma RightwardEdgeSide(a: Point, b: Point, p: Point)
    requires a.y == b.y && a.x < b.x
    ensures Cross(a, b, p) > 0.0 <==> p.y > a.y
  {
  }

  /** Inside of an edge running left: strictly above it. */
  lemma LeftwardEdgeSide(a: Point, b: Point, p: Point)
    requires a.y == b.y && b.x < a.x
    ensures Cross(a, b, p) > 0.0 <==> p.y < a.y
  {
  }

  /** Inside of an edge running down the screen: strictly left of it. */
  lemma DownwardEdgeSide(a: Point, b: Point, p: Point)
    requires a.x == b.x && a.y < b.y
    ensures Cross(a, b, p) > 0.0 <==> p.x < a.x
  {
  }

  /** Inside of an edge running up: strictly right of it. */
  lemma UpwardEdgeSide(a: Point, b: Point, p: Point)
    requires a.x == b.x && b.y < a.y
    ensures Cross(a, b, p) > 0.0 <==> p.x > a.x
  {
  }
}
