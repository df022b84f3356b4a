/**
 * The view-state record of the demo: zoom, rotation, triangle visibility,
 * viewport size and the centre derived from size and zoom (src/Model.h).
 */
module ViewModel {

  /** A snapshot of the fields of a `Model`; the renderers read the model through it. */
  datatype ViewState = ViewState(
    rotationAngle: real,
    zoomLevel: real,
    showTriangle: bool,
    width: int,
    height: int,
    cx: real,
    cy: real)

  /**
   * The derived centre is half the viewport, measured in zoomed scene units:
   * cx = width / (2 * zoomLevel) and cy = height / (2 * zoomLevel).
   */
  predicate Consistent(s: ViewState)
  {
    s.zoomLevel > 0.0 &&
    s.cx == s.width as real / (2.0 * s.zoomLevel) &&
    s.cy == s.height as real / (2.0 * s.zoomLevel)
  }

  /** The centre along one axis, computed as the source does: extent / 2 / zoom. */
  function Centre(extent: int, zoomLevel: real): (c: real)
    requires zoomLevel > 0.0
    ensures c * (2.0 * zoomLevel) == extent as real
    ensures c == extent as real / (2.0 * zoomLevel)
  {
    extent as real / 2.0 / zoomLevel
  }

  /** The state of a freshly constructed `Model`. */
  function DefaultState(): (s: ViewState)
    ensures Consistent(s)
    ensures s.cx == 0.0 && s.cy == 0.0
  {
    ViewState(0.0, 1.0, true, 0, 0, 0.0, 0.0)
  }

  /** The centre recomputed from the current size and zoom; nothing else changes. */
  function Recentred(s: ViewState): (r: ViewState)
    requires s.zoomLevel > 0.0
    ensures Consistent(r)
    ensures r.(cx := s.cx, cy := s.cy) == s
  {
    s.(cx := Centre(s.width, s.zoomLevel), cy := Centre(s.height, s.zoomLevel))
  }

  function WithZoomLevel(s: ViewState, zoomLevel: real): (r: ViewState)
    requires zoomLevel > 0.0
    ensures Consistent(r) && r.zoomLevel == zoomLevel
    ensures r.rotationAngle == s.rotationAngle && r.showTriangle == s.showTriangle
    ensures r.width == s.width && r.height == s.height
  {
    Recentred(s.(zoomLevel := zoomLevel))
  }

  function WithSize(s: ViewState, width: int, height: int): (r: ViewState)
    requires s.zoomLevel > 0.0
    ensures Consistent(r) && r.width == width && r.height == height
    ensures r.rotationAngle == s.rotationAngle && r.showTriangle == s.showTriangle
    ensures r.zoomLevel == s.zoomLevel
  {
    Recentred(s.(width := width, height := height))
  }

  function WithRotationAngle(s: ViewState, rotationAngle: real): (r: ViewState)
    ensures Consistent(r) <==> Consistent(s)
    ensures r.rotationAngle == rotationAngle && r.(rotationAngle := s.rotationAngle) == s
  {
    s.(rotationAngle := rotationAngle)
  }

  function WithShowTriangle(s: ViewState, showTriangle: bool): (r: ViewState)
    ensures Consistent(r) <==> Consistent(s)
    ensures r.showTriangle == showTriangle && r.(showTriangle := s.showTriangle) == s
  {
    s.(showTriangle := showTriangle)
  }

  /** One call of a public setter of `Model`. */
  datatype Setter =
    | SetZoomLevel(zoomLevel: real)
    | SetSize(width: int, height: int)
    | SetRotationAngle(rotationAngle: real)
    | SetShowTriangle(showTriangle: bool)

  /** The zoom level a setter call passes is positive (the slider's range guarantees it). */
  predicate Admissible(c: Setter)
  {
    c.SetZoomLevel? ==> c.zoomLevel > 0.0
  }

  function Apply(s: ViewState, c: Setter): (r: ViewState)
    requires s.zoomLevel > 0.0 && Admissible(c)
    ensures r.zoomLevel > 0.0
    ensures Consistent(s) ==> Consistent(r)
  {
    match c
    case SetZoomLevel(z) => WithZoomLevel(s, z)
    case SetSize(w, h) => WithSize(s, w, h)
    case SetRotationAngle(a) => WithRotationAngle(s, a)
    case SetShowTriangle(b) => WithShowTriangle(s, b)
  }

  function ApplyAll(s: ViewState, cs: seq<Setter>): ViewState
    requires s.zoomLevel > 0.0
    requires forall i :: 0 <= i < |cs| ==> Admissible(cs[i])
    decreases |cs|
  {
    if cs == [] then s else ApplyAll(Apply(s, cs[0]), cs[1..])
  }

  /** The centre invariant holds after any sequence of setter calls, in any order. */
  lemma {:induction false} SettersKeepCentreInvariant(s: ViewState, cs: seq<Setter>)
    requires Consistent(s)
    requires forall i :: 0 <= i < |cs| ==> Admissible(cs[i])
    ensures Consistent(ApplyAll(s, cs))
    decreases |cs|
  {
    if cs != [] {
      SettersKeepCentreInvariant(Apply(s, cs[0]), cs[1..]);
    }
  }

  /** In particular, from the default state every reachable state satisfies it. */
  lemma ReachableStatesConsistent(cs: seq<Setter>)
    requires forall i :: 0 <= i < |cs| ==> Admissible(cs[i])
    ensures Consistent(ApplyAll(DefaultState(), cs))
  {
    SettersKeepCentreInvariant(DefaultState(), cs);
  }

  /** Each setter is idempotent. */
  lemma SetterIdempotent(s: ViewState, c: Setter)
    requires s.zoomLevel > 0.0 && Admissible(c)
    ensures Apply(Apply(s, c), c) == Apply(s, c)
  {
  }

  /** Resizing and zooming commute: the centre ends up the same in either order. */
  lemma SizeAndZoomCommute(s: ViewState, width: int, height: int, zoomLevel: real)
    requires s.zoomLevel > 0.0 && zoomLevel > 0.0
    ensures WithZoomLevel(WithSize(s, width, height), zoomLevel)
         == WithSize(WithZoomLevel(s, zoomLevel), width, height)
  {
  }

  /** The derived centre carries no information of its own: the inputs determine it. */
  lemma CentreDeterminedByInputs(s: ViewState, t: ViewState)
    requires Consistent(s) && Consistent(t)
    requires s.zoomLevel == t.zoomLevel && s.width == t.width && s.height == t.height
    requires s.rotationAngle == t.rotationAngle && s.showTriangle == t.showTriangle
    ensures s == t
  {
  }

  /** 640x480 at zoom 1 centres at (320,240); zoom 2 gives (160,120); 800x600 then gives (200,150). */
  lemma ResizeZoomScenario()
    ensures var s1 := WithSize(DefaultState(), 640, 480);
            var s2 := WithZoomLevel(s1, 2.0);
            var s3 := WithSize(s2, 800, 600);
            s1.cx == 320.0 && s1.cy == 240.0 &&
            s2.cx == 160.0 && s2.cy == 120.0 &&
            s3.cx == 200.0 && s3.cy == 150.0
  {
  }

  /** The view-state record; setters overwrite fields in place and keep the centre up to date. */
  class Model {
    var rotationAngle: real
    var zoomLevel: real
    var showTriangle: bool
    var width: int
    var height: int
    var cx: real
    var cy: real

    function State(): ViewState
      reads this
    {
      ViewState(rotationAngle, zoomLevel, showTriangle, width, height, cx, cy)
    }

    ghost predicate Valid()
      reads this
    {
      Consistent(State())
    }

    constructor ()
      ensures Valid() && State() == DefaultState()
      ensures rotationAngle == 0.0 && zoomLevel == 1.0 && showTriangle
      ensures width == 0 && height == 0 && cx == 0.0 && cy == 0.0
    {
      rotationAngle := 0.0;
      zoomLevel := 1.0;
      showTriangle := true;
      width := 0;
      height := 0;
      cx := 0.0;
      cy := 0.0;
    }

    method SetZoomLevel(zoom: real)
      requires zoom > 0.0
      modifies this`zoomLevel, this`cx, this`cy
      ensures Valid() && zoomLevel == zoom
      ensures cx == width as real / (2.0 * zoom) && cy == height as real / (2.0 * zoom)
      ensures State() == WithZoomLevel(old(State()), zoom)
    {
      zoomLevel := zoom;
      RecalculateCenter();
    }

    method SetSize(newWidth: int, newHeight: int)
      requires zoomLevel > 0.0
      modifies this`width, this`height, this`cx, this`cy
      ensures Valid() && width == newWidth && height == newHeight
      ensures cx == newWidth as real / (2.0 * zoomLevel) && cy == newHeight as real / (2.0 * zoomLevel)
      ensures State() == WithSize(old(State()), newWidth, newHeight)
    {
      width := newWidth;
      height := newHeight;
      RecalculateCenter();
    }

    method SetRotationAngle(angle: real)
      modifies this`rotationAngle
      ensures rotationAngle == angle
      ensures Valid() <==> old(Valid())
      ensures State() == WithRotationAngle(old(State()), angle)
    {
      rotationAngle := angle;
    }

    method SetShowTriangle(show: bool)
      modifies this`showTriangle
      ensures showTriangle == show
      ensures Valid() <==> old(Valid())
      ensures State() == WithShowTriangle(old(State()), show)
    {
      showTriangle := show;
    }

    /** Recomputes cx and cy from the current size and zoom. */
    method RecalculateCenter()
      requires zoomLevel > 0.0
      modifies this`cx, this`cy
      ensures Valid()
      ensures State() == Recentred(old(State()))
    {
      cx := Centre(width, zoomLevel);
      cy := Centre(height, zoomLevel);
    }

    method GetRotationAngle() returns (r: real)
      ensures r == rotationAngle
    {
      r := rotationAngle;
    }

    method GetZoomLevel() returns (r: real)
      ensures r == zoomLevel
      ensures Valid() ==> r > 0.0
    {
      r := zoomLevel;
    }

    method GetShowTriangle() returns (r: bool)
      ensures r == showTriangle
    {
      r := showTriangle;
    }

    method GetWidth() returns (r: int)
      ensures r == width
    {
      r := width;
    }

    method GetHeight() returns (r: int)
      ensures r == height
    {
      r := height;
    }

    method GetCx() returns (r: real)
      ensures r == cx
      ensures Valid() ==> r * (2.0 * zoomLevel) == width as real
    {
      r := cx;
    }

    method GetCy() returns (r: real)
      ensures r == cy
      ensures Valid() ==> r * (2.0 * zoomLevel) == height as real
    {
      r := cy;
    }
  }
}
