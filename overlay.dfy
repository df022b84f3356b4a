/**
 * The overlay button of src/main.cpp: a fixed screen-space rectangle with a
 * texture that is loaded once, hit-tested against raw pointer coordinates.
 */
module Overlay {
  import opened Geometry

  /**
   * The checks LoadButtonTexture makes, in the order it makes them; each one
   * that fails ends the load early.
   */
  datatype LoadStep =
    | GenerateTexture    // glGetError after generating and binding the texture
    | OpenFile           // opening the PNG file
    | CreateReadStruct   // allocating libpng's read structure
    | CreateInfoStruct   // allocating libpng's info structure
    | DecodeImage        // libpng reports a decode error (its longjmp error path)
    | ValidateTexture    // glIsTexture on the uploaded texture
    | CheckBinding       // the bound 2D texture is the button's texture

  function Position(step: LoadStep): (n: nat)
    ensures n < 7
  {
    match step
    case GenerateTexture => 0
    case OpenFile => 1
    case CreateReadStruct => 2
    case CreateInfoStruct => 3
    case DecodeImage => 4
    case ValidateTexture => 5
    case CheckBinding => 6
  }

  datatype LoadOutcome = Loaded | Failed(step: LoadStep)

  /** The button's rectangle contains the point strictly: boundary points are outside. */
  predicate Hit(x: real, y: real, width: real, height: real, px: real, py: real)
  {
    x < px < x + width && y < py < y + height
  }

  /** The corners of the button's quad, in the order Button::Render emits them. */
  function QuadCorners(x: real, y: real, width: real, height: real): (r: seq<Point>)
    ensures |r| == 4
    ensures r[0] == Point(x, y) && r[2] == Point(x + width, y + height)
    ensures r[1].x == r[2].x && r[1].y == r[0].y && r[3].x == r[0].x && r[3].y == r[2].y
  {
    [Point(x, y), Point(x + width, y), Point(x + width, y + height), Point(x, y + height)]
  }

  /** Texture coordinates matching QuadCorners: the whole image, unflipped. */
  const QuadTexCoords := [Point(0.0, 0.0), Point(1.0, 0.0), Point(1.0, 1.0), Point(0.0, 1.0)]

  /**
   * The click test agrees with the drawn quad: for a button of positive size a
   * point fires exactly when it lies strictly inside the polygon Render draws.
   */
  lemma {:induction false} HitIffInsideDrawnQuad(x: real, y: real, width: real, height: real, p: Point)
    requires width > 0.0 && height > 0.0
    ensures Hit(x, y, width, height, p.x, p.y) <==> StrictlyInsidePolygon(QuadCorners(x, y, width, height), p)
  {
    var q := QuadCorners(x, y, width, height);
    assert q == [Point(x, y), Point(x + width, y), Point(x + width, y + height), Point(x, y + height)];
    RightwardEdgeSide(q[0], q[1], p);
    DownwardEdgeSide(q[1], q[2], p);
    LeftwardEdgeSide(q[2], q[3], p);
    UpwardEdgeSide(q[3], q[0], p);
    assert InnerSideOfEdge(q, 0, p) && InnerSideOfEdge(q, 1, p) && InnerSideOfEdge(q, 2, p) && InnerSideOfEdge(q, 3, p)
       <==> StrictlyInsidePolygon(q, p);
  }

  /** No point on the rectangle's border fires, whatever the button's size. */
  lemma BorderNeverHits(x: real, y: real, width: real, height: real, px: real, py: real)
    requires px == x || px == x + width || py == y || py == y + height
    ensures !Hit(x, y, width, height, px, py)
  {
  }

  /** A button of zero or negative width or height can never fire. */
  lemma DegenerateButtonNeverHits(x: real, y: real, width: real, height: real, px: real, py: real)
    requires width <= 0.0 || height <= 0.0
    ensures !Hit(x, y, width, height, px, py)
  {
  }

  /** A button whose texture is loaded at most once, and which runs its action when clicked inside. */
  class Button {
    const x: real
    const y: real
    const width: real
    const height: real
    var textureLoaded: bool
    /** How many times Initialize has run on this button. */
    ghost var initializeCalls: nat

    constructor (x: real, y: real, width: real, height: real)
      ensures this.x == x && this.y == y && this.width == width && this.height == height
      ensures !textureLoaded && initializeCalls == 0
    {
      this.x := x;
      this.y := y;
      this.width := width;
      this.height := height;
      textureLoaded := false;
      initializeCalls := 0;
    }

    /**
     * Reports whether the click action fires; the caller runs the bound action
     * when it does.
     */
    method CheckClick(mouseX: real, mouseY: real) returns (fired: bool)
      ensures fired <==> x < mouseX < x + width && y < mouseY < y + height
      ensures fired == Hit(x, y, width, height, mouseX, mouseY)
    {
      fired := mouseX > x && mouseX < x + width && mouseY > y && mouseY < y + height;
    }

    /** A textured quad over the button's rectangle once the texture is loaded; nothing before. */
    function Render(): (r: seq<Primitive>)
      reads this
      ensures r == [] <==> !textureLoaded
      ensures textureLoaded ==>
                |r| == 1 && r[0].TexturedQuad? && r[0].colour == White &&
                r[0].corners == QuadCorners(x, y, width, height) && r[0].texCoords == QuadTexCoords
    {
      if textureLoaded then [TexturedQuad(White, QuadCorners(x, y, width, height), QuadTexCoords)] else []
    }

    /**
     * Loads the button texture. `failing` holds the checks that would fail
     * (the graphics driver, the file system and libpng decide them); the load
     * stops at the first one reached, and only a load that passes all of them
     * marks the texture loaded.
     */
    method LoadButtonTexture(failing: set<LoadStep>) returns (outcome: LoadOutcome)
      modifies this`textureLoaded
      ensures outcome == Loaded <==> failing == {}
      ensures outcome.Failed? ==>
                outcome.step in failing &&
                forall s :: s in failing ==> Position(outcome.step) <= Position(s)
      ensures textureLoaded == (old(textureLoaded) || outcome == Loaded)
    {
      if GenerateTexture in failing {
        return Failed(GenerateTexture);
      }
      if OpenFile in failing {
        return Failed(OpenFile);
      }
      if CreateReadStruct in failing {
        return Failed(CreateReadStruct);
      }
      if CreateInfoStruct in failing {
        return Failed(CreateInfoStruct);
      }
      if DecodeImage in failing {
        return Failed(DecodeImage);
      }
      if ValidateTexture in failing {
        return Failed(ValidateTexture);
      }
      if CheckBinding in failing {
        return Failed(CheckBinding);
      }
      assert forall s: LoadStep :: s !in failing by {
        forall s: LoadStep ensures s !in failing {
          match s
          case GenerateTexture =>
          case OpenFile =>
          case CreateReadStruct =>
          case CreateInfoStruct =>
          case DecodeImage =>
          case ValidateTexture =>
          case CheckBinding =>
        }
      }
      textureLoaded := true;
      outcome := Loaded;
    }

    /** Loads the texture from the button's image file; the outcome is not reported to the caller. */
    method Initialize(failing: set<LoadStep>)
      modifies this`textureLoaded, this`initializeCalls
      ensures textureLoaded == (old(textureLoaded) || failing == {})
      ensures initializeCalls == old(initializeCalls) + 1
    {
      var _ := LoadButtonTexture(failing);
      initializeCalls := initializeCalls + 1;
    }
  }

  /** The canvas's toggle button sits at (10,10) with size 40x40. */
  lemma ToggleButtonClicks()
    ensures Hit(10.0, 10.0, 40.0, 40.0, 30.0, 30.0)
    ensures !Hit(10.0, 10.0, 40.0, 40.0, 10.0, 10.0)
    ensures !Hit(10.0, 10.0, 40.0, 40.0, 50.0, 50.0)
  {
  }
}
