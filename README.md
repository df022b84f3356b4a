# union_designer2D view model and canvas controller in Dafny

This project models the logic core of a small wxWidgets/OpenGL demo. The demo
shows a window with an OpenGL canvas that draws a triangle, a circle and a
square, plus a clickable overlay button. The button shows or hides a control
panel. The panel holds a zoom slider, a rotation slider and a "Show Triangle"
checkbox.

The project has five modules:

- `ViewModel` (`model.dfy`) models `src/Model.h`. The `Model` class keeps the
  rotation angle, zoom level, triangle visibility, viewport size, and the
  centre `(cx, cy)` derived from the size and zoom. Each setter is a method
  with a field-precise `modifies` frame. The class invariant `Valid()` is
  `cx = width / (2 * zoomLevel)`, `cy = height / (2 * zoomLevel)`, zoom > 0.
  `ViewState` is a value snapshot of the same fields. Pure setter functions
  over it specify the methods. The lemmas about ordering and idempotence are
  proved over these functions.
- `Geometry` (`geometry.dfy`) holds points, colours and the primitives a
  render call emits. It also defines a strict point-in-convex-polygon test
  built on cross products.
- `Scene` (`scene.dfy`) models the renderers `Triangle::Render`,
  `Circle::Render` and `Square::Render`. Each is a pure function of the view
  state that returns the primitives it draws.
- `Overlay` (`overlay.dfy`) models the `Button` class. It covers the strict
  hit test `CheckClick`, the `textureLoaded` guard in `Render`, and
  `LoadButtonTexture`'s chain of early-returning checks. `Initialize` is also
  modelled.
- `Canvas` (`canvas.dfy`) models the `OpenGLCanvas` controller:
  - paint initialises once;
  - size events are ignored until initialised;
  - a mouse click runs the button's bound action, `ToggleControlPanel`;
  - the slider and checkbox handlers update the model.

  The controller's invariant says three things. The button's `Initialize`
  has run exactly once if graphics are initialised, and never otherwise; the
  button counts its own runs in a ghost field that only `Initialize` raises. The texture
  can only be loaded after initialisation. The model mirrors the widgets, so
  zoom is `slider / 100` with the slider in [10, 300], which keeps zoom in
  [0.1, 3.0].

Modelling choices:

- C++ `float` is modelled as `real`. No rounding is modelled.
- The bound `std::function` action is not modelled as a closure. Instead,
  `CheckClick` returns whether it fires, and the canvas then calls
  `ToggleControlPanel`. That is the only action the source binds
  (src/main.cpp:332-333).
- The results of foreign calls become parameters:
  - `GetClientSize` becomes `OnSize`'s arguments;
  - the widget values become the handlers' arguments;
  - the graphics driver, the file system and libpng are represented by the
    set of texture-load checks that would fail.
- The source never checks that the zoom is positive. `SetZoomLevel` and
  `SetSize` require it, because `recalculateCenter` divides by it. The
  controller's invariant shows that every zoom the slider can produce meets
  this requirement.
- The source only updates the model's size once graphics are initialised
  (src/main.cpp:355-358). A size event that arrives before the first paint is
  therefore lost until the next one. `Canvas.SizeBeforeFirstPaintIsDropped`
  states this, and the model keeps the source's behaviour.

## Model

| member | source | states |
|---|---|---|
| ViewModel.Centre | src/Model.h:90-93 | the centre computed as extent / 2 / zoom is the unique c with c * 2 * zoom = extent, i.e. extent / (2 * zoom) |
| ViewModel.DefaultState | src/Model.h:96-102 | the field defaults (zoom 1, size 0, centre 0) satisfy the centre invariant |
| ViewModel.Recentred | src/Model.h:90-93 | recomputing the centre establishes the invariant and touches only cx and cy |
| ViewModel.WithZoomLevel | src/Model.h:13-16 | setting the zoom yields zoom = z with a consistent centre; size, rotation and visibility are kept |
| ViewModel.WithSize | src/Model.h:23-27 | setting the size yields the new width and height with a centre recomputed at the current zoom; zoom, rotation and visibility are kept |
| ViewModel.WithRotationAngle | src/Model.h:39-41 | setting the rotation changes only the angle and neither breaks nor establishes the invariant |
| ViewModel.WithShowTriangle | src/Model.h:59 | setting visibility changes only the flag and neither breaks nor establishes the invariant |
| ViewModel.Apply | src/Model.h:13-59 | every setter keeps the zoom positive and preserves the centre invariant |
| ViewModel.SettersKeepCentreInvariant | src/Model.h:13-27 | the centre invariant survives any sequence of setter calls in any order, given positive zooms |
| ViewModel.ReachableStatesConsistent | src/Model.h:96-102 | every state reachable from the defaults by setter calls satisfies the centre invariant |
| ViewModel.SetterIdempotent | src/Model.h:13-59 | applying any setter twice with the same argument gives the same state as applying it once |
| ViewModel.SizeAndZoomCommute | src/Model.h:13-27 | resizing then zooming and zooming then resizing give the same state |
| ViewModel.CentreDeterminedByInputs | src/Model.h:90-93 | two consistent states with the same inputs are equal: the centre carries no information of its own |
| ViewModel.ResizeZoomScenario | src/Model.h:13-27 | 640x480 at zoom 1 gives centre (320,240); zoom 2 gives (160,120); resizing to 800x600 then gives (200,150) |
| ViewModel.Model.constructor | src/Model.h:96-102 | a new model has the field defaults and satisfies the invariant |
| ViewModel.Model.SetZoomLevel | src/Model.h:13-16 | zoom becomes z and cx, cy become width/(2z), height/(2z); only zoom, cx and cy may change |
| ViewModel.Model.SetSize | src/Model.h:23-27 | width and height become the arguments and cx, cy are recomputed with the current zoom; only those four fields may change |
| ViewModel.Model.SetRotationAngle | src/Model.h:39-41 | only the rotation angle changes, to the argument; validity is unaffected |
| ViewModel.Model.SetShowTriangle | src/Model.h:59 | only the visibility flag changes, to the argument; validity is unaffected |
| ViewModel.Model.RecalculateCenter | src/Model.h:90-93 | cx and cy are rewritten so that the invariant holds; nothing else changes |
| ViewModel.Model.GetRotationAngle | src/Model.h:33 | returns the stored angle and changes nothing |
| ViewModel.Model.GetZoomLevel | src/Model.h:47 | returns the stored zoom, positive in a valid model, and changes nothing |
| ViewModel.Model.GetShowTriangle | src/Model.h:53 | returns the stored flag and changes nothing |
| ViewModel.Model.GetWidth | src/Model.h:65 | returns the stored width and changes nothing |
| ViewModel.Model.GetHeight | src/Model.h:71 | returns the stored height and changes nothing |
| ViewModel.Model.GetCx | src/Model.h:77 | returns the stored cx, which in a valid model times 2 * zoom is the width |
| ViewModel.Model.GetCy | src/Model.h:83 | returns the stored cy, which in a valid model times 2 * zoom is the height |
| Scene.TriangleRender | src/main.cpp:400-422 | emits nothing exactly when the triangle is hidden; otherwise one triangle with corners (-50,50), (50,50), (0,-50) coloured red, green, blue, placed at the model centre and rotated by the model angle |
| Scene.HiddenTriangleIgnoresView | src/main.cpp:400-402 | a hidden triangle draws nothing whatever the rotation, zoom, size or centre |
| Scene.TriangleBoundingBoxCentred | src/main.cpp:406-418 | for every state that shows the triangle, the corners of the drawn triangle lie within 50 of its origin on both axes and reach all four sides of that box |
| Scene.CircleRender | src/main.cpp:424-440 | one yellow loop of radius 30 and 100 segments centred 100 units up and left of the model centre |
| Scene.SquareVertices | src/main.cpp:442-454 | four corners, each 20 from the centre (cx+100, cy+100) on both axes, averaging to it, and going top-left, top-right, bottom-right, bottom-left with sides of 40 |
| Scene.SquareRender | src/main.cpp:442-455 | one red closed loop through the square's corners |
| Scene.SquareFollowsCentre | src/main.cpp:443-447 | moving the model centre moves every square corner by the same offset |
| Scene.SceneItems | src/main.cpp:327-329 | the scene is drawn as triangle (when shown), circle, square, in that order |
| Overlay.QuadCorners | src/main.cpp:471-480 | the button quad's corners run from (x,y) to (x+w,y+h) around the rectangle |
| Overlay.HitIffInsideDrawnQuad | src/main.cpp:613-617 | for a button of positive size, a click fires exactly when it lies strictly inside the quad Render draws |
| Overlay.BorderNeverHits | src/main.cpp:614 | no point on the rectangle's border fires |
| Overlay.DegenerateButtonNeverHits | src/main.cpp:614 | a button with non-positive width or height never fires |
| Overlay.ToggleButtonClicks | src/main.cpp:332-333 | for the toggle button at (10,10) of size 40x40, (30,30) fires while (10,10) and (50,50) do not |
| Overlay.Button.constructor | src/main.cpp:131-134 | a new button has the given rectangle, no texture loaded, and has not been initialised |
| Overlay.Button.CheckClick | src/main.cpp:613-617 | the action fires exactly when x < mouseX < x+width and y < mouseY < y+height |
| Overlay.Button.Render | src/main.cpp:461-486 | nothing is drawn exactly when the texture is not loaded; otherwise one white textured quad over the rectangle with the full image |
| Overlay.Button.LoadButtonTexture | src/main.cpp:488-611 | the load succeeds exactly when no check fails; otherwise it reports the first failing check in source order; only success sets textureLoaded |
| Overlay.Button.Initialize | src/main.cpp:457-459 | the texture is loaded exactly when no check fails; a failure is not reported; the button's count of Initialize runs goes up by one |
| Canvas.ZoomFromSlider | src/main.cpp:314-319 | the zoom times 100 is the slider value; a value in [10,300] gives a zoom in [0.1,3.0] |
| Canvas.SliderFromZoom | src/main.cpp:289 | the slider position is zoom * 100 truncated toward zero |
| Canvas.SliderZoomRoundTrip | src/main.cpp:287-289 | every slider value maps to a zoom and back to itself |
| Canvas.ZoomSliderRoundTrip | src/main.cpp:289 | a zoom that is a whole number of hundredths maps to a slider value and back to itself |
| Canvas.OpenGLCanvas.constructor | src/main.cpp:271-334 | a new canvas is uninitialised with the panel hidden, a default model, zoom slider at 100, rotation slider at 0, checkbox checked, button unloaded |
| Canvas.OpenGLCanvas.RenderScene | src/main.cpp:377-392 | a frame draws the scene items (triangle if shown, circle, square) scaled by the zoom (in [0.1,3.0]), then the button's own rendering unscaled, which is empty until its texture loaded |
| Canvas.OpenGLCanvas.OnPaint | src/main.cpp:338-352 | afterwards the canvas is initialised; the button's own count of Initialize runs is exactly one, and it grew on this paint exactly when this paint flipped the flag; the texture state is fixed by that paint alone |
| Canvas.OpenGLCanvas.OnSize | src/main.cpp:354-370 | once initialised, the model takes the client size with a recomputed centre; before that the model is untouched |
| Canvas.OpenGLCanvas.OnMouseClick | src/main.cpp:372-375 | the panel flips exactly when the click is strictly inside the toggle button's rectangle |
| Canvas.OpenGLCanvas.ToggleControlPanel | src/main.cpp:394-398 | the panel visibility is negated |
| Canvas.OpenGLCanvas.OnZoomSlider | src/main.cpp:314-319 | the zoom becomes value/100, lies in [0.1,3.0], and the centre is recomputed |
| Canvas.OpenGLCanvas.OnRotationSlider | src/main.cpp:307-312 | the rotation becomes the slider value unchanged, in [0,360] |
| Canvas.OpenGLCanvas.OnShowTriangleCheckbox | src/main.cpp:321-324 | the model's visibility becomes the checkbox state; the next frame starts with the triangle exactly when it is checked |
| Canvas.ToggleTwiceRestores | src/main.cpp:394-396 | two toggles restore the panel's visibility |
| Canvas.RepaintNeverReloads | src/main.cpp:343-348 | after two paints the button's count of Initialize runs is one and the texture state depends only on the first paint's load |
| Canvas.SizeBeforeFirstPaintIsDropped | src/main.cpp:354-358 | a size event before the first paint leaves the model unchanged even after that paint |

## Left out

- Application and frame construction, sizers, widget creation and event binding, `Refresh`, `Layout` and `controlPanel->Show`. This is GUI plumbing (src/main.cpp:16-22, 247-305). The panel's shown state is the `isControlPanelVisible` flag.
- All OpenGL calls are left out: clearing, viewport, orthographic projection, matrix push and pop, scaling, rotation, blending, texture generation and upload, and the texture handle. These are foreign graphics calls. Frames are modelled as lists of primitives.
- PNG decoding and file reading in `LoadButtonTexture` are left out: libpng does the work, and this is file I/O. That includes the conversion of every colour type to 8-bit RGBA with a 255 alpha fill. Each check is kept only as a step that can fail.
- Scene.CircleRender: the loop's 101 vertices are not modelled, because they come from floating-point `cos` and `sin`. Only the centre, radius, segment count and colour are stated.
- Scene.TriangleRender: the rotation is recorded as an angle and is not applied to the corners, because that is `glRotatef`'s floating-point work.
- ViewModel.Model.SetZoomLevel: requires a positive zoom, which the source does not check. Division by zero is undefined over the reals. The controller only ever passes slider values in [0.1, 3.0].
- ViewModel.Model.SetSize: requires a positive zoom, for the same division.
- Canvas.OpenGLCanvas.OnZoomSlider: requires a value in the slider's range [10, 300], which the widget enforces.
- Canvas.OpenGLCanvas.OnRotationSlider: requires a value in the slider's range [0, 360], which the widget enforces.
- Float rounding is not modelled. `value / 100.0f` and the truncation of `zoom * 100.0f` are exact here.
- Console logging through `std::cout` is left out, including the message `Button::Render` prints when no texture is loaded.
- The destructor and resource release are left out. Nothing in the model depends on them.
