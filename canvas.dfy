/**
 * The OpenGL canvas of src/main.cpp: it owns the model, the scene items and
 * the toggle button, initialises graphics once on the first paint, forwards
 * size changes to the model, and maps the control panel's widgets to model
 * updates.
 */
module Canvas {
  import opened Geometry
  import opened ViewModel
  import opened Scene
  import opened Overlay

  const ZoomSliderMin := 10
  const ZoomSliderMax := 300
  const RotationSliderMin := 0
  const RotationSliderMax := 360

  /** The toggle button's rectangle. */
  const ToggleButtonX := 10.0
  const ToggleButtonY := 10.0
  const ToggleButtonWidth := 40.0
  const ToggleButtonHeight := 40.0

  /** The zoom a zoom-slider position stands for: hundredths. */
  function ZoomFromSlider(value: int): (zoom: real)
    ensures zoom * 100.0 == value as real
    ensures ZoomSliderMin <= value <= ZoomSliderMax ==> 0.1 <= zoom <= 3.0
  {
    value as real / 100.0
  }

  /** The slider position shown for a zoom level: zoom * 100, truncated toward zero like a float-to-int conversion. */
  function SliderFromZoom(zoom: real): (value: int)
    ensures zoom >= 0.0 ==> value as real <= zoom * 100.0 < value as real + 1.0
    ensures zoom < 0.0 ==> value as real - 1.0 < zoom * 100.0 <= value as real
  {
    var scaled := zoom * 100.0;
    if scaled >= 0.0 then scaled.Floor else -((-scaled).Floor)
  }

  /** Every slider position survives the trip to a zoom level and back. */
  lemma SliderZoomRoundTrip(value: int)
    ensures SliderFromZoom(ZoomFromSlider(value)) == value
  {
  }

  /** A zoom level that is a whole number of hundredths survives the trip to a slider position and back. */
  lemma ZoomSliderRoundTrip(zoom: real)
    requires (zoom * 100.0).Floor as real == zoom * 100.0
    ensures ZoomFromSlider(SliderFromZoom(zoom)) == zoom
  {
  }

  /** One frame: the scene items drawn under the zoom scale, then the button drawn unscaled. */
  datatype Frame = Frame(zoom: real, scene: seq<Primitive>, overlay: seq<Primitive>)

  class OpenGLCanvas {
    const model: Model
    const toggleButton: Button
    var isOpenGLInitialized: bool
    var isControlPanelVisible: bool
    /** The positions of the control panel's widgets. */
    var zoomSliderValue: int
    var rotationSliderValue: int
    var showTriangleChecked: bool

    /**
     * The controller's invariant: graphics and the button were initialised
     * exactly once if at all, the texture can only have loaded after that, and
     * the model mirrors the control panel's widgets, so its zoom lies in
     * [0.1, 3.0] and its centre is consistent.
     */
    ghost predicate Valid()
      reads this, model, toggleButton
    {
      model.Valid() &&
      toggleButton.initializeCalls == (if isOpenGLInitialized then 1 else 0) &&
      (toggleButton.textureLoaded ==> isOpenGLInitialized) &&
      toggleButton.x == ToggleButtonX && toggleButton.y == ToggleButtonY &&
      toggleButton.width == ToggleButtonWidth && toggleButton.height == ToggleButtonHeight &&
      ZoomSliderMin <= zoomSliderValue <= ZoomSliderMax &&
      model.zoomLevel == ZoomFromSlider(zoomSliderValue) &&
      RotationSliderMin <= rotationSliderValue <= RotationSliderMax &&
      model.rotationAngle == rotationSliderValue as real &&
      model.showTriangle == showTriangleChecked
    }

    constructor ()
      ensures Valid() && fresh(model) && fresh(toggleButton)
      ensures !isOpenGLInitialized && !isControlPanelVisible && !toggleButton.textureLoaded
      ensures model.State() == DefaultState()
      ensures zoomSliderValue == 100 && rotationSliderValue == 0 && showTriangleChecked
    {
      var m := new Model();
      var zoom := m.GetZoomLevel();
      model := m;
      isOpenGLInitialized := false;
      isControlPanelVisible := false;
      zoomSliderValue := SliderFromZoom(zoom);
      rotationSliderValue := 0;
      showTriangleChecked := true;
      toggleButton := new Button(ToggleButtonX, ToggleButtonY, ToggleButtonWidth, ToggleButtonHeight);
      SliderZoomRoundTrip(100);
    }

    /** Everything drawn in one frame, from the current state. */
    function RenderScene(): (frame: Frame)
      reads this, model, toggleButton
      // the scene is drawn scaled by the zoom; the button is drawn unscaled, and only once its texture loaded
      ensures frame.zoom == model.zoomLevel
      ensures Valid() ==> 0.1 <= frame.zoom <= 3.0
      ensures |frame.scene| == (if model.showTriangle then 3 else 2)
      ensures frame.overlay == [] <==> !toggleButton.textureLoaded
      // scene items in order, then the button
      ensures frame.scene == SceneItems(model.State()) && frame.overlay == toggleButton.Render()
    {
      Frame(model.zoomLevel, SceneItems(model.State()), toggleButton.Render())
    }

    /**
     * The first paint initialises graphics and loads the button texture; later
     * paints only draw. `failing` is what the texture load would meet.
     */
    method OnPaint(failing: set<LoadStep>) returns (frame: Frame)
      requires Valid()
      modifies this`isOpenGLInitialized, toggleButton`textureLoaded, toggleButton`initializeCalls
      ensures Valid() && isOpenGLInitialized && toggleButton.initializeCalls == 1
      ensures toggleButton.initializeCalls
              == old(toggleButton.initializeCalls) + (if old(isOpenGLInitialized) then 0 else 1)
      ensures toggleButton.textureLoaded
              == if old(isOpenGLInitialized) then old(toggleButton.textureLoaded) else failing == {}
      ensures frame == RenderScene()
      ensures frame.overlay != [] <==> toggleButton.textureLoaded
    {
      if !isOpenGLInitialized {
        isOpenGLInitialized := true;
        toggleButton.Initialize(failing);
      }
      frame := RenderScene();
    }

    /** A size change reaches the model only once graphics are initialised. */
    method OnSize(clientWidth: int, clientHeight: int)
      requires Valid()
      modifies model`width, model`height, model`cx, model`cy
      ensures Valid()
      ensures isOpenGLInitialized ==>
                model.width == clientWidth && model.height == clientHeight &&
                model.cx == clientWidth as real / (2.0 * model.zoomLevel) &&
                model.cy == clientHeight as real / (2.0 * model.zoomLevel)
      ensures !isOpenGLInitialized ==> model.State() == old(model.State())
    {
      if isOpenGLInitialized {
        model.SetSize(clientWidth, clientHeight);
      }
    }

    /** A click inside the toggle button flips the control panel; any other click does nothing. */
    method OnMouseClick(mouseX: int, mouseY: int)
      requires Valid()
      modifies this`isControlPanelVisible
      ensures Valid()
      ensures isControlPanelVisible
              == (old(isControlPanelVisible) != Hit(ToggleButtonX, ToggleButtonY, ToggleButtonWidth, ToggleButtonHeight, mouseX as real, mouseY as real))
    {
      var fired := toggleButton.CheckClick(mouseX as real, mouseY as real);
      if fired {
        ToggleControlPanel();
      }
    }

    method ToggleControlPanel()
      modifies this`isControlPanelVisible
      ensures isControlPanelVisible == !old(isControlPanelVisible)
    {
      isControlPanelVisible := !isControlPanelVisible;
    }

    /** The zoom slider moved to `value`: the zoom becomes value / 100. */
    method OnZoomSlider(value: int)
      requires Valid()
      requires ZoomSliderMin <= value <= ZoomSliderMax
      modifies this`zoomSliderValue, model`zoomLevel, model`cx, model`cy
      ensures Valid() && zoomSliderValue == value
      ensures model.zoomLevel * 100.0 == value as real && 0.1 <= model.zoomLevel <= 3.0
      ensures model.cx == model.width as real / (2.0 * model.zoomLevel)
      ensures model.cy == model.height as real / (2.0 * model.zoomLevel)
    {
      zoomSliderValue := value;
      model.SetZoomLevel(ZoomFromSlider(value));
    }

    /** The rotation slider moved to `value`: the angle becomes value degrees. */
    method OnRotationSlider(value: int)
      requires Valid()
      requires RotationSliderMin <= value <= RotationSliderMax
      modifies this`rotationSliderValue, model`rotationAngle
      ensures Valid() && rotationSliderValue == value
      ensures model.rotationAngle == value as real && 0.0 <= model.rotationAngle <= 360.0
    {
      rotationSliderValue := value;
      model.SetRotationAngle(value as real);
    }

    /** The "Show Triangle" checkbox changed to `checked`. */
    method OnShowTriangleCheckbox(checked: bool)
      requires Valid()
      modifies this`showTriangleChecked, model`showTriangle
      ensures Valid() && showTriangleChecked == checked
      ensures model.showTriangle == checked
      ensures checked <==> RenderScene().scene != [] && RenderScene().scene[0].Triangles?
    {
      showTriangleChecked := checked;
      model.SetShowTriangle(checked);
    }
  }

  /** Toggling the control panel twice restores its visibility. */
  method ToggleTwiceRestores(canvas: OpenGLCanvas)
    modifies canvas`isControlPanelVisible
    ensures canvas.isControlPanelVisible == old(canvas.isControlPanelVisible)
  {
    canvas.ToggleControlPanel();
    canvas.ToggleControlPanel();
  }

  /** A second paint never retries the texture load: only the first paint's outcome counts. */
  method RepaintNeverReloads(canvas: OpenGLCanvas, first: set<LoadStep>, second: set<LoadStep>)
    requires canvas.Valid() && !canvas.isOpenGLInitialized
    modifies canvas`isOpenGLInitialized, canvas.toggleButton`textureLoaded, canvas.toggleButton`initializeCalls
    ensures canvas.Valid() && canvas.toggleButton.initializeCalls == 1
    ensures canvas.toggleButton.textureLoaded == (first == {})
  {
    var _ := canvas.OnPaint(first);
    var _ := canvas.OnPaint(second);
  }

  /**
   * A size event that arrives before the first paint is not recorded: the
   * model keeps its old size until the next size event.
   */
  method SizeBeforeFirstPaintIsDropped(canvas: OpenGLCanvas, clientWidth: int, clientHeight: int, failing: set<LoadStep>)
    requires canvas.Valid() && !canvas.isOpenGLInitialized
    modifies canvas`isOpenGLInitialized, canvas.toggleButton`textureLoaded, canvas.toggleButton`initializeCalls
    modifies canvas.model`width, canvas.model`height, canvas.model`cx, canvas.model`cy
    ensures canvas.Valid() && canvas.isOpenGLInitialized
    ensures canvas.model.State() == old(canvas.model.State())
  {
    canvas.OnSize(clientWidth, clientHeight);
    var _ := canvas.OnPaint(failing);
  }
}
