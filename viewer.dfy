/** The page's module-level state and its event handlers: the click handler,
    the cube rotation, one iteration of the frame loop, and the resize
    handler. */
module Viewer {
  import opened Selection
  import opened Layout
  import opened Animation
  import opened Rendering
  import opened Session

  /** An event the page reacts to: a click at a pixel position of the window,
      or the browser's call of the frame loop. */
  datatype PageEvent = ClickAt(clientX: real, clientY: real) | AnimationFrame

  /** The run inputs the events amount to, for a window of the given size.
      The hit test is indexed by the event's position, because the primary
      camera that casts the ray may have moved between two clicks: a click
      becomes a hit exactly when the ray through its normalised coordinates
      meets the screen at that moment. */
  function AsInputs(events: seq<PageEvent>, innerWidth: nat, innerHeight: nat,
                    hitsScreen: (nat, real, real) -> bool): seq<Input>
    requires innerWidth > 0 && innerHeight > 0
    decreases |events|
  {
    if events == [] then []
    else
      var index: nat := |events| - 1;
      AsInputs(events[..index], innerWidth, innerHeight, hitsScreen)
        + [AsInput(events[index], innerWidth, innerHeight, (x, y) => hitsScreen(index, x, y))]
  }

  function AsInput(event: PageEvent, innerWidth: nat, innerHeight: nat,
                   hitsScreen: (real, real) -> bool): Input
    requires innerWidth > 0 && innerHeight > 0
  {
    match event
    case ClickAt(x, y) => Click(hitsScreen(NdcX(x, innerWidth), NdcY(y, innerHeight)))
    case AnimationFrame => Frame
  }

  /** The last click position in normalised device coordinates after the
      events, starting from `mouse`; frames leave it alone. */
  function MouseAfter(events: seq<PageEvent>, innerWidth: nat, innerHeight: nat,
                      mouse: (real, real)): (real, real)
    requires innerWidth > 0 && innerHeight > 0
    decreases |events|
  {
    if events == [] then mouse
    else match events[|events| - 1]
      case ClickAt(x, y) => (NdcX(x, innerWidth), NdcY(y, innerHeight))
      case AnimationFrame => MouseAfter(events[..|events| - 1], innerWidth, innerHeight, mouse)
  }

  /** A sequence of events without a click leaves the stored position as it
      was. */
  lemma {:induction false} MouseKeptWithoutClick(events: seq<PageEvent>, innerWidth: nat, innerHeight: nat,
                                                  mouse: (real, real))
    requires innerWidth > 0 && innerHeight > 0
    requires forall j :: 0 <= j < |events| ==> events[j].AnimationFrame?
    ensures MouseAfter(events, innerWidth, innerHeight, mouse) == mouse
    decreases |events|
  {
    if events != [] {
      var front := events[..|events| - 1];
      assert forall j :: 0 <= j < |front| ==> front[j] == events[j];
      MouseKeptWithoutClick(front, innerWidth, innerHeight, mouse);
    }
  }

  /** After a click followed only by frames, the stored position is that
      click's, whatever came before. */
  lemma {:induction false} MouseAtLastClick(events: seq<PageEvent>, innerWidth: nat, innerHeight: nat,
                                             mouse: (real, real), last: nat)
    requires innerWidth > 0 && innerHeight > 0
    requires last < |events| && events[last].ClickAt?
    requires forall k :: last < k < |events| ==> events[k].AnimationFrame?
    ensures MouseAfter(events, innerWidth, innerHeight, mouse)
         == (NdcX(events[last].clientX, innerWidth), NdcY(events[last].clientY, innerHeight))
    decreases |events|
  {
    if last < |events| - 1 {
      var front := events[..|events| - 1];
      assert forall k :: 0 <= k < |front| ==> front[k] == events[k];
      MouseAtLastClick(front, innerWidth, innerHeight, mouse, last);
    }
  }

  /** Extending the handled prefix by the event at position i. */
  lemma EventsExtendedByOne(events: seq<PageEvent>, i: nat, innerWidth: nat, innerHeight: nat,
                            hitsScreen: (nat, real, real) -> bool, mouse: (real, real))
    requires innerWidth > 0 && innerHeight > 0 && i < |events|
    ensures AsInputs(events[..i + 1], innerWidth, innerHeight, hitsScreen)
         == AsInputs(events[..i], innerWidth, innerHeight, hitsScreen)
            + [match events[i]
               case ClickAt(x, y) => Click(hitsScreen(i, NdcX(x, innerWidth), NdcY(y, innerHeight)))
               case AnimationFrame => Frame]
    ensures MouseAfter(events[..i + 1], innerWidth, innerHeight, mouse)
         == match events[i]
            case ClickAt(x, y) => (NdcX(x, innerWidth), NdcY(y, innerHeight))
            case AnimationFrame => MouseAfter(events[..i], innerWidth, innerHeight, mouse)
  {
    assert events[..i + 1][..i] == events[..i];
    assert events[..i + 1][i] == events[i];
  }

  class ViewerState {
    /** The renderer that every pass goes through. */
    const renderer: Renderer

    /** Projection of the user-driven camera; the resize handler rewrites its aspect. */
    var primary: Projection
    /** Projections of the three surveillance cameras, fixed at start-up. */
    const secondary1: Projection
    const secondary2: Projection
    const secondary3: Projection

    /** Pixel sizes of the three offscreen render targets. */
    const target2Size: Size
    const target3Size: Size
    const target4Size: Size
    /** The render target sampled by the clickable screen's material. */
    const screenTexture: Target

    /** The camera whose feed goes into the clickable screen. */
    var selectedCamera: Camera
    /** The last click in normalised device coordinates. */
    var mouseX: real
    var mouseY: real

    /** The cube's rotation about its vertical axis, with its step and limit. */
    var cubeRotationY: real
    const rotationSpeed: real
    const maxRotation: real

    ghost predicate Valid()
      reads this, renderer
    {
      renderer.Valid() && selectedCamera.IsSecondary() && rotationSpeed > 0.0
    }

    /** Scene set-up for a window of the given size; `maxRotation` stands for
        2 pi, which has no exact value here. */
    constructor (innerWidth: nat, innerHeight: nat, maxRotation: real)
      requires innerHeight > 0
      ensures Valid() && fresh(renderer)
      ensures renderer.trace == [] && renderer.target == Display
      ensures renderer.width == innerWidth && renderer.height == innerHeight
      ensures primary == Perspective(innerWidth as real / innerHeight as real)
      ensures secondary1 == secondary2 == secondary3 == Perspective(Aspect(TargetPlaneSize))
      ensures target2Size == target3Size == target4Size == RenderTargetSize(TargetPlaneSize)
      ensures screenTexture == RenderTarget2
      ensures selectedCamera == InitialSelection
      ensures mouseX == 0.0 && mouseY == 0.0
      ensures cubeRotationY == 0.0 && rotationSpeed == RotationSpeed && this.maxRotation == maxRotation
    {
      renderer := new Renderer(innerWidth, innerHeight);
      primary := Perspective(innerWidth as real / innerHeight as real);
      target2Size := RenderTargetSize(TargetPlaneSize);
      target3Size := RenderTargetSize(TargetPlaneSize);
      target4Size := RenderTargetSize(TargetPlaneSize);
      secondary1 := Perspective(Aspect(TargetPlaneSize));
      secondary2 := Perspective(Aspect(TargetPlaneSize));
      secondary3 := Perspective(Aspect(TargetPlaneSize));
      screenTexture := RenderTarget2;
      selectedCamera := InitialSelection;
      mouseX, mouseY := 0.0, 0.0;
      cubeRotationY := 0.0;
      rotationSpeed := RotationSpeed;
      this.maxRotation := maxRotation;
    }

    /** The click handler. `hitsScreen` is the ray cast from the primary
        camera through a point in normalised device coordinates against the
        clickable screen: true when the ray meets it. */
    method Click(clientX: real, clientY: real, innerWidth: nat, innerHeight: nat,
                 hitsScreen: (real, real) -> bool)
      requires Valid()
      requires innerWidth > 0 && innerHeight > 0
      modifies this`mouseX, this`mouseY, this`selectedCamera
      ensures Valid()
      ensures mouseX == NdcX(clientX, innerWidth) && mouseY == NdcY(clientY, innerHeight)
      ensures selectedCamera == if hitsScreen(mouseX, mouseY) then NextCamera(old(selectedCamera))
                                else old(selectedCamera)
    {
      mouseX := (clientX / innerWidth as real) * 2.0 - 1.0;
      mouseY := -(clientY / innerHeight as real) * 2.0 + 1.0;
      var intersects := hitsScreen(mouseX, mouseY);
      if intersects {
        if selectedCamera == SecondaryCam1 {
          selectedCamera := SecondaryCam2;
        } else if selectedCamera == SecondaryCam2 {
          selectedCamera := SecondaryCam3;
        } else {
          selectedCamera := SecondaryCam1;
        }
      }
    }

    /** One rotation step of the cube. */
    method RotateCube()
      requires Valid()
      modifies this`cubeRotationY
      ensures Valid()
      ensures cubeRotationY == RotateStep(old(cubeRotationY), rotationSpeed, maxRotation)
    {
      if cubeRotationY < maxRotation {
        cubeRotationY := cubeRotationY + rotationSpeed;
      } else {
        cubeRotationY := maxRotation;
      }
    }

    /** One iteration of the frame loop: rotate the cube, draw the three
        offscreen feeds, reset to the display and draw the primary view. */
    method GameLoop()
      requires Valid()
      modifies this`cubeRotationY, renderer`target, renderer`trace
      ensures Valid()
      ensures cubeRotationY == RotateStep(old(cubeRotationY), rotationSpeed, maxRotation)
      ensures selectedCamera == old(selectedCamera)
      ensures renderer.trace == old(renderer.trace) + FrameEvents(selectedCamera)
      ensures renderer.target == Display
    {
      RotateCube();

      renderer.Pass(RenderTarget2, selectedCamera);
      renderer.Pass(RenderTarget3, SecondaryCam3);
      renderer.Pass(RenderTarget4, SecondaryCam2);
      renderer.Pass(Display, PrimaryCamera);
    }

    /** The resize handler: the primary aspect follows the window, and the
        renderer size becomes the window's size. */
    method OnWindowResize(innerWidth: nat, innerHeight: nat)
      requires Valid()
      requires innerHeight > 0
      modifies this`primary, renderer`width, renderer`height
      ensures Valid()
      ensures primary == old(primary).(aspect := innerWidth as real / innerHeight as real)
      ensures renderer.width == innerWidth && renderer.height == innerHeight
    {
      primary := primary.(aspect := innerWidth as real / innerHeight as real);
      renderer.SetSize(innerWidth, innerHeight);
    }

    /** The browser handing one event to its handler: a click to `Click`, a
        frame to `GameLoop`. */
    method Handle(event: PageEvent, innerWidth: nat, innerHeight: nat,
                  hitsScreen: (real, real) -> bool)
      requires Valid()
      requires innerWidth > 0 && innerHeight > 0
      modifies this`mouseX, this`mouseY, this`selectedCamera, this`cubeRotationY,
               renderer`target, renderer`trace
      ensures Valid()
      ensures (mouseX, mouseY)
           == MouseAfter([event], innerWidth, innerHeight, (old(mouseX), old(mouseY)))
      ensures var input := AsInput(event, innerWidth, innerHeight, hitsScreen);
        && selectedCamera == (if input == Input.Click(true) then NextCamera(old(selectedCamera))
                              else old(selectedCamera))
        && renderer.trace == old(renderer.trace)
                             + (if input == Frame then FrameEvents(old(selectedCamera)) else [])
        && cubeRotationY == (if input == Frame then RotateStep(old(cubeRotationY), rotationSpeed, maxRotation)
                             else old(cubeRotationY))
    {
      match event {
        case ClickAt(x, y) =>
          Click(x, y, innerWidth, innerHeight, hitsScreen);
        case AnimationFrame =>
          GameLoop();
      }
    }

    /** The page's event handling over a whole session: each event is handed
        to its handler in arrival order. The selection and the renderer calls
        are those of the run the events amount to, and the cube has taken one
        step per frame. */
    method Dispatch(events: seq<PageEvent>, innerWidth: nat, innerHeight: nat,
                    hitsScreen: (nat, real, real) -> bool)
      requires Valid()
      requires innerWidth > 0 && innerHeight > 0
      modifies this`mouseX, this`mouseY, this`selectedCamera, this`cubeRotationY,
               renderer`target, renderer`trace
      ensures Valid()
      ensures selectedCamera
           == SelectionAfter(old(selectedCamera), AsInputs(events, innerWidth, innerHeight, hitsScreen))
      ensures renderer.trace
           == old(renderer.trace) + TraceOf(old(selectedCamera), AsInputs(events, innerWidth, innerHeight, hitsScreen))
      ensures cubeRotationY
           == Rotated(old(cubeRotationY), rotationSpeed, maxRotation,
                      FrameCount(AsInputs(events, innerWidth, innerHeight, hitsScreen)))
      ensures (mouseX, mouseY)
           == MouseAfter(events, innerWidth, innerHeight, (old(mouseX), old(mouseY)))
    {
      ghost var selected0, trace0, rotation0 := selectedCamera, renderer.trace, cubeRotationY;
      ghost var mouse0 := (mouseX, mouseY);
      ghost var done: seq<Input> := [];
      var i := 0;
      while i < |events|
        invariant 0 <= i <= |events|
        invariant done == AsInputs(events[..i], innerWidth, innerHeight, hitsScreen)
        invariant Valid()
        invariant selectedCamera == SelectionAfter(selected0, done)
        invariant renderer.trace == trace0 + TraceOf(selected0, done)
        invariant cubeRotationY == Rotated(rotation0, rotationSpeed, maxRotation, FrameCount(done))
        invariant (mouseX, mouseY) == MouseAfter(events[..i], innerWidth, innerHeight, mouse0)
      {
        var event := events[i];
        var hitsNow := (x, y) => hitsScreen(i, x, y);
        ghost var input := AsInput(event, innerWidth, innerHeight, hitsNow);
        EventsExtendedByOne(events, i, innerWidth, innerHeight, hitsScreen, mouse0);
        RunExtendedByOne(selected0, done, input);
        RotatedExtendedByOne(rotation0, rotationSpeed, maxRotation, FrameCount(done));
        Handle(event, innerWidth, innerHeight, hitsNow);
        done := done + [input];
        i := i + 1;
      }
      assert events[..i] == events;
    }
  }
}
