/** Sizes of the offscreen buffers and projection parameters of the cameras. */
module Layout {

  /** Texels allocated per world unit of the screen plane. */
  const TexelDensity: nat := 512

  /** A size in world units (the screen plane) or in pixels (a buffer). */
  datatype Size = Size(width: nat, height: nat)

  /** The in-world screen plane that shows the selected feed. */
  const TargetPlaneSize: Size := Size(6, 7)

  /** Pixel size of the render target allocated for a plane of the given size. */
  function RenderTargetSize(plane: Size): (pixels: Size)
    ensures pixels.width * plane.height == pixels.height * plane.width
    ensures pixels.width % TexelDensity == 0 && pixels.height % TexelDensity == 0
    ensures pixels.width / TexelDensity == plane.width && pixels.height / TexelDensity == plane.height
  {
    Size(plane.width * TexelDensity, plane.height * TexelDensity)
  }

  /** Width over height. */
  function Aspect(s: Size): real
    requires s.height > 0
  {
    s.width as real / s.height as real
  }

  /** The projection parameters of a perspective camera. */
  datatype Projection = Projection(fov: real, aspect: real, near: real, far: real)

  /** Field of view, near and far planes shared by every camera. */
  const CameraFov: real := 45.0
  const CameraNear: real := 0.1
  const CameraFar: real := 500.0

  /** A perspective camera with the shared settings and the given aspect. */
  function Perspective(aspect: real): Projection {
    Projection(CameraFov, aspect, CameraNear, CameraFar)
  }

  /** A buffer allocated for a plane has the plane's proportions, so a camera
      whose aspect is taken from the plane fills its buffer undistorted. */
  lemma {:induction false} BufferKeepsPlaneAspect(plane: Size)
    requires plane.height > 0
    ensures RenderTargetSize(plane).height > 0
    ensures Aspect(RenderTargetSize(plane)) == Aspect(plane)
  {
    var px := RenderTargetSize(plane);
    var d := TexelDensity as real;
    assert px.width as real == plane.width as real * d;
    assert px.height as real == plane.height as real * d;
    assert (plane.width as real * d) / (plane.height as real * d) == plane.width as real / plane.height as real;
  }

  /** The configured screen plane gives 3072 x 3584 buffers and aspect 6/7. */
  lemma ConfiguredSizes()
    ensures RenderTargetSize(TargetPlaneSize) == Size(3072, 3584)
    ensures Aspect(TargetPlaneSize) == 6.0 / 7.0
    ensures Aspect(RenderTargetSize(TargetPlaneSize)) == 6.0 / 7.0
  {
    BufferKeepsPlaneAspect(TargetPlaneSize);
  }
}
