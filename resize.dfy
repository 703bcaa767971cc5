/**
  Window resize handling (javascript/three.js:162-166): the camera's aspect
  becomes the container's width over its height, and the drawing surface takes
  the container's size. Container sizes are whole CSS pixels.
 */
module Resize {
  import opened Three

  /**
    `clientWidth / clientHeight` as JavaScript computes it: a finite ratio when
    the height is positive, +Infinity for a zero height and a positive width,
    NaN when both are zero.
   */
  function AspectOf(width: nat, height: nat): (r: Ratio)
    ensures r.Finite? <==> height > 0
    ensures r.Finite? ==> r.value >= 0.0 && r.value * height as real == width as real
    ensures r == PositiveInfinity <==> height == 0 && width > 0
    ensures r == NaN <==> height == 0 && width == 0
  {
    if height > 0 then Finite(width as real / height as real)
    else if width > 0 then PositiveInfinity
    else NaN
  }

  /** Equal proportions give equal aspects: the aspect depends on the shape only. */
  lemma AspectScaleInvariant(width: nat, height: nat, k: nat)
    requires height > 0 && k > 0
    ensures AspectOf(k * width, k * height) == AspectOf(width, height)
  {
  }

  /** `onWindowResize` (lines 162-166). */
  method OnWindowResize(camera: PerspectiveCamera, renderer: WebGLRenderer, clientWidth: nat, clientHeight: nat)
    modifies camera, renderer
    ensures camera.aspect == AspectOf(clientWidth, clientHeight)
    ensures renderer.width == clientWidth && renderer.height == clientHeight
  {
    camera.aspect := AspectOf(clientWidth, clientHeight);
    renderer.width, renderer.height := clientWidth, clientHeight;
  }

  /** An 800 by 600 container gives an aspect of 4/3. */
  lemma AspectExample()
    ensures AspectOf(800, 600) == Finite(4.0 / 3.0)
  {
  }
}
