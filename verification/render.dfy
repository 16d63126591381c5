/** The per-frame pixel loops of draw_mandelbrot and draw_julia. Each pixel's
    grey level is written to a width x height array where the source hands it
    to the graphics library. */
module Render {
  import opened Plane
  import opened Escape
  import opened View

  /** The constant draw_julia uses when none is passed: -0.7 + 0.27015i (the
      default value of DrawJulia's c). */
  const DefaultJuliaConstant := Complex(-0.7, 0.27015)

  /** The iteration bound both renderers use when none is passed (the default
      value of their maxIterations). */
  const DefaultMaxIterations := 100

  /** The grey level of pixel (x, y) of the Mandelbrot set. */
  ghost function MandelbrotPixel(zoom: real, offsetX: real, offsetY: real, x: int, y: int,
                                 width: int, height: int, maxIterations: int): real
    requires zoom > 0.0 && width > 0 && height > 0 && maxIterations != 0
  {
    var c := MapPixel(zoom, offsetX, offsetY, x as real, y as real, width, height);
    Color(EscapeCount(Zero, c, maxIterations), maxIterations)
  }

  /** The grey level of pixel (x, y) of the Julia set for constant c. */
  ghost function JuliaPixel(zoom: real, offsetX: real, offsetY: real, x: int, y: int,
                            width: int, height: int, c: Complex, maxIterations: int): real
    requires zoom > 0.0 && width > 0 && height > 0 && maxIterations != 0
  {
    var z := MapPixel(zoom, offsetX, offsetY, x as real, y as real, width, height);
    Color(EscapeCount(z, c, maxIterations), maxIterations)
  }

  /** draw_mandelbrot: every pixel gets the grey level of its point, used as
      c with z starting at 0. */
  method DrawMandelbrot(view: Viewport, width: nat, height: nat, maxIterations: int := DefaultMaxIterations) returns (frame: array2<real>)
    requires view.Valid()
    requires width > 0 && height > 0 ==> maxIterations != 0
    ensures fresh(frame) && frame.Length0 == width && frame.Length1 == height
    ensures forall x, y :: 0 <= x < width && 0 <= y < height ==>
      0.0 <= frame[x, y] <= 1.0
    ensures forall x, y :: 0 <= x < width && 0 <= y < height ==>
      frame[x, y] == MandelbrotPixel(view.zoom, view.offsetX, view.offsetY, x, y, width, height, maxIterations)
  {
    frame := new real[width, height];
    for x := 0 to width
      invariant forall i, j :: 0 <= i < x && 0 <= j < height ==>
        frame[i, j] == MandelbrotPixel(view.zoom, view.offsetX, view.offsetY, i, j, width, height, maxIterations)
    {
      for y := 0 to height
        invariant forall i, j :: 0 <= i < x && 0 <= j < height ==>
          frame[i, j] == MandelbrotPixel(view.zoom, view.offsetX, view.offsetY, i, j, width, height, maxIterations)
        invariant forall j :: 0 <= j < y ==>
          frame[x, j] == MandelbrotPixel(view.zoom, view.offsetX, view.offsetY, x, j, width, height, maxIterations)
      {
        var c := MapPixel(view.zoom, view.offsetX, view.offsetY, x as real, y as real, width, height);
        var iteration, _ := Iterate(Zero, c, maxIterations);
        frame[x, y] := Color(iteration, maxIterations);
      }
    }
  }

  /** draw_julia: every pixel gets the grey level of its point, used as the
      starting z with the fixed constant c. */
  method DrawJulia(view: Viewport, width: nat, height: nat, c: Complex := DefaultJuliaConstant,
                   maxIterations: int := DefaultMaxIterations) returns (frame: array2<real>)
    requires view.Valid()
    requires width > 0 && height > 0 ==> maxIterations != 0
    ensures fresh(frame) && frame.Length0 == width && frame.Length1 == height
    ensures forall x, y :: 0 <= x < width && 0 <= y < height ==>
      0.0 <= frame[x, y] <= 1.0
    ensures forall x, y :: 0 <= x < width && 0 <= y < height ==>
      frame[x, y] == JuliaPixel(view.zoom, view.offsetX, view.offsetY, x, y, width, height, c, maxIterations)
  {
    frame := new real[width, height];
    for x := 0 to width
      invariant forall i, j :: 0 <= i < x && 0 <= j < height ==>
        frame[i, j] == JuliaPixel(view.zoom, view.offsetX, view.offsetY, i, j, width, height, c, maxIterations)
    {
      for y := 0 to height
        invariant forall i, j :: 0 <= i < x && 0 <= j < height ==>
          frame[i, j] == JuliaPixel(view.zoom, view.offsetX, view.offsetY, i, j, width, height, c, maxIterations)
        invariant forall j :: 0 <= j < y ==>
          frame[x, j] == JuliaPixel(view.zoom, view.offsetX, view.offsetY, x, j, width, height, c, maxIterations)
      {
        var z0 := MapPixel(view.zoom, view.offsetX, view.offsetY, x as real, y as real, width, height);
        var iteration, _ := Iterate(z0, c, maxIterations);
        frame[x, y] := Color(iteration, maxIterations);
      }
    }
  }
}
