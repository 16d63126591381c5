/** The view state (zoom factor and pan offset), the map from pixels to the
    complex plane, and the scroll handler that zooms towards the cursor. */
module View {
  import opened Plane

  /** The affine map from a pixel (px, py) of a width x height frame to the
      complex plane: the real axis spans 1.5 * 2 / zoom across the width, the
      imaginary axis 2 / zoom across the height, and the frame centre lands on
      the offset. The map can be undone, so distinct pixels get distinct
      points. */
  function MapPixel(zoom: real, offsetX: real, offsetY: real, px: real, py: real, width: int, height: int): (p: Complex)
    requires zoom > 0.0 && width > 0 && height > 0
    ensures px == width as real / 2.0 + (p.re - offsetX) * zoom * width as real / 3.0
    ensures py == height as real / 2.0 + (p.im - offsetY) * zoom * height as real / 2.0
  {
    var w, h := width as real, height as real;
    var re := 1.5 * (px - w / 2.0) / (0.5 * zoom * w) + offsetX;
    var im := (py - h / 2.0) / (0.5 * zoom * h) + offsetY;
    assert (re - offsetX) * (0.5 * zoom * w) == 1.5 * (px - w / 2.0);
    assert (im - offsetY) * (0.5 * zoom * h) == py - h / 2.0;
    Complex(re, im)
  }

  /** The centre of the frame maps exactly to the offset. */
  lemma CentreMapsToOffset(zoom: real, offsetX: real, offsetY: real, width: int, height: int)
    requires zoom > 0.0 && width > 0 && height > 0
    ensures MapPixel(zoom, offsetX, offsetY, width as real / 2.0, height as real / 2.0, width, height)
            == Complex(offsetX, offsetY)
  {
    var p := MapPixel(zoom, offsetX, offsetY, width as real / 2.0, height as real / 2.0, width, height);
    assert (p.re - offsetX) * (zoom * width as real) == 0.0;
    assert (p.im - offsetY) * (zoom * height as real) == 0.0;
  }

  /** One pixel to the right adds 3 / (zoom * width) to the real part, one
      pixel down adds 2 / (zoom * height) to the imaginary part. */
  lemma MapPixelStep(zoom: real, offsetX: real, offsetY: real, px: real, py: real, width: int, height: int)
    requires zoom > 0.0 && width > 0 && height > 0
    ensures MapPixel(zoom, offsetX, offsetY, px + 1.0, py, width, height).re
            == MapPixel(zoom, offsetX, offsetY, px, py, width, height).re + 3.0 / (zoom * width as real)
    ensures MapPixel(zoom, offsetX, offsetY, px, py + 1.0, width, height).im
            == MapPixel(zoom, offsetX, offsetY, px, py, width, height).im + 2.0 / (zoom * height as real)
  {
    var p := MapPixel(zoom, offsetX, offsetY, px, py, width, height);
    var qx := MapPixel(zoom, offsetX, offsetY, px + 1.0, py, width, height);
    var qy := MapPixel(zoom, offsetX, offsetY, px, py + 1.0, width, height);
    var zw, zh := zoom * width as real, zoom * height as real;
    assert (qx.re - p.re) * zw == 3.0;
    assert (qy.im - p.im) * zh == 2.0;
  }

  /** The map is strictly increasing along both axes. */
  lemma MapPixelIsIncreasing(zoom: real, offsetX: real, offsetY: real, px: real, py: real, qx: real, qy: real, width: int, height: int)
    requires zoom > 0.0 && width > 0 && height > 0
    ensures px < qx ==> MapPixel(zoom, offsetX, offsetY, px, py, width, height).re
                        < MapPixel(zoom, offsetX, offsetY, qx, qy, width, height).re
    ensures py < qy ==> MapPixel(zoom, offsetX, offsetY, px, py, width, height).im
                        < MapPixel(zoom, offsetX, offsetY, qx, qy, width, height).im
  {
    var p := MapPixel(zoom, offsetX, offsetY, px, py, width, height);
    var q := MapPixel(zoom, offsetX, offsetY, qx, qy, width, height);
    var zw, zh := zoom * width as real, zoom * height as real;
    assert zw > 0.0 && zh > 0.0;
    assert (q.re - p.re) * zw == 3.0 * (qx - px);
    assert (q.im - p.im) * zh == 2.0 * (qy - py);
  }

  /** Scaling a denominator by s scales the quotient by 1/s. */
  lemma ScaledDenominator(n: real, d: real, s: real)
    requires d != 0.0 && s != 0.0
    ensures n / (d * s) == (n / d) / s
  {
    var q := n / d;
    assert q * d == n;
    assert (q / s) * (d * s) == n;
  }

  /** The zoom after one scroll event: times 1.1 for a positive wheel offset,
      divided by 1.1 otherwise (a zero offset zooms out). */
  function ZoomAfter(zoom: real, yoffset: real): (z: real)
    requires zoom > 0.0
    ensures z > 0.0
    ensures z > zoom <==> yoffset > 0.0
  {
    if yoffset > 0.0 then zoom * 1.1 else zoom / 1.1
  }

  /** Scrolling in and then out, or out and then in, restores the zoom. */
  lemma ZoomInOutRestores(zoom: real, up: real, down: real)
    requires zoom > 0.0 && up > 0.0 && down <= 0.0
    ensures ZoomAfter(ZoomAfter(zoom, up), down) == zoom
    ensures ZoomAfter(ZoomAfter(zoom, down), up) == zoom
  {
  }

  /** The scale factor the scroll handler applies to the anchor-to-offset
      vector, written as the source writes it: the new zoom over the new zoom
      divided by 1.1. */
  function OffsetRatio(newZoom: real): real
    requires newZoom != 0.0
  {
    newZoom / (newZoom / 1.1)
  }

  /** Whatever the zoom, and so whichever way the wheel turned, the ratio is
      the constant 1.1. */
  lemma OffsetRatioIsConstant(newZoom: real)
    requires newZoom != 0.0
    ensures OffsetRatio(newZoom) == 1.1
  {
    var q := newZoom / 1.1;
    assert q * 1.1 == newZoom;
  }

  /** The new offset along one axis: the anchor minus the anchor-to-offset
      vector scaled by the ratio. It stays put exactly when the anchor is the
      old offset. */
  function ScrolledOffset(anchor: real, offset: real, newZoom: real): (r: real)
    requires newZoom != 0.0
    ensures r == anchor - (anchor - offset) * 1.1
    ensures r == offset <==> anchor == offset
  {
    OffsetRatioIsConstant(newZoom);
    anchor - (anchor - offset) * OffsetRatio(newZoom)
  }

  /** With the cursor at the frame centre the anchor is the offset itself, so
      a scroll changes the zoom and leaves both offsets where they were. */
  lemma CentredScrollKeepsOffsets(zoom: real, offsetX: real, offsetY: real, yoffset: real, width: int, height: int)
    requires zoom > 0.0 && width > 0 && height > 0
    ensures var a := MapPixel(zoom, offsetX, offsetY, width as real / 2.0, height as real / 2.0, width, height);
            var z := ZoomAfter(zoom, yoffset);
            ScrolledOffset(a.re, offsetX, z) == offsetX && ScrolledOffset(a.im, offsetY, z) == offsetY
  {
    CentreMapsToOffset(zoom, offsetX, offsetY, width, height);
  }

  /** After a zoom-out, the cursor's pixel coordinates map to the anchor
      again in the new view. */
  lemma ZoomOutKeepsCursorPoint(zoom: real, offsetX: real, offsetY: real, yoffset: real,
                                px: real, py: real, width: int, height: int)
    requires zoom > 0.0 && width > 0 && height > 0 && yoffset <= 0.0
    ensures var a := MapPixel(zoom, offsetX, offsetY, px, py, width, height);
            var z := ZoomAfter(zoom, yoffset);
            MapPixel(z, ScrolledOffset(a.re, offsetX, z), ScrolledOffset(a.im, offsetY, z), px, py, width, height) == a
  {
    var a := MapPixel(zoom, offsetX, offsetY, px, py, width, height);
    var z := ZoomAfter(zoom, yoffset);
    var w, h := width as real, height as real;
    assert z == zoom / 1.1;
    var kx, ky := 1.5 * (px - w / 2.0), py - h / 2.0;
    ScaledDenominator(kx, 0.5 * zoom * w, 1.0 / 1.1);
    ScaledDenominator(ky, 0.5 * zoom * h, 1.0 / 1.1);
    assert 0.5 * z * w == 0.5 * zoom * w * (1.0 / 1.1);
    assert 0.5 * z * h == 0.5 * zoom * h * (1.0 / 1.1);
    assert kx / (0.5 * z * w) == 1.1 * (kx / (0.5 * zoom * w));
    assert ky / (0.5 * z * h) == 1.1 * (ky / (0.5 * zoom * h));
  }

  /** After a zoom-in, the cursor's pixel coordinates map to the anchor minus
      21/110 of the anchor-to-offset vector, which is the anchor itself only
      when the cursor is at the frame centre. (The ratio that would map them
      to the anchor is 1/1.1 on zoom-in; the constant 1.1 is that ratio only on
      zoom-out.) */
  lemma ZoomInShiftsCursorPoint(zoom: real, offsetX: real, offsetY: real, yoffset: real,
                                px: real, py: real, width: int, height: int)
    requires zoom > 0.0 && width > 0 && height > 0 && yoffset > 0.0
    ensures var a := MapPixel(zoom, offsetX, offsetY, px, py, width, height);
            var z := ZoomAfter(zoom, yoffset);
            var b := MapPixel(z, ScrolledOffset(a.re, offsetX, z), ScrolledOffset(a.im, offsetY, z), px, py, width, height);
            && b.re == a.re - (a.re - offsetX) * (21.0 / 110.0)
            && b.im == a.im - (a.im - offsetY) * (21.0 / 110.0)
            && (b == a <==> px == width as real / 2.0 && py == height as real / 2.0)
  {
    var a := MapPixel(zoom, offsetX, offsetY, px, py, width, height);
    var z := ZoomAfter(zoom, yoffset);
    var b := MapPixel(z, ScrolledOffset(a.re, offsetX, z), ScrolledOffset(a.im, offsetY, z), px, py, width, height);
    var w, h := width as real, height as real;
    assert z == zoom * 1.1;
    var kx, ky := 1.5 * (px - w / 2.0), py - h / 2.0;
    ScaledDenominator(kx, 0.5 * zoom * w, 1.1);
    ScaledDenominator(ky, 0.5 * zoom * h, 1.1);
    assert 0.5 * z * w == 0.5 * zoom * w * 1.1;
    assert 0.5 * z * h == 0.5 * zoom * h * 1.1;
    ZoomInOneAxis(a.re, offsetX, kx / (0.5 * zoom * w), kx / (0.5 * z * w), b.re);
    ZoomInOneAxis(a.im, offsetY, ky / (0.5 * zoom * h), ky / (0.5 * z * h), b.im);
  }

  /** One axis of ZoomInShiftsCursorPoint: the cursor's term shrinks by 1.1
      while the offset moves by 1.1 times the anchor-to-offset vector. */
  lemma ZoomInOneAxis(anchor: real, offset: real, term: real, newTerm: real, moved: real)
    requires anchor == term + offset && newTerm * 1.1 == term
    requires moved == newTerm + (anchor - (anchor - offset) * 1.1)
    ensures moved == anchor - (anchor - offset) * (21.0 / 110.0)
    ensures moved == anchor <==> anchor == offset
  {
  }

  /** The view state the source keeps in three globals. */
  class Viewport {
    var zoom: real
    var offsetX: real
    var offsetY: real

    /** The zoom never reaches zero or below. */
    ghost predicate Valid()
      reads this
    {
      zoom > 0.0
    }

    /** The initial view: zoom 1, no offset. */
    constructor ()
      ensures Valid()
      ensures zoom == 1.0 && offsetX == 0.0 && offsetY == 0.0
    {
      zoom, offsetX, offsetY := 1.0, 0.0, 0.0;
    }

    /** scroll_callback: the cursor position and the framebuffer size, which
        the source asks the windowing library for, are parameters. A frame of
        zero width or height makes the cursor map divide by zero; the handler
        then changes nothing and reports that it did not handle the event. */
    method Scroll(yoffset: real, cursorX: real, cursorY: real, width: nat, height: nat) returns (handled: bool)
      requires Valid()
      modifies this
      ensures Valid()
      ensures handled <==> width > 0 && height > 0
      ensures !handled ==> zoom == old(zoom) && offsetX == old(offsetX) && offsetY == old(offsetY)
      ensures handled ==>
        var anchor := MapPixel(old(zoom), old(offsetX), old(offsetY), cursorX, cursorY, width, height);
        && zoom == ZoomAfter(old(zoom), yoffset)
        && offsetX == ScrolledOffset(anchor.re, old(offsetX), zoom)
        && offsetY == ScrolledOffset(anchor.im, old(offsetY), zoom)
    {
      if width == 0 || height == 0 {
        return false;
      }
      var anchor := MapPixel(zoom, offsetX, offsetY, cursorX, cursorY, width, height);
      if yoffset > 0.0 {
        zoom := zoom * 1.1;
      } else {
        zoom := zoom / 1.1;
      }
      OffsetRatioIsConstant(zoom);
      offsetX := anchor.re - (anchor.re - offsetX) * (zoom / (zoom / 1.1));
      offsetY := anchor.im - (anchor.im - offsetY) * (zoom / (zoom / 1.1));
      handled := true;
    }
  }
}
