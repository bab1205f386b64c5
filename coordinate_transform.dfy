/** The world-to-canvas map: origin at the canvas centre, `scale` pixels per
    metre, and the y axis flipped because canvas y grows downwards. */
module CoordinateTransform {
  import opened Geometry
  import Config

  /** The three fields the transformer sets once, in its constructor. */
  datatype Transformer = Transformer(centerX: real, centerY: real, scale: real)

  /** The transformer for a canvas of the given size; the world origin lands on
      the canvas centre. */
  function NewTransformer(canvasWidth: real, canvasHeight: real, scale: real): (t: Transformer)
    ensures WorldToCanvas(t, 0.0, 0.0) == Point(canvasWidth / 2.0, canvasHeight / 2.0)
    ensures t.scale == scale
  {
    Transformer(canvasWidth / 2.0, canvasHeight / 2.0, scale)
  }

  /** The pixel at which world point (x, y) is drawn. For a non-zero scale the
      world point can be read back from the pixel's offset from the centre. */
  function WorldToCanvas(t: Transformer, x: real, y: real): (p: Point)
    ensures t.scale != 0.0 ==> (p.x - t.centerX) / t.scale == x && (t.centerY - p.y) / t.scale == y
  {
    var p := Point(t.centerX + x * t.scale, t.centerY - y * t.scale);
    if t.scale != 0.0 then
      assert p.x - t.centerX == x * t.scale;
      assert t.centerY - p.y == y * t.scale;
      ScaleThenUnscale(x, t.scale);
      ScaleThenUnscale(y, t.scale);
      p
    else
      p
  }

  lemma ScaleThenUnscale(a: real, s: real)
    requires s != 0.0
    ensures (a * s) / s == a
  {
  }

  /** The inverse map, from a pixel back to the world point drawn there. */
  function CanvasToWorld(t: Transformer, p: Point): (w: Point)
    requires t.scale != 0.0
    ensures WorldToCanvas(t, w.x, w.y) == p
  {
    var u, v := Unscale(p.x - t.centerX, t.scale), Unscale(t.centerY - p.y, t.scale);
    assert t.centerX + u * t.scale == p.x;
    assert t.centerY - v * t.scale == p.y;
    Point(u, v)
  }

  /** A pixel offset divided back into metres. */
  function Unscale(a: real, s: real): (u: real)
    requires s != 0.0
    ensures u * s == a
  {
    a / s
  }

  /** With the transformer built from a canvas size, canvas x is half the width
      plus the scaled world x, and canvas y is half the height minus the scaled
      world y. */
  lemma ConfiguredMap(canvasWidth: real, canvasHeight: real, scale: real, x: real, y: real)
    ensures WorldToCanvas(NewTransformer(canvasWidth, canvasHeight, scale), x, y)
         == Point(canvasWidth / 2.0 + x * scale, canvasHeight / 2.0 - y * scale)
  {
    var t := NewTransformer(canvasWidth, canvasHeight, scale);
    assert t == Transformer(canvasWidth / 2.0, canvasHeight / 2.0, scale);
  }

  /** Mapping to the canvas and back gives the world point again. */
  lemma RoundTrip(t: Transformer, x: real, y: real)
    requires t.scale != 0.0
    ensures CanvasToWorld(t, WorldToCanvas(t, x, y)) == Point(x, y)
  {
    var p := WorldToCanvas(t, x, y);
    assert p.x - t.centerX == x * t.scale;
    assert t.centerY - p.y == y * t.scale;
  }

  /** For a non-zero scale, different world points are drawn at different pixels. */
  lemma Injective(t: Transformer, x1: real, y1: real, x2: real, y2: real)
    requires t.scale != 0.0
    requires WorldToCanvas(t, x1, y1) == WorldToCanvas(t, x2, y2)
    ensures x1 == x2 && y1 == y2
  {
    RoundTrip(t, x1, y1);
    RoundTrip(t, x2, y2);
  }

  /** For a positive scale, moving right in the world moves right on the canvas,
      and moving up in the world moves up the canvas (to smaller pixel y). */
  lemma Orientation(t: Transformer, x1: real, y1: real, x2: real, y2: real)
    requires t.scale > 0.0
    ensures x1 < x2 <==> WorldToCanvas(t, x1, y1).x < WorldToCanvas(t, x2, y2).x
    ensures y1 < y2 <==> WorldToCanvas(t, x1, y1).y > WorldToCanvas(t, x2, y2).y
  {
    var a, b := WorldToCanvas(t, x1, y1), WorldToCanvas(t, x2, y2);
    assert a == Point(t.centerX + x1 * t.scale, t.centerY - y1 * t.scale);
    assert b == Point(t.centerX + x2 * t.scale, t.centerY - y2 * t.scale);
    ShiftedOrder(t.centerX, x1, x2, t.scale);
    ShiftedOrder(t.centerY, y1, y2, t.scale);
    assert x1 < x2 <==> a.x < b.x;
    assert y1 < y2 <==> a.y > b.y;
  }

  /** Adding a scaled value keeps its order; subtracting it reverses it. */
  lemma ShiftedOrder(c: real, u: real, v: real, s: real)
    requires s > 0.0
    ensures u < v <==> c + u * s < c + v * s
    ensures u < v <==> c - u * s > c - v * s
  {
    ScaledOrder(u, v, s);
  }

  /** Multiplying by a positive scale keeps the order. */
  lemma ScaledOrder(u: real, v: real, s: real)
    requires s > 0.0
    ensures u < v <==> u * s < v * s
  {
    if u < v {
      assert (v - u) * s > 0.0;
      assert v * s - u * s == (v - u) * s;
    } else {
      assert (u - v) * s >= 0.0;
      assert u * s - v * s == (u - v) * s;
    }
  }

  /** One metre along world x is `scale` pixels along canvas x; one metre along
      world y is `scale` pixels up the canvas. */
  lemma UnitStep(t: Transformer, x: real, y: real)
    ensures WorldToCanvas(t, x + 1.0, y).x == WorldToCanvas(t, x, y).x + t.scale
    ensures WorldToCanvas(t, x, y + 1.0).y == WorldToCanvas(t, x, y).y - t.scale
  {
  }

  /** With the configured 800 x 800 canvas and 100 pixels per metre, the grid's
      corners (-4, 4) and (4, -4) are exactly the canvas corners. */
  lemma GridRangeFillsCanvas()
    ensures var t := NewTransformer(Config.WIDTH, Config.HEIGHT, Config.SCALE);
            && WorldToCanvas(t, -Config.GRID_RANGE, Config.GRID_RANGE) == Point(0.0, 0.0)
            && WorldToCanvas(t, Config.GRID_RANGE, -Config.GRID_RANGE) == Point(Config.WIDTH, Config.HEIGHT)
  {
  }
}
