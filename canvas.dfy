/** The parts of an HTML canvas and its 2D context that processImage touches: the
    `width` and `height` attributes, the bitmap behind them, drawing an image at the
    origin, and the list of transformations applied to the context. */
module Canvas2D {
  import opened JsValues

  /** The size a canvas has when it is created, and falls back to. */
  const DefaultWidth: nat := 300
  const DefaultHeight: nat := 150

  /** The largest value a non-negative `unsigned long` content attribute reflects. */
  const MaxDimension: nat := 0x7FFF_FFFF

  /** What assigning the Number x to `canvas.width` (default 300) or `canvas.height`
      (default 150) leaves in the attribute: the Number is converted by ToUint32, and a
      result above 2147483647 is replaced by the default. */
  function CanvasDimension(x: JsNumber, default: nat): (n: nat)
    requires default <= MaxDimension
    ensures n <= MaxDimension
    ensures ToUint32(x) <= MaxDimension ==> n == ToUint32(x)
    ensures ToUint32(x) > MaxDimension ==> n == default
  {
    var u := ToUint32(x);
    if u <= MaxDimension then u else default
  }

  /** An in-range integer is kept exactly: assigning it and reading it back agree. */
  lemma {:induction false} CanvasDimensionOfNat(n: nat, default: nat)
    requires n <= MaxDimension && default <= MaxDimension
    ensures CanvasDimension(Finite(n as real), default) == n
  {
    assert Truncate(n as real) == n;
  }

  /** A non-negative fraction below the limit is truncated, never rounded. */
  lemma {:induction false} CanvasDimensionTruncates(v: real, default: nat)
    requires 0.0 <= v < MaxDimension as real + 1.0 && default <= MaxDimension
    ensures CanvasDimension(Finite(v), default) == v.Floor
  {
    assert Truncate(v) == v.Floor;
  }

  /** A negative Number of magnitude at least 1 (and below 2^31) wraps to 2^32 minus its
      magnitude, which is out of range, so the default is used; a negative fraction
      truncates to 0. */
  lemma {:induction false} CanvasDimensionNegative(v: real, default: nat)
    requires -(MaxDimension as real + 1.0) < v < 0.0 && default <= MaxDimension
    ensures v <= -1.0 ==> CanvasDimension(Finite(v), default) == default
    ensures -1.0 < v ==> CanvasDimension(Finite(v), default) == 0
  {
    var t := Truncate(v);
    assert -(MaxDimension + 1) <= t <= 0;
    if t < 0 {
      assert ToUint32(Finite(v)) == t + TwoTo32;
    }
  }

  /** Numbers of magnitude 2^31 and more wrap around modulo 2^32 first: 2^32 + 5 gives 5,
      and -(2^31 + 1) wraps to 2^31 - 1, which is in range and kept. */
  lemma {:induction false} CanvasDimensionWrapsAround(default: nat)
    requires default <= MaxDimension
    ensures CanvasDimension(Finite(4294967301.0), default) == 5
    ensures CanvasDimension(Finite(-2147483649.0), default) == 2147483647
  {
    assert Truncate(4294967301.0) == 4294967301;
    assert Truncate(-2147483649.0) == -2147483649;
  }

  /** NaN and the infinities set the attribute to 0. */
  lemma {:induction false} CanvasDimensionNotFinite(x: JsNumber, default: nat)
    requires !x.Finite? && default <= MaxDimension
    ensures CanvasDimension(x, default) == 0
  {
  }

  /** A decoded image: its size and its RGBA bytes, row by row from the top left. */
  datatype Image = Image(width: nat, height: nat, pixels: seq<int>)
  {
    predicate Valid() {
      |pixels| == 4 * (width * height) && IsByteBuffer(pixels)
    }
  }

  /** One call that changed the context's transformation matrix: `translate(dx, dy)`
      or `rotate` by the given number of degrees. */
  datatype ContextOp = Translate(dx: real, dy: real) | RotateDegrees(degrees: int)

  /** A canvas element with its 2D context.  `pixels` is the bitmap, four bytes per
      pixel, row by row; `transform` lists the transformations applied since the
      context was last reset, oldest first. */
  class Canvas {
    var width: nat
    var height: nat
    var pixels: array<int>
    var transform: seq<ContextOp>

    ghost predicate Valid()
      reads this, pixels
    {
      width <= MaxDimension && height <= MaxDimension
      && pixels.Length == 4 * (width * height) && IsByteBuffer(pixels[..])
    }

    /** `document.createElement('canvas')`: 300 by 150, transparent black. */
    constructor ()
      ensures Valid() && fresh(pixels)
      ensures width == DefaultWidth && height == DefaultHeight && transform == []
      ensures forall k :: 0 <= k < pixels.Length ==> pixels[k] == 0
    {
      width, height := DefaultWidth, DefaultHeight;
      pixels := new int[4 * (DefaultWidth * DefaultHeight)](_ => 0);
      transform := [];
    }

    /** `canvas.width = x`: the attribute takes CanvasDimension(x, 300), and the bitmap
        is reallocated to the new size and cleared to transparent black, and the
        context returns to its default state, even when the value does not change. */
    method SetWidth(x: JsNumber)
      modifies this
      ensures width == CanvasDimension(x, DefaultWidth) && height == old(height)
      ensures transform == [] && fresh(pixels)
      ensures pixels.Length == 4 * (width * height)
      ensures forall k :: 0 <= k < pixels.Length ==> pixels[k] == 0
      ensures old(Valid()) ==> Valid()
    {
      width := CanvasDimension(x, DefaultWidth);
      pixels := new int[4 * (width * height)](_ => 0);
      transform := [];
    }

    /** `canvas.height = x`, as SetWidth with the default 150. */
    method SetHeight(x: JsNumber)
      modifies this
      ensures height == CanvasDimension(x, DefaultHeight) && width == old(width)
      ensures transform == [] && fresh(pixels)
      ensures pixels.Length == 4 * (width * height)
      ensures forall k :: 0 <= k < pixels.Length ==> pixels[k] == 0
      ensures old(Valid()) ==> Valid()
    {
      height := CanvasDimension(x, DefaultHeight);
      pixels := new int[4 * (width * height)](_ => 0);
      transform := [];
    }

    /** `ctx.drawImage(img, 0, 0)` on a canvas of the image's own size whose context is
        untransformed: every pixel of the image lands on the same pixel of the canvas. */
    method DrawImageAtOrigin(img: Image)
      requires Valid() && img.Valid()
      requires width == img.width && height == img.height && transform == []
      modifies pixels
      ensures pixels[..] == img.pixels
      ensures Valid()
    {
      forall k | 0 <= k < pixels.Length {
        pixels[k] := img.pixels[k];
      }
    }

    /** `ctx.translate(dx, dy)`: appended to the context's transformations. */
    method Translate(dx: real, dy: real)
      modifies this
      ensures transform == old(transform) + [ContextOp.Translate(dx, dy)]
      ensures width == old(width) && height == old(height) && pixels == old(pixels)
    {
      transform := transform + [ContextOp.Translate(dx, dy)];
    }

    /** `ctx.rotate(degrees * Math.PI / 180)`, recorded by its angle in degrees. */
    method Rotate(degrees: int)
      modifies this
      ensures transform == old(transform) + [RotateDegrees(degrees)]
      ensures width == old(width) && height == old(height) && pixels == old(pixels)
    {
      transform := transform + [RotateDegrees(degrees)];
    }
  }
}
