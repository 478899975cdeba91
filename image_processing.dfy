/** processImage and its helpers: an image is drawn onto a new canvas of its own size,
    then one operation chosen by its type name changes the canvas.  `filter` rewrites
    the pixels, `resize` scales the canvas, `transform` swaps its sides and rotates;
    any other type leaves the copy as it is. */
module ImageProcessingService {
  import opened JsValues
  import opened JsParseInt
  import opened PixelFilter
  import opened Canvas2D

  /** The operation `type` of a node; the `switch` compares names exactly. */
  datatype OpType = FilterOp | ResizeOp | TransformOp | OtherOp(name: string)

  function OpTypeOf(name: string): (t: OpType)
    ensures t.FilterOp? <==> name == "filter"
    ensures t.ResizeOp? <==> name == "resize"
    ensures t.TransformOp? <==> name == "transform"
    ensures t.OtherOp? ==> t.name == name
  {
    if name == "filter" then FilterOp
    else if name == "resize" then ResizeOp
    else if name == "transform" then TransformOp
    else OtherOp(name)
  }

  /** The node's options: `dropdown1` names the filter or holds the angle text, and
      `value1` is the resize percentage, as the Number it converts to. */
  datatype Options = Options(dropdown1: string, value1: JsNumber)

  /** `parseInt(options.dropdown1) || 0`: the angle in degrees, 0 when the text does
      not start with a number. */
  function ParseAngle(dropdown1: string): int {
    match ParseInt(dropdown1)
    case None => 0
    case Some(n) => n
  }

  /** A side of the resized canvas: `side * (value1 / 100)`, assigned to the canvas. */
  function ResizedDimension(side: nat, value1: JsNumber, default: nat): (n: nat)
    requires default <= MaxDimension
    ensures n <= MaxDimension
    ensures !value1.Finite? ==> n == 0
  {
    CanvasDimension(Times(side, DivideBy(value1, 100.0)), default)
  }

  datatype Size = Size(width: nat, height: nat)

  /** The width and height of the canvas processImage returns. */
  function OutputSize(img: Image, t: OpType, o: Options): (s: Size)
    ensures s.width <= MaxDimension && s.height <= MaxDimension
  {
    var w, h := Finite(img.width as real), Finite(img.height as real);
    match t
    case ResizeOp =>
      Size(ResizedDimension(img.width, o.value1, DefaultWidth),
           ResizedDimension(img.height, o.value1, DefaultHeight))
    case TransformOp =>
      Size(CanvasDimension(h, DefaultWidth), CanvasDimension(w, DefaultHeight))
    case _ =>
      Size(CanvasDimension(w, DefaultWidth), CanvasDimension(h, DefaultHeight))
  }

  /** applyFilter: the canvas bitmap is read out, filtered in place and written back.
      getImageData throws an IndexSizeError when a side of the canvas is 0; then
      nothing is filtered and the exception leaves applyFilter (`thrown`). */
  method ApplyFilter(c: Canvas, o: Options) returns (thrown: bool)
    requires c.Valid()
    modifies c.pixels
    ensures thrown <==> c.width == 0 || c.height == 0
    ensures !thrown ==> c.pixels[..] == Filtered(FilterNameOf(o.dropdown1), old(c.pixels[..]))
    ensures thrown ==> c.pixels[..] == old(c.pixels[..])
    ensures c.Valid()
  {
    if c.width == 0 || c.height == 0 {
      return true;
    }
    FilterImageData(c.pixels, FilterNameOf(o.dropdown1));
    thrown := false;
  }

  /** applyResize: both sides are scaled by value1 percent.  What drawImage then paints
      into the resized canvas is not modelled. */
  method ApplyResize(c: Canvas, img: Image, o: Options)
    requires c.Valid()
    modifies c
    ensures c.width == ResizedDimension(img.width, o.value1, DefaultWidth)
    ensures c.height == ResizedDimension(img.height, o.value1, DefaultHeight)
    ensures c.transform == [] && c.Valid() && fresh(c.pixels)
  {
    c.SetWidth(Times(img.width, DivideBy(o.value1, 100.0)));
    c.SetHeight(Times(img.height, DivideBy(o.value1, 100.0)));
  }

  /** applyTransform: the canvas takes the image's height as its width and the image's
      width as its height, whatever the angle, then the context is moved to the centre
      and rotated.  The rotated image drawImage then paints is not modelled. */
  method ApplyTransform(c: Canvas, img: Image, o: Options)
    requires c.Valid()
    modifies c
    ensures c.width == CanvasDimension(Finite(img.height as real), DefaultWidth)
    ensures c.height == CanvasDimension(Finite(img.width as real), DefaultHeight)
    ensures c.transform == [ContextOp.Translate(c.width as real / 2.0, c.height as real / 2.0),
                            RotateDegrees(ParseAngle(o.dropdown1))]
    ensures c.Valid() && fresh(c.pixels)
  {
    var angle := ParseAngle(o.dropdown1);
    c.SetWidth(Finite(img.height as real));
    c.SetHeight(Finite(img.width as real));
    c.Translate(c.width as real / 2.0, c.height as real / 2.0);
    c.Rotate(angle);
  }

  /** The start of `onload`: a new canvas takes the image's width and height, and the
      image is drawn at its origin, so the canvas holds a copy of the image. */
  method DrawOnNewCanvas(img: Image) returns (c: Canvas)
    requires img.Valid() && img.width <= MaxDimension && img.height <= MaxDimension
    ensures fresh(c) && fresh(c.pixels) && c.Valid()
    ensures c.width == img.width && c.height == img.height && c.transform == []
    ensures c.pixels[..] == img.pixels
  {
    c := new Canvas();
    c.SetWidth(Finite(img.width as real));
    c.SetHeight(Finite(img.height as real));
    CanvasDimensionOfNat(img.width, DefaultWidth);
    CanvasDimensionOfNat(img.height, DefaultHeight);
    c.DrawImageAtOrigin(img);
  }

  /** processImage once the image has loaded: a canvas of the image's size with the
      image drawn on it, then the operation named by `typeName`.  `resolved` tells
      whether the Promise resolves with this canvas: filtering an image with a side
      of 0 throws inside `onload`, and the Promise then never resolves.  A filtered
      canvas holds the filtered image; a canvas left alone holds the image itself. */
  method ProcessImage(img: Image, typeName: string, o: Options) returns (c: Canvas, resolved: bool)
    requires img.Valid() && img.width <= MaxDimension && img.height <= MaxDimension
    ensures fresh(c) && c.Valid()
    ensures resolved <==> !(OpTypeOf(typeName).FilterOp? && (img.width == 0 || img.height == 0))
    ensures Size(c.width, c.height) == OutputSize(img, OpTypeOf(typeName), o)
    ensures OpTypeOf(typeName).FilterOp? && resolved ==>
      c.pixels[..] == Filtered(FilterNameOf(o.dropdown1), img.pixels)
    ensures OpTypeOf(typeName).OtherOp? ==> c.pixels[..] == img.pixels
    ensures OpTypeOf(typeName).TransformOp? ==>
      c.transform == [ContextOp.Translate(c.width as real / 2.0, c.height as real / 2.0),
                      RotateDegrees(ParseAngle(o.dropdown1))]
  {
    c := DrawOnNewCanvas(img);
    SizeKeptUnlessResizedOrTransformed(img, FilterOp, o);
    resolved := true;
    match OpTypeOf(typeName) {
      case FilterOp =>
        var thrown := ApplyFilter(c, o);
        resolved := !thrown;
      case ResizeOp => ApplyResize(c, img, o);
      case TransformOp => ApplyTransform(c, img, o);
      case OtherOp(_) =>
    }
  }

  /** `filter` and every unrecognised type keep the image's size. */
  lemma {:induction false} SizeKeptUnlessResizedOrTransformed(img: Image, t: OpType, o: Options)
    requires img.width <= MaxDimension && img.height <= MaxDimension
    requires t.FilterOp? || t.OtherOp?
    ensures OutputSize(img, t, o) == Size(img.width, img.height)
  {
    CanvasDimensionOfNat(img.width, DefaultWidth);
    CanvasDimensionOfNat(img.height, DefaultHeight);
  }

  /** `transform` gives the image's height as width and its width as height, for every
      angle text, "0" and "180" included. */
  lemma {:induction false} TransformSwapsSides(img: Image, o: Options)
    requires img.width <= MaxDimension && img.height <= MaxDimension
    ensures OutputSize(img, TransformOp, o) == Size(img.height, img.width)
  {
    CanvasDimensionOfNat(img.width, DefaultHeight);
    CanvasDimensionOfNat(img.height, DefaultWidth);
  }

  /** Transforming twice gives back the original size, whatever the two angles. */
  lemma {:induction false} TransformTwiceRestoresSize(img: Image, o1: Options, o2: Options)
    requires img.width <= MaxDimension && img.height <= MaxDimension
    ensures var s := OutputSize(img, TransformOp, o1);
      OutputSize(Image(s.width, s.height, img.pixels), TransformOp, o2) == Size(img.width, img.height)
  {
    TransformSwapsSides(img, o1);
    TransformSwapsSides(Image(img.height, img.width, img.pixels), o2);
  }

  /** `resize` at 100 percent keeps the image's size. */
  lemma {:induction false} ResizeByHundredKeepsSize(img: Image, o: Options)
    requires img.width <= MaxDimension && img.height <= MaxDimension
    requires o.value1 == Finite(100.0)
    ensures OutputSize(img, ResizeOp, o) == Size(img.width, img.height)
  {
    assert Times(img.width, DivideBy(o.value1, 100.0)) == Finite(img.width as real);
    assert Times(img.height, DivideBy(o.value1, 100.0)) == Finite(img.height as real);
    CanvasDimensionOfNat(img.width, DefaultWidth);
    CanvasDimensionOfNat(img.height, DefaultHeight);
  }

  /** A side scaled by a non-negative percentage is truncated toward zero, as long as
      the product stays below 2^31. */
  lemma {:induction false} ResizeTruncates(side: nat, p: real, default: nat)
    requires p >= 0.0 && default <= MaxDimension
    requires side as real * (p / 100.0) < MaxDimension as real + 1.0
    ensures ResizedDimension(side, Finite(p), default) == (side as real * (p / 100.0)).Floor
  {
    NonNegativeProduct(side as real, p / 100.0);
    assert Times(side, DivideBy(Finite(p), 100.0)) == Finite(side as real * (p / 100.0));
    CanvasDimensionTruncates(side as real * (p / 100.0), default);
  }

  lemma {:induction false} NonNegativeProduct(a: real, b: real)
    requires a >= 0.0 && b >= 0.0
    ensures a * b >= 0.0
  {
  }

  /** A 4 by 2 image resized at 200 percent gives an 8 by 4 canvas. */
  lemma {:induction false} ResizeExample(o: Options)
    requires o.value1 == Finite(200.0)
    ensures OutputSize(Image(4, 2, []), ResizeOp, o) == Size(8, 4)
  {
    ResizeTruncates(4, 200.0, DefaultWidth);
    ResizeTruncates(2, 200.0, DefaultHeight);
  }

  /** A 3 by 5 image at 50 percent gives 1 by 2: 1.5 and 2.5 are truncated, not rounded. */
  lemma {:induction false} ResizeHalfExample(o: Options)
    requires o.value1 == Finite(50.0)
    ensures OutputSize(Image(3, 5, []), ResizeOp, o) == Size(1, 2)
  {
    ResizeTruncates(3, 50.0, DefaultWidth);
    ResizeTruncates(5, 50.0, DefaultHeight);
  }

  /** A percentage that is not a number gives a canvas of 0 by 0. */
  lemma {:induction false} ResizeByNaN(img: Image, o: Options)
    requires o.value1 == NaN
    ensures OutputSize(img, ResizeOp, o) == Size(0, 0)
  {
    CanvasDimensionNotFinite(NaN, DefaultWidth);
    CanvasDimensionNotFinite(NaN, DefaultHeight);
  }

  /** A negative percentage whose product has magnitude at least 1 (and below 2^31)
      falls back to the default side: 300 wide, 150 high. */
  lemma {:induction false} ResizeNegativeFallsBack(side: nat, p: real, default: nat)
    requires p < 0.0 && default <= MaxDimension
    requires -(MaxDimension as real + 1.0) < side as real * (p / 100.0) <= -1.0
    ensures ResizedDimension(side, Finite(p), default) == default
  {
    assert Times(side, DivideBy(Finite(p), 100.0)) == Finite(side as real * (p / 100.0));
    CanvasDimensionNegative(side as real * (p / 100.0), default);
  }

  /** `x || 0` keeps x unless it is falsy: a non-zero angle is exactly what parseInt
      read, and NaN, 0 and -0 all give 0. */
  lemma {:induction false} ParseAngleOrZero(dropdown1: string)
    ensures var a := ParseAngle(dropdown1);
      (a != 0 <==> ParseInt(dropdown1).Some? && ParseInt(dropdown1).value != 0)
      && (a != 0 ==> ParseInt(dropdown1) == Some(a))
  {
  }

  /** The angle text is read as parseInt reads it: a decimal numeral, possibly followed
      by other text ("90deg"), gives its value. */
  lemma {:induction false} ParseAngleOfNumeral(n: int, rest: string)
    requires EndsNumeral(n, rest)
    ensures ParseAngle(IntToDecimal(n) + rest) == n
  {
    ParseIntOfDecimal(n, rest);
  }

  /** Text that does not start with a sign or a digit (after white space) is angle 0. */
  lemma {:induction false} ParseAngleOfNonNumeral(s: string)
    requires var t := TrimStart(s); t == [] || (t[0] != '-' && t[0] != '+' && DigitValue(t[0]) >= 10)
    ensures ParseAngle(s) == 0
  {
  }
}
