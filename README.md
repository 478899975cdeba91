# Image-operation dispatcher of ImageLCNC, in Dafny

This project models `processImage` in `src/services/imageProcessingService.js` of
ImageLCNC, a node-based visual workflow editor. `processImage` draws a loaded image onto
a new canvas of the image's size. It then applies one operation, chosen by the node's
`type`:

- `filter` runs one of the `applyFilter` loops over the canvas's RGBA bytes. Grayscale
  replaces R, G and B by their mean. Sepia applies a 3×3 tone matrix to the saved
  original R, G and B. Blur and any other name do nothing.
- `resize` sets the canvas to `value1` percent of the image's width and height.
- `transform` reads an angle with `parseInt(dropdown1) || 0`. It always swaps the
  canvas's width and height, then translates and rotates the context.
- Any other type leaves the drawn copy as it is.

Modules:

- `JsValues` (`js_values.dfy`): the JavaScript semantics the code relies on.
  - ToUint8Clamp, applied on every store into a `Uint8ClampedArray` (`Clamp8`).
  - Numbers as exact rationals, NaN or ±Infinity.
  - ToUint32, applied when a Number is assigned to `canvas.width` or `canvas.height`.
- `JsParseInt` (`parse_int.dfy`): `parseInt` with no radix. It skips leading white
  space, accepts one sign, switches to radix 16 after `0x`, and reads the longest run of
  digits.
- `PixelFilter` (`pixel_filter.dfy`): the filter loops over an `array<int>`.
  - Each method is proved against `Filtered`, a function that filters each four-byte
    pixel on its own.
  - Lemmas on `Filtered` state what the filters promise.
- `Canvas2D` (`canvas.dfy`): a `Canvas` class with `width`, `height`, a pixel array and
  the list of context transformations.
  - Assigning a side converts the Number by ToUint32. A result above 2147483647 falls
    back to the default of 300 wide or 150 high, as a reflected `unsigned long`
    attribute does.
  - Assigning a side also clears the bitmap to transparent black and resets the
    context.
- `ImageProcessingService` (`image_processing.dfy`): the dispatcher and its helpers.
  - `ProcessImage`, `ApplyFilter`, `ApplyResize` and `ApplyTransform`.
  - `OutputSize`, the size of the returned canvas, and lemmas about it.

How the code behaves at the edges, and so how the model behaves:

- Resize: the scaled sides are truncated toward zero, because the canvas converts them
  with ToUint32. A side can become 0, and a percentage ≤ 0 raises no error.
  - NaN gives a 0 by 0 canvas.
  - A negative product of magnitude at least 1 and below 2^31 falls back to 300 by 150.
  - A product of magnitude 2^31 or more wraps around modulo 2^32 first. The result is
    kept when it is at most 2147483647, so -2147483649 gives 2147483647.
- Sepia: the code stores into a `Uint8ClampedArray`, so every channel is clamped to
  0..255 and rounded on store. Red and green saturate on light pixels; blue never does.
- Grayscale: the stored mean is rounded to the nearest byte. The pixel (200, 100, 50),
  whose mean is 116.67, becomes 117.
- Unknown names: an unknown filter name and an unknown operation type change nothing.
  Blur changes nothing either.
- Filter on an image with a side of 0: `getImageData` throws an IndexSizeError, the
  exception leaves `onload`, and the Promise never resolves.
- Transform: the canvas sides are swapped for every angle, 0 and 180 included.

## Model

| member | source | states |
|---|---|---|
| JsValues.Clamp8 | src/services/imageProcessingService.js:43 | a store into the pixel buffer always leaves a byte; values at or below 0 store 0, values at or above 255 store 255 |
| JsValues.Clamp8Rounds | src/services/imageProcessingService.js:43 | between 0 and 255 the stored byte is within one half of the value, and an exact half goes to the even byte (ToUint8Clamp) |
| JsValues.Clamp8OfByte | src/services/imageProcessingService.js:43 | storing a value that already is a byte stores it unchanged |
| JsValues.Clamp8Monotone | src/services/imageProcessingService.js:51-53 | clamping on store never reverses the order of two values |
| JsValues.Times | src/services/imageProcessingService.js:67-68 | `img.width * scale` is finite exactly when scale is; a finite product divided by the side gives scale back; NaN stays NaN, an infinity stays itself unless the side is 0, which gives NaN |
| JsValues.DivideBy | src/services/imageProcessingService.js:66 | `value1 / 100` is the Number whose product with 100 is value1; NaN and infinities pass through |
| JsValues.Truncate | src/services/imageProcessingService.js:67-68 | the integer part of a Number: the greatest integer not above a non-negative value and the least integer not below a negative one |
| JsValues.ToUint32 | src/services/imageProcessingService.js:67-68 | the Number assigned to a canvas side becomes a 32-bit unsigned value congruent to its truncation modulo 2^32, and 0 for NaN or an infinity |
| JsParseInt.TrimStart | src/services/imageProcessingService.js:73 | parseInt skips exactly the leading white space: the rest is a suffix that starts with no white space |
| JsParseInt.DigitPrefixLength | src/services/imageProcessingService.js:73 | the digits read are the longest prefix of characters that are digits of the radix |
| JsParseInt.NatToDecimal | src/services/imageProcessingService.js:73 | the decimal numeral of n is a non-empty string of decimal digits whose value is n |
| JsParseInt.ReadDigits | src/services/imageProcessingService.js:73 | a number is read exactly when the text starts with a digit of the radix |
| JsParseInt.ReadMagnitude | src/services/imageProcessingService.js:73 | a magnitude, decimal or after "0x", is read only from text starting with a decimal digit |
| JsParseInt.ReadSigned | src/services/imageProcessingService.js:73 | a number is read only from non-empty text; after a '-' it is at most 0, otherwise at least 0 |
| JsParseInt.ParseInt | src/services/imageProcessingService.js:73 | parseInt gives a number only when its first character after the white space is a sign or a decimal digit: any other text reads as NaN |
| JsParseInt.ParseIntOfDecimal | src/services/imageProcessingService.js:73 | parseInt reads back every integer from its decimal numeral, also when text that does not continue it follows ("90deg", "90x"; after "0" an 'x' would start a hexadecimal prefix) |
| JsParseInt.ParseIntSkipsWhiteSpace | src/services/imageProcessingService.js:73 | leading white space does not change what parseInt reads |
| JsParseInt.ParseIntOfLeadingDigits | src/services/imageProcessingService.js:73 | conversely, text whose first character after the white space is a decimal digit, and which does not open with "0x", reads as the value of its longest run of decimal digits ("9012" as 9012, "90deg" as 90) |
| JsParseInt.ParseIntOfHex | src/services/imageProcessingService.js:73 | after "0x", parseInt reads the longest run of hexadecimal digits in radix 16 and ignores what follows |
| JsParseInt.ParseIntHexExample | src/services/imageProcessingService.js:73 | a "0x" prefix switches parseInt to radix 16: "0x5A" reads as 90 |
| PixelFilter.FilterNameOf | src/services/imageProcessingService.js:39 | each of the three filter names is selected exactly when dropdown1 equals it, case-sensitively; any other text is kept as unrecognised |
| PixelFilter.GrayLevel | src/services/imageProcessingService.js:42-43 | the grey byte stored is ToUint8Clamp of the exact mean, which equals (r+g+b+1)/3 in integers and lies between the least and the greatest channel |
| PixelFilter.FilterPixel | src/services/imageProcessingService.js:41-53 | filtering one pixel keeps its alpha byte, yields four bytes, and turns bytes into bytes |
| PixelFilter.Filtered | src/services/imageProcessingService.js:40-54 | filtering a buffer keeps its length and turns a byte buffer into a byte buffer |
| PixelFilter.FilterImageData | src/services/imageProcessingService.js:39-60 | the switch on the filter name leaves the buffer equal to Filtered of its old contents, with every alpha byte unchanged |
| PixelFilter.GrayscaleLoop | src/services/imageProcessingService.js:41-44 | the Grayscale loop leaves the buffer equal to Filtered(Grayscale, old contents) |
| PixelFilter.GrayscaleStore | src/services/imageProcessingService.js:42-43 | one turn writes the stored mean into bytes i, i+1 and i+2 and changes no other byte |
| PixelFilter.SepiaLoop | src/services/imageProcessingService.js:47-54 | the Sepia loop leaves the buffer equal to Filtered(Sepia, old contents) |
| PixelFilter.SepiaStore | src/services/imageProcessingService.js:48-53 | one turn saves r, g, b and writes the three tones computed from them alone into bytes i..i+2, changing no other byte |
| PixelFilter.SepiaBytesAt | src/services/imageProcessingService.js:51-53 | after Sepia, the bytes of pixel j are ToUint8Clamp of the three matrix rows applied to that pixel's original r, g, b, and its alpha is kept |
| PixelFilter.SepiaTonesBounded | src/services/imageProcessingService.js:51-53 | for byte channels the red, green and blue tones lie in 0..344.505, 0..306.765 and 0..238.935: blue is never saturated, and red and green of white exceed 255 |
| PixelFilter.FilteredPixelAt | src/services/imageProcessingService.js:40-54 | each output pixel depends only on the same input pixel: it is the filter applied to that pixel |
| PixelFilter.FilterKeepsAlpha | src/services/imageProcessingService.js:39-60 | every alpha byte (offset 3 of a pixel) is unchanged, for every filter name |
| PixelFilter.FilteredUnchanged | src/services/imageProcessingService.js:56-58 | Blur and every unrecognised filter name leave the whole buffer unchanged |
| PixelFilter.GrayscalePixel | src/services/imageProcessingService.js:41-44 | after Grayscale, R = G = B = the rounded mean of the pixel's original channels, between their min and max, with alpha kept |
| PixelFilter.GrayscaleIdempotent | src/services/imageProcessingService.js:41-44 | a second Grayscale pass over a grey buffer changes nothing |
| PixelFilter.SepiaOrderedPixel | src/services/imageProcessingService.js:51-53 | the three stored sepia tones of any byte pixel satisfy R' ≥ G' ≥ B' |
| PixelFilter.SepiaPixel | src/services/imageProcessingService.js:47-54 | after Sepia every pixel's channels are bytes with R' ≥ G' ≥ B', alpha is kept and black stays black |
| PixelFilter.GrayscaleExample | src/services/imageProcessingService.js:41-44 | (10,20,30,255),(200,100,50,255) becomes (20,20,20,255),(117,117,117,255) |
| PixelFilter.SepiaWhiteExample | src/services/imageProcessingService.js:51-53 | a white pixel becomes (255,255,239,255): the red and green tones saturate |
| Canvas2D.CanvasDimension | src/services/imageProcessingService.js:67-68 | a side assigned a Number holds its ToUint32 value when that is at most 2147483647, and the default otherwise |
| Canvas2D.CanvasDimensionOfNat | src/services/imageProcessingService.js:11-12 | an in-range integer assigned to a side is read back unchanged |
| Canvas2D.CanvasDimensionTruncates | src/services/imageProcessingService.js:67-68 | a non-negative side below 2^31 is truncated, not rounded |
| Canvas2D.CanvasDimensionNegative | src/services/imageProcessingService.js:67-68 | a negative side of magnitude at least 1 and below 2^31 falls back to the default; a negative fraction gives 0 |
| Canvas2D.CanvasDimensionWrapsAround | src/services/imageProcessingService.js:67-68 | a Number of magnitude 2^31 or more wraps modulo 2^32 first: 2^32 + 5 gives 5, and -(2^31 + 1) gives 2147483647 |
| Canvas2D.CanvasDimensionNotFinite | src/services/imageProcessingService.js:67-68 | NaN or an infinity assigned to a side gives 0 |
| Canvas2D.Canvas.constructor | src/services/imageProcessingService.js:9 | a new canvas is 300 by 150, transparent black, with an untransformed context |
| Canvas2D.Canvas.SetWidth | src/services/imageProcessingService.js:11 | assigning the width sets it to CanvasDimension, keeps the height, clears the bitmap and resets the context |
| Canvas2D.Canvas.SetHeight | src/services/imageProcessingService.js:12 | assigning the height sets it to CanvasDimension, keeps the width, clears the bitmap and resets the context |
| Canvas2D.Canvas.DrawImageAtOrigin | src/services/imageProcessingService.js:13 | drawing the image at (0, 0) on a canvas of its own size copies every pixel byte |
| Canvas2D.Canvas.Translate | src/services/imageProcessingService.js:76 | translate appends to the context's transformations and changes nothing else |
| Canvas2D.Canvas.Rotate | src/services/imageProcessingService.js:77 | rotate appends to the context's transformations and changes nothing else |
| ImageProcessingService.OpTypeOf | src/services/imageProcessingService.js:16-27 | the type selects filter, resize or transform exactly when it equals that name; any other name is kept as "other" |
| ImageProcessingService.ApplyFilter | src/services/imageProcessingService.js:35-63 | getImageData throws exactly when a canvas side is 0, and then the bitmap is unchanged; otherwise the bitmap becomes Filtered by the filter named in dropdown1 |
| ImageProcessingService.ApplyResize | src/services/imageProcessingService.js:65-70 | the canvas sides become the image's sides times value1/100, as the canvas converts them |
| ImageProcessingService.ApplyTransform | src/services/imageProcessingService.js:72-79 | the canvas width is the image height and its height the image width; the context is translated to the centre and rotated by the parsed angle |
| ImageProcessingService.DrawOnNewCanvas | src/services/imageProcessingService.js:9-13 | the new canvas has the image's width and height, an untransformed context, and a copy of the image's bytes |
| ImageProcessingService.ProcessImage | src/services/imageProcessingService.js:9-27 | the Promise resolves unless filter meets an image with a side of 0; the canvas has OutputSize; after a resolved filter it holds the filtered image, after an unknown type the image itself, after transform the centring translation and the parsed rotation |
| ImageProcessingService.OutputSize | src/services/imageProcessingService.js:11-12 | both sides of the returned canvas are at most 2147483647; the lemmas below state them for each operation type |
| ImageProcessingService.ResizedDimension | src/services/imageProcessingService.js:66-68 | a resized side is at most 2147483647, and 0 when value1 is NaN or an infinity |
| ImageProcessingService.SizeKeptUnlessResizedOrTransformed | src/services/imageProcessingService.js:11-27 | filter and every unrecognised type keep the image's width and height |
| ImageProcessingService.TransformSwapsSides | src/services/imageProcessingService.js:74-75 | transform gives width = image height and height = image width for every angle text, 0 and 180 included |
| ImageProcessingService.TransformTwiceRestoresSize | src/services/imageProcessingService.js:74-75 | two transforms in a row give back the original size |
| ImageProcessingService.ResizeByHundredKeepsSize | src/services/imageProcessingService.js:66-68 | resize at 100 percent keeps the image's size |
| ImageProcessingService.ResizeTruncates | src/services/imageProcessingService.js:66-68 | a side scaled by a non-negative percentage, with a product below 2^31, is the floor of side × value1/100 |
| ImageProcessingService.ResizeExample | src/services/imageProcessingService.js:66-68 | a 4 by 2 image at 200 percent gives 8 by 4 |
| ImageProcessingService.ResizeHalfExample | src/services/imageProcessingService.js:66-68 | a 3 by 5 image at 50 percent gives 1 by 2 (1.5 and 2.5 truncate) |
| ImageProcessingService.ResizeByNaN | src/services/imageProcessingService.js:66-68 | a percentage that is NaN gives a 0 by 0 canvas |
| ImageProcessingService.ResizeNegativeFallsBack | src/services/imageProcessingService.js:66-68 | a negative percentage whose product has magnitude at least 1 and below 2^31 gives the default side |
| ImageProcessingService.ParseAngleOrZero | src/services/imageProcessingService.js:73 | the fallback to 0 keeps a non-zero parseInt result and gives 0 for NaN and 0: the angle is non-zero exactly when parseInt read a non-zero number, and then equals it |
| ImageProcessingService.ParseAngleOfNumeral | src/services/imageProcessingService.js:73 | a decimal numeral followed by text that does not continue it ("90deg"; after "0" not an 'x') gives that integer as the angle |
| ImageProcessingService.ParseAngleOfNonNumeral | src/services/imageProcessingService.js:73 | text that does not start with a sign or a digit after its white space gives angle 0 |

## Left out

- Loading the image: `new Image`, `crossOrigin`, `onload`, the Promise and `canvas.toDataURL()` (lines 2-8 and 29-32). These are I/O and encoding. `ProcessImage` starts from the decoded image and returns the canvas.
- `getImageData` and `putImageData`: they copy the bitmap out and back. The filter runs on the canvas bitmap directly. The premultiplied-alpha conversion a browser may apply to translucent pixels on this round trip is not modelled.
- The pixels `drawImage` paints after a resize or a rotation (lines 69 and 78). This is canvas resampling and trigonometry. `ApplyResize`, `ApplyTransform` and `ProcessImage` state the canvas size and transformations, and nothing about the pixel content for these two types.
- Canvas2D.Canvas.DrawImageAtOrigin: models only drawing onto a canvas of the image's own size with an untransformed context, which is the only way `processImage` calls it at line 13.
- ImageProcessingService.ProcessImage: requires both image sides to be at most 2147483647. Otherwise the canvas falls back to its default size, and the image would be drawn onto a canvas of another size.
- Floating point: Sepia products, `value1 / 100` and `img.width * scale` are computed on exact rationals. Double-precision rounding is not modelled, so a Sepia tone that lands within rounding error of a half may differ in its last step.
- ImageProcessingService.ResizeTruncates: states the floor of the exact product. In doubles `value1 / 100` is rounded first, so when the exact product is an integer the resized side can be one less: a side of 100 at value1 = 57 gives 56 (100 × 0.57 is 56.99999999999999), and at 29 gives 28. `OutputSize` and `ApplyResize` share this gap.
- Canvas2D.Canvas.Rotate: records the angle in degrees. The radians `angle * Math.PI / 180` are not computed.
- ImageProcessingService.Options: `value1` is the Number that `/` converts it to. ToNumber of a string `value1` is not modelled.
- JsValues.Clamp8: takes a real, so the NaN case of ToUint8Clamp is not modelled. Byte arithmetic never produces NaN.
- JsParseInt.ParseInt: reads digits with unbounded precision. It does not round numerals beyond 2^53, and does not tell "-0" from 0, which `|| 0` maps to 0 anyway.
- `src/services/workflow-service.js` is not part of this model: it is local-storage I/O and JSON serialisation.
- `src/services/image-processing-service.js` is not part of this model: it only calls `URL.createObjectURL`.
- `src/config/node-types.js` and `src/constants/nodeTypes.js` are not part of this model: they are constant tables with no behaviour.
