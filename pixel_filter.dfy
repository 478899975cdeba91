/** The colour filters of applyFilter: the loops that rewrite the R, G and B bytes of
    every RGBA pixel of an ImageData buffer in place.  A buffer is a flat sequence of
    bytes, four per pixel, and every store into it goes through ToUint8Clamp. */
module PixelFilter {
  import opened JsValues

  /** The filter selected by `options.dropdown1`; any other name selects nothing. */
  datatype FilterName = Grayscale | Sepia | Blur | Unrecognised(name: string)

  /** The `switch` on the filter name: an exact, case-sensitive comparison. */
  function FilterNameOf(dropdown1: string): (f: FilterName)
    ensures f.Grayscale? <==> dropdown1 == "Grayscale"
    ensures f.Sepia? <==> dropdown1 == "Sepia"
    ensures f.Blur? <==> dropdown1 == "Blur"
    ensures f.Unrecognised? ==> f.name == dropdown1
  {
    if dropdown1 == "Grayscale" then Grayscale
    else if dropdown1 == "Sepia" then Sepia
    else if dropdown1 == "Blur" then Blur
    else Unrecognised(dropdown1)
  }

  /** An ImageData buffer: whole pixels of four bytes each. */
  predicate IsPixelBuffer(s: seq<int>) {
    |s| % 4 == 0 && IsByteBuffer(s)
  }

  function Min3(a: int, b: int, c: int): int {
    if a <= b && a <= c then a else if b <= c then b else c
  }

  function Max3(a: int, b: int, c: int): int {
    if a >= b && a >= c then a else if b >= c then b else c
  }

  /** The unweighted mean of the three colour channels, as the filter computes it. */
  function Mean(r: int, g: int, b: int): real {
    (r + g + b) as real / 3.0
  }

  /** The sepia tone matrix, one row per output channel, on exact decimal coefficients. */
  function SepiaRed(r: int, g: int, b: int): real {
    r as real * 0.393 + g as real * 0.769 + b as real * 0.189
  }

  function SepiaGreen(r: int, g: int, b: int): real {
    r as real * 0.349 + g as real * 0.686 + b as real * 0.168
  }

  function SepiaBlue(r: int, g: int, b: int): real {
    r as real * 0.272 + g as real * 0.534 + b as real * 0.131
  }

  /** The grey level Grayscale stores, in integer arithmetic: the mean of three bytes
      has fractional part 0, 1/3 or 2/3, so rounding it never meets a tie. */
  function GrayLevel(r: int, g: int, b: int): (v: int)
    requires IsByte(r) && IsByte(g) && IsByte(b)
    ensures v == Clamp8(Mean(r, g, b))
    ensures Min3(r, g, b) <= v <= Max3(r, g, b)
  {
    var s := r + g + b;
    assert s == 3 * (s / 3) + s % 3;
    Clamp8Rounds(Mean(r, g, b));
    (s + 1) / 3
  }

  /** The four bytes one pixel p = [R, G, B, A] holds after the filter has visited it.
      Every new channel is computed from the pixel's original bytes only. */
  function FilterPixel(f: FilterName, p: seq<int>): (q: seq<int>)
    requires |p| == 4
    ensures |q| == 4 && q[3] == p[3]
    ensures IsByteBuffer(p) ==> IsByteBuffer(q)
  {
    match f
    case Grayscale =>
      var v := Clamp8(Mean(p[0], p[1], p[2]));
      [v, v, v, p[3]]
    case Sepia =>
      [Clamp8(SepiaRed(p[0], p[1], p[2])), Clamp8(SepiaGreen(p[0], p[1], p[2])),
       Clamp8(SepiaBlue(p[0], p[1], p[2])), p[3]]
    case _ => p
  }

  /** The whole buffer after the filter: every pixel filtered on its own, in order. */
  function Filtered(f: FilterName, s: seq<int>): (r: seq<int>)
    requires |s| % 4 == 0
    ensures |r| == |s|
    ensures IsByteBuffer(s) ==> IsByteBuffer(r)
    decreases |s|
  {
    if s == [] then []
    else
      var r := FilterPixel(f, s[..4]) + Filtered(f, s[4..]);
      assert IsByteBuffer(s) ==> IsByteBuffer(s[..4]) && IsByteBuffer(s[4..]);
      r
  }

  /** The `switch` of applyFilter over `imageData.data`: Grayscale and Sepia run their
      loop, Blur and any other name leave the buffer alone. */
  method FilterImageData(data: array<int>, f: FilterName)
    requires data.Length % 4 == 0
    modifies data
    ensures data[..] == Filtered(f, old(data[..]))
    ensures forall k :: 0 <= k < data.Length && k % 4 == 3 ==> data[k] == old(data[k])
  {
    ghost var s := data[..];
    match f {
      case Grayscale => GrayscaleLoop(data);
      case Sepia => SepiaLoop(data);
      case Blur => FilteredUnchanged(f, s);
      case Unrecognised(_) => FilteredUnchanged(f, s);
    }
    forall k | 0 <= k < data.Length && k % 4 == 3 ensures data[k] == s[k] {
      FilterKeepsAlpha(f, s, k);
    }
  }

  /** The Grayscale loop: each pixel's R, G and B all receive the mean of the three. */
  method GrayscaleLoop(data: array<int>)
    requires data.Length % 4 == 0
    modifies data
    ensures data[..] == Filtered(Grayscale, old(data[..]))
  {
    ghost var s := data[..];
    ghost var t := Filtered(Grayscale, s);
    var i := 0;
    ghost var n := 0;
    while i < data.Length
      invariant 0 <= i <= data.Length && i == 4 * n
      invariant forall k :: 0 <= k < i ==> data[k] == t[k]
      invariant forall k :: i <= k < data.Length ==> data[k] == s[k]
    {
      GrayscaleStore(data, i, s);
      i, n := i + 4, n + 1;
    }
    assert data[..] == t;
  }

  /** One turn of the Grayscale loop: the stored mean of R, G and B goes into all
      three; alpha is not touched. */
  method GrayscaleStore(data: array<int>, i: int, ghost s: seq<int>)
    requires |s| == data.Length && |s| % 4 == 0 && 0 <= i && i % 4 == 0 && i + 4 <= |s|
    requires forall k :: i <= k < i + 4 ==> data[k] == s[k]
    modifies data
    ensures var t := Filtered(Grayscale, s);
      data[i] == t[i] && data[i + 1] == t[i + 1] && data[i + 2] == t[i + 2] && data[i + 3] == t[i + 3]
    ensures forall k :: 0 <= k < data.Length && (k < i || i + 4 <= k) ==> data[k] == old(data[k])
  {
    var avg := Mean(data[i], data[i + 1], data[i + 2]);
    data[i], data[i + 1], data[i + 2] := Clamp8(avg), Clamp8(avg), Clamp8(avg);
    GrayscaleBytesAt(s, i);
  }

  /** The Sepia loop over every pixel of the buffer. */
  method SepiaLoop(data: array<int>)
    requires data.Length % 4 == 0
    modifies data
    ensures data[..] == Filtered(Sepia, old(data[..]))
  {
    ghost var s := data[..];
    ghost var t := Filtered(Sepia, s);
    var i := 0;
    ghost var n := 0;
    while i < data.Length
      invariant 0 <= i <= data.Length && i == 4 * n
      invariant forall k :: 0 <= k < i ==> data[k] == t[k]
      invariant forall k :: i <= k < data.Length ==> data[k] == s[k]
    {
      SepiaStore(data, i, s);
      i, n := i + 4, n + 1;
    }
    assert data[..] == t;
  }

  /** One turn of the Sepia loop: r, g and b are saved first, so all three new
      channels are computed from the pixel's original bytes. */
  method SepiaStore(data: array<int>, i: int, ghost s: seq<int>)
    requires |s| == data.Length && |s| % 4 == 0 && 0 <= i && i % 4 == 0 && i + 4 <= |s|
    requires forall k :: i <= k < i + 4 ==> data[k] == s[k]
    modifies data
    ensures var t := Filtered(Sepia, s);
      data[i] == t[i] && data[i + 1] == t[i + 1] && data[i + 2] == t[i + 2] && data[i + 3] == t[i + 3]
    ensures forall k :: 0 <= k < data.Length && (k < i || i + 4 <= k) ==> data[k] == old(data[k])
  {
    var r, g, b := data[i], data[i + 1], data[i + 2];
    data[i] := Clamp8(SepiaRed(r, g, b));
    data[i + 1] := Clamp8(SepiaGreen(r, g, b));
    data[i + 2] := Clamp8(SepiaBlue(r, g, b));
    SepiaBytesAt(s, i);
  }

  /** The four bytes of pixel j of the filtered buffer, one by one. */
  lemma {:induction false} PixelOfFiltered(f: FilterName, s: seq<int>, j: int)
    requires |s| % 4 == 0 && 0 <= j && j % 4 == 0 && j + 4 <= |s|
    ensures var q := FilterPixel(f, s[j..j + 4]); var t := Filtered(f, s);
      t[j] == q[0] && t[j + 1] == q[1] && t[j + 2] == q[2] && t[j + 3] == q[3]
  {
    FilteredPixelAt(f, s, j);
    var t := Filtered(f, s);
    assert t[j..j + 4][0] == t[j] && t[j..j + 4][1] == t[j + 1];
    assert t[j..j + 4][2] == t[j + 2] && t[j..j + 4][3] == t[j + 3];
  }

  lemma {:induction false} GrayscaleBytesAt(s: seq<int>, j: int)
    requires |s| % 4 == 0 && 0 <= j && j % 4 == 0 && j + 4 <= |s|
    ensures var t := Filtered(Grayscale, s); var v := Clamp8(Mean(s[j], s[j + 1], s[j + 2]));
      t[j] == v && t[j + 1] == v && t[j + 2] == v && t[j + 3] == s[j + 3]
  {
    PixelOfFiltered(Grayscale, s, j);
    var p := s[j..j + 4];
    assert p[0] == s[j] && p[1] == s[j + 1] && p[2] == s[j + 2] && p[3] == s[j + 3];
  }

  lemma {:induction false} SepiaBytesAt(s: seq<int>, j: int)
    requires |s| % 4 == 0 && 0 <= j && j % 4 == 0 && j + 4 <= |s|
    ensures var t := Filtered(Sepia, s); var r, g, b := s[j], s[j + 1], s[j + 2];
      t[j] == Clamp8(SepiaRed(r, g, b)) && t[j + 1] == Clamp8(SepiaGreen(r, g, b))
      && t[j + 2] == Clamp8(SepiaBlue(r, g, b)) && t[j + 3] == s[j + 3]
  {
    PixelOfFiltered(Sepia, s, j);
    var p := s[j..j + 4];
    assert p[0] == s[j] && p[1] == s[j + 1] && p[2] == s[j + 2] && p[3] == s[j + 3];
  }

  /** Each output pixel is the filter applied to the same input pixel and nothing else. */
  lemma {:induction false} FilteredPixelAt(f: FilterName, s: seq<int>, j: int)
    requires |s| % 4 == 0 && 0 <= j && j % 4 == 0 && j + 4 <= |s|
    ensures Filtered(f, s)[j..j + 4] == FilterPixel(f, s[j..j + 4])
    decreases j
  {
    if j > 0 {
      FilteredPixelAt(f, s[4..], j - 4);
      assert s[4..][j - 4..j] == s[j..j + 4];
      assert Filtered(f, s)[j..j + 4] == Filtered(f, s[4..])[j - 4..j];
    }
  }

  /** Every alpha byte (offset 3 of a pixel) comes out as it went in, for every filter. */
  lemma {:induction false} FilterKeepsAlpha(f: FilterName, s: seq<int>, k: int)
    requires |s| % 4 == 0 && 0 <= k < |s| && k % 4 == 3
    ensures Filtered(f, s)[k] == s[k]
  {
    FilteredPixelAt(f, s, k - 3);
    assert Filtered(f, s)[k] == Filtered(f, s)[k - 3..k + 1][3];
  }

  /** Blur and every unrecognised name leave the whole buffer unchanged. */
  lemma {:induction false} FilteredUnchanged(f: FilterName, s: seq<int>)
    requires |s| % 4 == 0 && (f.Blur? || f.Unrecognised?)
    ensures Filtered(f, s) == s
    decreases |s|
  {
    if s != [] {
      FilteredUnchanged(f, s[4..]);
      assert s[..4] + s[4..] == s;
    }
  }

  /** After Grayscale every pixel has R = G = B, equal to ToUint8Clamp of the mean of
      its original channels, hence between their least and greatest. */
  lemma {:induction false} GrayscalePixel(s: seq<int>, j: int)
    requires IsPixelBuffer(s) && 0 <= j && j % 4 == 0 && j + 4 <= |s|
    ensures var r := Filtered(Grayscale, s);
      r[j] == r[j + 1] == r[j + 2] == Clamp8(Mean(s[j], s[j + 1], s[j + 2]))
      && r[j] == (s[j] + s[j + 1] + s[j + 2] + 1) / 3
      && Min3(s[j], s[j + 1], s[j + 2]) <= r[j] <= Max3(s[j], s[j + 1], s[j + 2])
      && r[j + 3] == s[j + 3]
  {
    GrayscaleBytesAt(s, j);
    assert IsByte(s[j]) && IsByte(s[j + 1]) && IsByte(s[j + 2]);
    var v := GrayLevel(s[j], s[j + 1], s[j + 2]);
  }

  /** A grey pixel's mean is its own level, so a second Grayscale pass changes nothing. */
  lemma {:induction false} GrayscaleIdempotent(s: seq<int>)
    requires IsPixelBuffer(s)
    ensures Filtered(Grayscale, Filtered(Grayscale, s)) == Filtered(Grayscale, s)
    decreases |s|
  {
    if s != [] {
      var p := FilterPixel(Grayscale, s[..4]);
      var t := Filtered(Grayscale, s);
      assert IsByteBuffer(s[4..]);
      GrayscaleIdempotent(s[4..]);
      assert t[..4] == p && t[4..] == Filtered(Grayscale, s[4..]);
      assert Mean(p[0], p[1], p[2]) == p[0] as real;
      Clamp8OfByte(p[0]);
    }
  }

  /** Sepia keeps the channels ordered R' >= G' >= B': each column of the tone matrix
      decreases from row to row, and ToUint8Clamp keeps order. */
  lemma {:induction false} SepiaOrderedPixel(r: int, g: int, b: int)
    requires IsByte(r) && IsByte(g) && IsByte(b)
    ensures Clamp8(SepiaRed(r, g, b)) >= Clamp8(SepiaGreen(r, g, b)) >= Clamp8(SepiaBlue(r, g, b))
  {
    Clamp8Monotone(SepiaGreen(r, g, b), SepiaRed(r, g, b));
    Clamp8Monotone(SepiaBlue(r, g, b), SepiaGreen(r, g, b));
  }

  /** The tone matrix's rows sum to 1.351, 1.203 and 0.937, which bounds the tones of a
      byte pixel: the blue tone stays below 255 and is never saturated, while the red
      and green tones of a light pixel exceed 255 and are clamped on store. */
  lemma {:induction false} SepiaTonesBounded(r: int, g: int, b: int)
    requires IsByte(r) && IsByte(g) && IsByte(b)
    ensures 0.0 <= SepiaRed(r, g, b) <= 344.505
    ensures 0.0 <= SepiaGreen(r, g, b) <= 306.765
    ensures 0.0 <= SepiaBlue(r, g, b) <= 238.935 < 255.0
    ensures SepiaRed(255, 255, 255) > 255.0 && SepiaGreen(255, 255, 255) > 255.0
  {
  }

  /** After Sepia every pixel's channels are bytes with R' >= G' >= B', its alpha is
      unchanged, and a black pixel stays black. */
  lemma {:induction false} SepiaPixel(s: seq<int>, j: int)
    requires IsPixelBuffer(s) && 0 <= j && j % 4 == 0 && j + 4 <= |s|
    ensures var r := Filtered(Sepia, s);
      IsByte(r[j + 2]) && r[j] >= r[j + 1] >= r[j + 2] && IsByte(r[j]) && r[j + 3] == s[j + 3]
      && (s[j] == s[j + 1] == s[j + 2] == 0 ==> r[j] == r[j + 1] == r[j + 2] == 0)
  {
    SepiaBytesAt(s, j);
    assert IsByte(s[j]) && IsByte(s[j + 1]) && IsByte(s[j + 2]);
    SepiaOrderedPixel(s[j], s[j + 1], s[j + 2]);
  }

  /** The pixels (10, 20, 30, 255) and (200, 100, 50, 255) turn grey as (20, 20, 20, 255)
      and (117, 117, 117, 255): 350 / 3 is rounded up, not truncated. */
  lemma {:induction false} GrayscaleExample()
    ensures Filtered(Grayscale, [10, 20, 30, 255, 200, 100, 50, 255])
         == [20, 20, 20, 255, 117, 117, 117, 255]
  {
    var s := [10, 20, 30, 255, 200, 100, 50, 255];
    assert s[..4] == [10, 20, 30, 255] && s[4..] == [200, 100, 50, 255];
    var t := s[4..];
    assert t[..4] == t && t[4..] == [];
    assert Clamp8(Mean(10, 20, 30)) == 20;
    assert Clamp8(Mean(200, 100, 50)) == 117;
  }

  /** Sepia saturates: a white pixel becomes (255, 255, 239), since the red and green
      rows sum to more than 1 and 255 * 0.937 = 238.935 rounds to 239. */
  lemma {:induction false} SepiaWhiteExample()
    ensures Filtered(Sepia, [255, 255, 255, 255]) == [255, 255, 239, 255]
  {
    var s := [255, 255, 255, 255];
    assert s[..4] == s && s[4..] == [];
    assert Clamp8(SepiaBlue(255, 255, 255)) == 239;
  }
}
