/** The JavaScript values and conversions that the image-processing service leans on:
    bytes of a Uint8ClampedArray, the ToUint8Clamp conversion applied on every store
    into one, and the Number values that reach the canvas size setters. */
module JsValues {

  datatype Option<T> = None | Some(value: T)

  predicate IsByte(x: int) {
    0 <= x <= 255
  }

  predicate IsByteBuffer(s: seq<int>) {
    forall k :: 0 <= k < |s| ==> IsByte(s[k])
  }

  /** ToUint8Clamp (section 7.1.12 of ECMA-262): the conversion a Uint8ClampedArray
      applies to every value stored into it.  Values at or below 0 become 0, values at
      or above 255 become 255, anything else is rounded to the nearest integer with
      ties going to the even neighbour.  (NaN, which also becomes 0, is not a real.) */
  function Clamp8(x: real): (v: int)
    ensures IsByte(v)
    ensures x <= 0.0 ==> v == 0
    ensures x >= 255.0 ==> v == 255
  {
    if x <= 0.0 then 0
    else if x >= 255.0 then 255
    else
      var f := x.Floor;
      if f as real + 0.5 < x then f + 1
      else if x < f as real + 0.5 then f
      else if f % 2 == 1 then f + 1
      else f
  }

  /** Between the bounds, ToUint8Clamp rounds to the nearest integer, and a value
      exactly halfway between two integers goes to the even one. */
  lemma {:induction false} Clamp8Rounds(x: real)
    requires 0.0 <= x <= 255.0
    ensures x - 0.5 <= Clamp8(x) as real <= x + 0.5
    ensures Clamp8(x) as real == x - 0.5 || Clamp8(x) as real == x + 0.5 ==> Clamp8(x) % 2 == 0
  {
  }

  /** Storing a value that is already a byte stores it unchanged. */
  lemma Clamp8OfByte(n: int)
    requires IsByte(n)
    ensures Clamp8(n as real) == n
  {
  }

  /** ToUint8Clamp never reverses the order of two values. */
  lemma Clamp8Monotone(x: real, y: real)
    requires x <= y
    ensures Clamp8(x) <= Clamp8(y)
  {
    if 0.0 < x && y < 255.0 && x.Floor == y.Floor {
      var f := x.Floor;
      if x == f as real + 0.5 {
        assert y >= x;
      }
    }
  }

  /** A JavaScript Number.  Finite values are modelled by the exact rational they
      denote; the rounding of double-precision arithmetic is not modelled. */
  datatype JsNumber = Finite(v: real) | NaN | Infinity(negative: bool)

  /** Multiplication of a non-negative integer by a Number (the `*` operator). */
  function Times(a: nat, x: JsNumber): (r: JsNumber)
    ensures r.Finite? <==> x.Finite?
    ensures x.Finite? && a > 0 ==> r.v / a as real == x.v
    ensures x.Finite? && a == 0 ==> r.v == 0.0
    ensures !x.Finite? && a > 0 ==> r == x
    ensures !x.Finite? && a == 0 ==> r == NaN
  {
    match x
    case Finite(v) => Finite(a as real * v)
    case NaN => NaN
    case Infinity(neg) => if a == 0 then NaN else Infinity(neg)
  }

  /** Division of a Number by a positive constant (the `/` operator). */
  function DivideBy(x: JsNumber, d: real): (r: JsNumber)
    requires d > 0.0
    ensures x.Finite? ==> r.Finite? && r.v * d == x.v
    ensures !x.Finite? ==> r == x
  {
    match x
    case Finite(v) => Finite(v / d)
    case _ => x
  }

  /** The integral part of a real, rounding toward zero. */
  function Truncate(v: real): (n: int)
    ensures 0.0 <= v ==> 0 <= n && n as real <= v < n as real + 1.0
    ensures v < 0.0 ==> n <= 0 && n as real - 1.0 < v <= n as real
  {
    if v >= 0.0 then v.Floor else -((-v).Floor)
  }

  const TwoTo32: int := 0x1_0000_0000

  /** ToUint32 (section 7.1.7 of ECMA-262): NaN and the infinities become 0, anything
      else is truncated toward zero and reduced modulo 2^32. */
  function ToUint32(x: JsNumber): (n: nat)
    ensures n < TwoTo32
    ensures !x.Finite? ==> n == 0
    ensures x.Finite? ==> (n - Truncate(x.v)) % TwoTo32 == 0
  {
    match x
    case Finite(v) => Truncate(v) % TwoTo32
    case _ => 0
  }
}
