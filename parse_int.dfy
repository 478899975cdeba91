/** The global `parseInt` of JavaScript called with one argument (section 19.2.5 of
    ECMA-262), which applyTransform uses to read its rotation angle, together with
    the decimal numerals it is meant to read. */
module JsParseInt {
  import opened JsValues

  /** StrWhiteSpaceChar (section 7.1.4.1 of ECMA-262): the WhiteSpace code points
      (tab, vertical tab, form feed, the byte order mark and every space separator)
      and the LineTerminator code points. */
  predicate IsStrWhiteSpace(c: char) {
    c == '\t' || c == '\U{B}' || c == '\U{C}' || c == '\U{FEFF}'
    || c == ' ' || c == '\U{A0}' || c == '\U{1680}' || ('\U{2000}' <= c <= '\U{200A}')
    || c == '\U{202F}' || c == '\U{205F}' || c == '\U{3000}'
    || c == '\n' || c == '\r' || c == '\U{2028}' || c == '\U{2029}'
  }

  /** The string with its leading white space removed. */
  function TrimStart(s: string): (t: string)
    ensures |t| <= |s| && t == s[|s| - |t|..]
    ensures t == [] || !IsStrWhiteSpace(t[0])
    ensures forall i :: 0 <= i < |s| - |t| ==> IsStrWhiteSpace(s[i])
  {
    if s != [] && IsStrWhiteSpace(s[0]) then TrimStart(s[1..]) else s
  }

  /** The value of a character as a digit: 0-9 for the decimal digits, 10-35 for the
      Latin letters in either case, and 36 (a digit in no radix) for anything else. */
  function DigitValue(c: char): (d: nat)
    ensures d <= 36
  {
    if '0' <= c <= '9' then c as int - '0' as int
    else if 'a' <= c <= 'z' then c as int - 'a' as int + 10
    else if 'A' <= c <= 'Z' then c as int - 'A' as int + 10
    else 36
  }

  /** The length of the longest prefix of s made of digits of the given radix. */
  function DigitPrefixLength(s: string, radix: nat): (n: nat)
    ensures n <= |s|
    ensures forall i :: 0 <= i < n ==> DigitValue(s[i]) < radix
    ensures n < |s| ==> DigitValue(s[n]) >= radix
  {
    if s == [] || DigitValue(s[0]) >= radix then 0 else 1 + DigitPrefixLength(s[1..], radix)
  }

  /** The number that a string of digits denotes in the given radix. */
  function DigitsValue(ds: string, radix: nat): nat
    decreases |ds|
  {
    if ds == [] then 0
    else DigitsValue(ds[..|ds| - 1], radix) * radix + DigitValue(ds[|ds| - 1])
  }

  /** The longest run of radix digits at the front of s, read as a number; None when
      s does not start with such a digit. */
  function ReadDigits(s: string, radix: nat): (r: Option<nat>)
    ensures r.Some? <==> s != [] && DigitValue(s[0]) < radix
  {
    var n := DigitPrefixLength(s, radix);
    if n == 0 then None else Some(DigitsValue(s[..n], radix))
  }

  /** Reading after the sign: a "0x" or "0X" prefix selects radix 16, otherwise 10. */
  function ReadMagnitude(u: string): (r: Option<nat>)
    ensures r.Some? ==> u != [] && DigitValue(u[0]) < 10
  {
    if |u| >= 2 && u[0] == '0' && (u[1] == 'x' || u[1] == 'X') then ReadDigits(u[2..], 16)
    else ReadDigits(u, 10)
  }

  /** Reading a string that does not start with white space: one optional sign. */
  function ReadSigned(t: string): (r: Option<int>)
    ensures r.Some? ==> t != []
    ensures r.Some? && t[0] == '-' ==> r.value <= 0
    ensures r.Some? && t[0] != '-' ==> r.value >= 0
  {
    if t != [] && (t[0] == '-' || t[0] == '+') then
      match ReadMagnitude(t[1..])
      case None => None
      case Some(m) => var v: int := if t[0] == '-' then -(m as int) else m; Some(v)
    else
      match ReadMagnitude(t)
      case None => None
      case Some(m) => Some(m)
  }

  /** `parseInt(s)` with no radix argument.  None stands for NaN.  Leading white space
      is skipped, one sign is accepted, a "0x" or "0X" prefix selects radix 16, and the
      longest run of digits that follows is read; anything after it is ignored.  The
      negative zero that "-0" gives is not told apart from zero. */
  function ParseInt(s: string): (r: Option<int>)
    ensures r.Some? ==> var t := TrimStart(s);
      t != [] && (t[0] == '-' || t[0] == '+' || DigitValue(t[0]) < 10)
  {
    ReadSigned(TrimStart(s))
  }

  function DigitChar(d: nat): (c: char)
    requires d < 10
    ensures DigitValue(c) == d
  {
    ('0' as int + d) as char
  }

  /** The decimal numeral of a natural number, most significant digit first. */
  function NatToDecimal(n: nat): (ds: string)
    ensures |ds| >= 1
    ensures forall i :: 0 <= i < |ds| ==> DigitValue(ds[i]) < 10
    ensures DigitsValue(ds, 10) == n
  {
    if n < 10 then [DigitChar(n)]
    else
      var front := NatToDecimal(n / 10);
      var ds := front + [DigitChar(n % 10)];
      assert ds[..|ds| - 1] == front;
      ds
  }

  /** The decimal numeral of an integer, with a leading '-' when it is negative. */
  function IntToDecimal(n: int): string {
    if n < 0 then "-" + NatToDecimal(-n) else NatToDecimal(n)
  }

  /** rest does not continue the decimal numeral of n: it is empty or starts with a
      character that is no decimal digit, and after the numeral "0" not with the 'x'
      or 'X' that would turn it into a hexadecimal prefix. */
  predicate EndsNumeral(n: int, rest: string) {
    rest == [] || (DigitValue(rest[0]) >= 10 && (n != 0 || (rest[0] != 'x' && rest[0] != 'X')))
  }

  /** Reading stops at the first character that is not a digit of the radix. */
  lemma {:induction false} DigitPrefixOfDigits(ds: string, rest: string, radix: nat)
    requires forall i :: 0 <= i < |ds| ==> DigitValue(ds[i]) < radix
    requires rest == [] || DigitValue(rest[0]) >= radix
    ensures DigitPrefixLength(ds + rest, radix) == |ds|
  {
    if ds != [] {
      assert (ds + rest)[1..] == ds[1..] + rest;
      DigitPrefixOfDigits(ds[1..], rest, radix);
    } else {
      assert ds + rest == rest;
    }
  }

  /** parseInt reads back the decimal numeral of every integer, also when the numeral
      is followed by text that does not continue it (as in "90deg"). */
  lemma {:induction false} ParseIntOfDecimal(n: int, rest: string)
    requires EndsNumeral(n, rest)
    ensures ParseInt(IntToDecimal(n) + rest) == Some(n)
  {
    var s := IntToDecimal(n) + rest;
    if n < 0 {
      ReadSignedOfNegative(n, rest, s);
      assert s[0] == '-';
      TrimStartOfNonSpace(s);
    } else {
      assert DigitValue(s[0]) < 10;
      TrimStartOfNonSpace(s);
      ReadSignedOfNatural(n, rest);
    }
  }

  lemma {:induction false} ReadSignedOfNatural(n: nat, rest: string)
    requires EndsNumeral(n, rest)
    ensures ReadSigned(NatToDecimal(n) + rest) == Some(n)
  {
    var s := NatToDecimal(n) + rest;
    assert DigitValue(s[0]) < 10;
    ReadMagnitudeOfDecimal(n, rest);
  }

  lemma {:induction false} ReadSignedOfNegative(n: int, rest: string, s: string)
    requires n < 0 && s == IntToDecimal(n) + rest
    requires EndsNumeral(n, rest)
    ensures ReadSigned(s) == Some(n)
  {
    NegativeNumeral(n, rest);
    assert s[1..] == NatToDecimal(-n) + rest;
    assert EndsNumeral(-n, rest);
    ReadMagnitudeOfDecimal(-n, rest);
    ReadSignedOfMinus(s, -n);
  }

  lemma {:induction false} NegativeNumeral(n: int, rest: string)
    requires n < 0
    ensures |IntToDecimal(n) + rest| > 0 && (IntToDecimal(n) + rest)[0] == '-'
    ensures (IntToDecimal(n) + rest)[1..] == NatToDecimal(-n) + rest
  {
    var ds := NatToDecimal(-n);
    assert IntToDecimal(n) == ['-'] + ds;
    assert (['-'] + ds + rest)[1..] == ds + rest;
  }

  lemma {:induction false} ReadSignedOfMinus(s: string, m: nat)
    requires s != [] && s[0] == '-' && ReadMagnitude(s[1..]) == Some(m)
    ensures ReadSigned(s) == Some(-(m as int))
  {
  }

  lemma {:induction false} TrimStartOfNonSpace(s: string)
    requires s != [] && !IsStrWhiteSpace(s[0])
    ensures TrimStart(s) == s
  {
  }

  lemma {:induction false} ReadMagnitudeOfDecimal(m: nat, rest: string)
    requires EndsNumeral(m, rest)
    ensures ReadMagnitude(NatToDecimal(m) + rest) == Some(m)
  {
    var ds := NatToDecimal(m);
    var u := ds + rest;
    DigitPrefixOfDigits(ds, rest, 10);
    assert u[..|ds|] == ds;
    if |u| >= 2 && u[0] == '0' {
      LeadingZeroOnlyOfZero(m);
      assert u[1] == rest[0];
    }
  }

  /** Only the numeral of 0 starts with the digit 0. */
  lemma {:induction false} LeadingZeroOnlyOfZero(n: nat)
    requires NatToDecimal(n)[0] == '0'
    ensures n == 0 && NatToDecimal(n) == "0"
    decreases n
  {
    if n >= 10 {
      var front := NatToDecimal(n / 10);
      assert NatToDecimal(n)[0] == front[0];
      LeadingZeroOnlyOfZero(n / 10);
      assert false;
    }
  }

  /** Leading white space does not change what parseInt reads. */
  lemma {:induction false} ParseIntSkipsWhiteSpace(ws: string, s: string)
    requires forall i :: 0 <= i < |ws| ==> IsStrWhiteSpace(ws[i])
    ensures ParseInt(ws + s) == ParseInt(s)
  {
    TrimStartSkips(ws, s);
  }

  lemma {:induction false} TrimStartSkips(ws: string, s: string)
    requires forall i :: 0 <= i < |ws| ==> IsStrWhiteSpace(ws[i])
    ensures TrimStart(ws + s) == TrimStart(s)
  {
    if ws == [] {
      assert ws + s == s;
    } else {
      assert (ws + s)[1..] == ws[1..] + s;
      TrimStartSkips(ws[1..], s);
    }
  }

  /** A string whose first character after the white space is a decimal digit, and
      that does not open with "0x" or "0X", reads as the number its longest run of
      decimal digits denotes.  With the ensures of ParseInt this pins down when
      unsigned text gives a number. */
  lemma {:induction false} ParseIntOfLeadingDigits(s: string)
    requires var t := TrimStart(s);
      t != [] && DigitValue(t[0]) < 10 && !(|t| >= 2 && t[0] == '0' && (t[1] == 'x' || t[1] == 'X'))
    ensures var t := TrimStart(s);
      ParseInt(s) == Some(DigitsValue(t[..DigitPrefixLength(t, 10)], 10))
  {
    var t := TrimStart(s);
    var n := DigitPrefixLength(t, 10);
    assert t[0] != '-' && t[0] != '+' && n >= 1;
    assert ReadDigits(t, 10) == Some(DigitsValue(t[..n], 10));
    assert ReadMagnitude(t) == ReadDigits(t, 10);
  }

  /** After a "0x" prefix parseInt reads radix 16: the longest run of hexadecimal
      digits that follows is read, and anything after it is ignored. */
  lemma {:induction false} ParseIntOfHex(ds: string, rest: string)
    requires |ds| >= 1 && forall i :: 0 <= i < |ds| ==> DigitValue(ds[i]) < 16
    requires rest == [] || DigitValue(rest[0]) >= 16
    ensures ParseInt("0x" + ds + rest) == Some(DigitsValue(ds, 16))
  {
    var s := "0x" + ds + rest;
    assert s[0] == '0' && s[1] == 'x' && s[2..] == ds + rest;
    TrimStartOfNonSpace(s);
    DigitPrefixOfDigits(ds, rest, 16);
    assert (ds + rest)[..|ds|] == ds;
    assert ReadDigits(s[2..], 16) == Some(DigitsValue(ds, 16));
    assert ReadMagnitude(s) == ReadDigits(s[2..], 16);
  }

  /** A "0x" prefix makes parseInt read radix 16: "0x5A" is 90. */
  lemma {:induction false} ParseIntHexExample()
    ensures ParseInt("0x5A") == Some(90)
  {
    ReadHexMagnitudeExample();
    TrimStartOfNonSpace("0x5A");
  }

  lemma {:induction false} ReadHexMagnitudeExample()
    ensures ReadMagnitude("0x5A") == Some(90)
  {
    assert "0x5A"[2..] == "5A";
    ReadHexDigitsExample();
  }

  lemma {:induction false} ReadHexDigitsExample()
    ensures ReadDigits("5A", 16) == Some(90)
  {
    assert DigitPrefixLength("5A", 16) == 2;
    assert "5A"[..2] == "5A";
    assert DigitsValue("5A", 16) == 90 by {
      assert "5A"[..1] == "5";
      assert "5"[..0] == [];
    }
  }
}
