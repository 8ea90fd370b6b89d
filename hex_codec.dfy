/**
  The sender identity codec: `f"{value:08x}"`, the node number written in
  lowercase hexadecimal and left-padded with zeros to a width of eight
  characters (a minus sign, when present, counts towards the width).
 */
module HexCodec {

  predicate IsHexDigit(c: char) {
    '0' <= c <= '9' || 'a' <= c <= 'f'
  }

  predicate AllHexDigits(s: string) {
    forall i :: 0 <= i < |s| ==> IsHexDigit(s[i])
  }

  /** The lowercase digit for a value below sixteen. */
  function HexChar(d: nat): (c: char)
    requires d < 16
    ensures IsHexDigit(c)
    ensures DigitValue(c) == d
  {
    if d < 10 then ('0' as int + d) as char else ('a' as int + d - 10) as char
  }

  /** The value of one hexadecimal digit. */
  function DigitValue(c: char): (d: nat)
    requires IsHexDigit(c)
    ensures d < 16
  {
    if c <= '9' then c as int - '0' as int else c as int - 'a' as int + 10
  }

  function Pow16(n: nat): (p: nat)
    ensures p >= 1
  {
    if n == 0 then 1 else 16 * Pow16(n - 1)
  }

  /** The shortest hexadecimal numeral of `v`, most significant digit first ("0" for zero). */
  function Digits(v: nat): (s: string)
    ensures |s| >= 1 && AllHexDigits(s)
    ensures v > 0 ==> s[0] != '0'
    decreases v
  {
    if v < 16 then [HexChar(v)] else Digits(v / 16) + [HexChar(v % 16)]
  }

  function Zeros(n: nat): (z: string)
    ensures |z| == n && forall i :: 0 <= i < n ==> z[i] == '0'
  {
    seq(n, _ => '0')
  }

  /** Left-pads `s` with zeros to `width` characters; longer strings are kept whole. */
  function ZeroPad(s: string, width: nat): string {
    if |s| < width then Zeros(width - |s|) + s else s
  }

  /** `f"{value:08x}"` for a Python integer. */
  function ToHexString(value: int): string {
    if value >= 0 then ZeroPad(Digits(value), 8) else "-" + ZeroPad(Digits(-value), 7)
  }

  /** Reads a string of hexadecimal digits as a number in base sixteen. */
  function FromHex(s: string): nat
    requires AllHexDigits(s)
  {
    if s == [] then 0 else FromHex(s[..|s| - 1]) * 16 + DigitValue(s[|s| - 1])
  }

  lemma {:induction false} FromHexDigits(v: nat)
    ensures FromHex(Digits(v)) == v
    decreases v
  {
    if v >= 16 {
      var s := Digits(v);
      assert s[..|s| - 1] == Digits(v / 16);
      FromHexDigits(v / 16);
    }
  }

  lemma {:induction false} FromHexZeros(n: nat)
    ensures FromHex(Zeros(n)) == 0
  {
    if n > 0 {
      assert Zeros(n)[..n - 1] == Zeros(n - 1);
      FromHexZeros(n - 1);
    }
  }

  /** Leading zeros do not change the value of a numeral. */
  lemma {:induction false} FromHexLeadingZeros(n: nat, s: string)
    requires AllHexDigits(s)
    ensures AllHexDigits(Zeros(n) + s) && FromHex(Zeros(n) + s) == FromHex(s)
    decreases |s|
  {
    var t := Zeros(n) + s;
    if s == [] {
      assert t == Zeros(n);
      FromHexZeros(n);
    } else {
      var p := s[..|s| - 1];
      assert t[..|t| - 1] == Zeros(n) + p;
      FromHexLeadingZeros(n, p);
    }
  }

  /** A zero-padded numeral still reads back as the number, and is at least `width` long. */
  lemma PaddedDigits(v: nat, width: nat)
    ensures var s := ZeroPad(Digits(v), width);
      |s| >= width && AllHexDigits(s) && FromHex(s) == v
  {
    var d := Digits(v);
    FromHexDigits(v);
    if |d| < width {
      FromHexLeadingZeros(width - |d|, d);
    }
  }

  /** Reading the digits of a sender key back in base sixteen gives the number it was made from. */
  lemma DecodeToHexString(v: nat)
    ensures AllHexDigits(ToHexString(v))
    ensures FromHex(ToHexString(v)) == v
  {
    PaddedDigits(v, 8);
  }

  /** The numeral of `v` fits in `n` digits exactly when `v` is below `16^n`. */
  lemma {:induction false} DigitsLength(v: nat, n: nat)
    requires n >= 1
    ensures |Digits(v)| <= n <==> v < Pow16(n)
    decreases v
  {
    if v < 16 {
      assert Pow16(n) == 16 * Pow16(n - 1);
    } else if n == 1 {
      assert |Digits(v)| == |Digits(v / 16)| + 1;
    } else {
      DigitsLength(v / 16, n - 1);
      assert Pow16(n) == 16 * Pow16(n - 1);
      assert v / 16 < Pow16(n - 1) <==> v < 16 * Pow16(n - 1);
    }
  }

  /**
    For every 32-bit node number the key is exactly eight lowercase
    hexadecimal digits; a larger number gives a longer key.
   */
  lemma ToHexStringWidth(v: nat)
    ensures AllHexDigits(ToHexString(v))
    ensures |ToHexString(v)| == 8 <==> v < 0x1_0000_0000
    ensures |ToHexString(v)| >= 8
  {
    assert Pow16(8) == 0x1_0000_0000;
    DigitsLength(v, 8);
    DecodeToHexString(v);
  }

  /** A negative `from` formats as a minus sign followed by its magnitude padded to seven digits. */
  lemma NegativeKey(v: int)
    requires v < 0
    ensures var s := ToHexString(v);
      |s| >= 8 && s[0] == '-' && AllHexDigits(s[1..]) && FromHex(s[1..]) == -v
  {
    var p := ZeroPad(Digits(-v), 7);
    PaddedDigits(-v, 7);
    assert ToHexString(v)[1..] == p;
  }

  /** Distinct node numbers never share a sender key. */
  lemma ToHexStringInjective(a: int, b: int)
    ensures ToHexString(a) == ToHexString(b) ==> a == b
  {
    if ToHexString(a) == ToHexString(b) {
      if a >= 0 && b >= 0 {
        DecodeToHexString(a);
        DecodeToHexString(b);
      } else if a < 0 && b < 0 {
        NegativeKey(a);
        NegativeKey(b);
      } else if a >= 0 {
        DecodeToHexString(a);
        NegativeKey(b);
      } else {
        DecodeToHexString(b);
        NegativeKey(a);
      }
    }
  }

  lemma ToHexStringExamples()
    ensures ToHexString(0) == "00000000"
    ensures ToHexString(256) == "00000100"
    ensures ToHexString(-1) == "-0000001"
  {
    assert Digits(256) == Digits(16) + ['0'];
    assert Digits(16) == Digits(1) + ['0'];
    assert Digits(256) == "100";
  }
}
