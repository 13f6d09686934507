/** Bit strings, hex strings and the conversions between them (report_processing.py:105-152). */
module Bits {
  import opened Wrappers

  type BitString = seq<bool>

  function Pow2(n: nat): (p: nat)
    ensures p > 0
  {
    if n == 0 then 1 else 2 * Pow2(n - 1)
  }

  function BitValue(b: bool): nat {
    if b then 1 else 0
  }

  /** Python's `s[lo:hi]`, which clamps both bounds. */
  function Slice<T>(s: seq<T>, lo: nat, hi: nat): (r: seq<T>)
    ensures |r| <= |s|
  {
    var hi' := if hi < |s| then hi else |s|;
    if lo < hi' then s[lo..hi'] else []
  }

  // ------------------------------------------------------------------ numbers

  function Binary(n: nat, width: nat): (b: BitString)
    ensures |b| == width
  {
    if width == 0 then [] else Binary(n / 2, width - 1) + [n % 2 == 1]
  }

  /** The decimal branch of `__to_bitstring`: raises unless 0 <= n < 2^width. */
  function ToBitString(n: int, width: nat): Result<BitString> {
    if n < 0 || n >= Pow2(width) then Raised else Ok(Binary(n, width))
  }

  function Value(b: BitString): nat {
    if b == [] then 0 else 2 * Value(b[..|b| - 1]) + BitValue(b[|b| - 1])
  }

  /** `__from_bitstring`: `int("", 2)` raises. */
  function FromBitString(b: BitString): Result<nat> {
    if b == [] then Raised else Ok(Value(b))
  }

  lemma {:induction false} ValueOfBinary(n: nat, width: nat)
    requires n < Pow2(width)
    ensures Value(Binary(n, width)) == n
  {
    if width > 0 {
      ValueOfBinary(n / 2, width - 1);
      assert Binary(n, width)[..width - 1] == Binary(n / 2, width - 1);
    }
  }

  lemma {:induction false} BinaryOfValue(b: BitString)
    ensures Value(b) < Pow2(|b|)
    ensures Binary(Value(b), |b|) == b
  {
    if b != [] {
      var front := b[..|b| - 1];
      BinaryOfValue(front);
      assert Value(b) / 2 == Value(front);
      assert b == front + [b[|b| - 1]];
    }
  }

  // ---------------------------------------------------------------------- hex

  function HexDigit(v: nat): char
    requires v < 16
  {
    if v < 10 then '0' + v as char else 'A' + (v - 10) as char
  }

  function HexValue(c: char): (v: Option<nat>)
    ensures v.Some? ==> v.value < 16
  {
    if '0' <= c <= '9' then Some((c - '0') as nat)
    else if 'A' <= c <= 'F' then Some((c - 'A') as nat + 10)
    else if 'a' <= c <= 'f' then Some((c - 'a') as nat + 10)
    else None
  }

  predicate IsHex(s: string) {
    forall i :: 0 <= i < |s| ==> HexValue(s[i]).Some?
  }

  function UpperChar(c: char): char {
    if 'a' <= c <= 'z' then c - 'a' + 'A' else c
  }

  function LowerChar(c: char): char {
    if 'A' <= c <= 'Z' then c - 'A' + 'a' else c
  }

  function Upper(s: string): string {
    seq(|s|, i requires 0 <= i < |s| => UpperChar(s[i]))
  }

  function Lower(s: string): string {
    seq(|s|, i requires 0 <= i < |s| => LowerChar(s[i]))
  }

  /** Four bits per hex digit, in order. */
  function Nibbles(s: string): (b: BitString)
    requires IsHex(s)
    ensures |b| == 4 * |s|
  {
    if s == [] then []
    else Nibbles(s[..|s| - 1]) + Binary(HexValue(s[|s| - 1]).value, 4)
  }

  /** The hex branch of `__to_bitstring`; length 0 stands for "any length". */
  function HexToBitString(s: string, length: nat): Result<BitString> {
    if (length != 0 && |s| * 4 != length) || s == [] || !IsHex(s) then Raised
    else Ok(Nibbles(s))
  }

  /** `'%0*X' % (width, v)` for a value that fits. */
  function HexText(v: nat, width: nat): (s: string)
    ensures |s| == width
  {
    if width == 0 then [] else HexText(v / 16, width - 1) + [HexDigit(v % 16)]
  }

  /** `__to_hex`: the length must be a positive multiple of four. */
  function ToHex(b: BitString): Result<string> {
    if |b| % 4 != 0 || b == [] then Raised else Ok(HexText(Value(b), |b| / 4))
  }

  lemma {:induction false} ValueOfAppend(a: BitString, b: BitString)
    ensures Value(a + b) == Value(a) * Pow2(|b|) + Value(b)
  {
    if b == [] {
      assert a + b == a;
    } else {
      var front := b[..|b| - 1];
      ValueOfAppend(a, front);
      assert (a + b)[..|a + b| - 1] == a + front;
      assert Value(a) * Pow2(|b|) == 2 * (Value(a) * Pow2(|front|));
    }
  }

  /** Appending four bits shifts the value by one hex digit. */
  lemma AppendNibble(a: BitString, b: BitString)
    requires |b| == 4
    ensures Value(b) < 16
    ensures Value(a + b) / 16 == Value(a) && Value(a + b) % 16 == Value(b)
  {
    ValueOfAppend(a, b);
    BinaryOfValue(b);
    assert Pow2(4) == 2 * Pow2(3) && Pow2(3) == 2 * Pow2(2) && Pow2(2) == 4;
  }

  lemma NibbleOfDigit(front: string, v: nat)
    requires IsHex(front) && v < 16
    ensures Value(Nibbles(front) + Binary(v, 4)) / 16 == Value(Nibbles(front))
    ensures Value(Nibbles(front) + Binary(v, 4)) % 16 == v
  {
    AppendNibble(Nibbles(front), Binary(v, 4));
    assert Pow2(4) == 2 * Pow2(3) && Pow2(3) == 2 * Pow2(2) && Pow2(2) == 4;
    ValueOfBinary(v, 4);
  }

  lemma HexDigitRoundTrip(v: nat)
    requires v < 16
    ensures HexValue(HexDigit(v)) == Some(v)
    ensures UpperChar(HexDigit(v)) == HexDigit(v)
  {
  }

  lemma HexDigitOfValue(c: char)
    requires HexValue(c).Some?
    ensures HexDigit(HexValue(c).value) == UpperChar(c)
  {
  }

  lemma {:induction false} HexTextIsUpperHex(v: nat, width: nat)
    ensures IsHex(HexText(v, width))
    ensures Upper(HexText(v, width)) == HexText(v, width)
  {
    if width > 0 {
      HexTextIsUpperHex(v / 16, width - 1);
      HexDigitRoundTrip(v % 16);
      var s := HexText(v, width);
      forall i | 0 <= i < |s|
        ensures HexValue(s[i]).Some? && UpperChar(s[i]) == s[i]
      {
        if i < width - 1 {
          assert s[i] == HexText(v / 16, width - 1)[i];
          assert UpperChar(s[i]) == Upper(HexText(v / 16, width - 1))[i];
        }
      }
    }
  }

  /** Printing bits as hex and reading the digits one by one gives the bits back. */
  lemma {:induction false} NibblesOfToHex(b: BitString)
    requires |b| % 4 == 0
    ensures IsHex(HexText(Value(b), |b| / 4))
    ensures Nibbles(HexText(Value(b), |b| / 4)) == b
  {
    HexTextIsUpperHex(Value(b), |b| / 4);
    if b != [] {
      var front, last := b[..|b| - 4], b[|b| - 4..];
      assert b == front + last;
      AppendNibble(front, last);
      NibblesOfToHex(front);
      BinaryOfValue(last);
      var w := |b| / 4;
      assert |front| / 4 == w - 1;
      var s := HexText(Value(b), w);
      assert s[..w - 1] == HexText(Value(front), w - 1);
      HexDigitRoundTrip(Value(last));
    }
  }

  /** Bits survive the trip through upper-case hex text. */
  lemma ToHexRoundTrip(b: BitString)
    requires |b| % 4 == 0 && b != []
    ensures ToHex(b).Ok?
    ensures var s := ToHex(b).value;
            |s| == |b| / 4 && IsHex(s) && Nibbles(s) == b && Upper(s) == s
  {
    NibblesOfToHex(b);
    HexTextIsUpperHex(Value(b), |b| / 4);
  }

  /** Reading hex digits and printing them again upper-cases them. */
  lemma {:induction false} ToHexOfNibbles(s: string)
    requires IsHex(s)
    ensures HexText(Value(Nibbles(s)), |s|) == Upper(s)
  {
    if s != [] {
      var front, v := s[..|s| - 1], HexValue(s[|s| - 1]).value;
      ToHexOfNibbles(front);
      NibbleOfDigit(front, v);
      assert Nibbles(s) == Nibbles(front) + Binary(v, 4);
      HexDigitOfValue(s[|s| - 1]);
      assert Upper(s) == Upper(front) + [UpperChar(s[|s| - 1])];
    }
  }

  /** The case of hex digits does not matter when they are read. */
  lemma {:induction false} NibblesIgnoreCase(s: string)
    ensures IsHex(Lower(s)) <==> IsHex(s)
    ensures IsHex(s) ==> Nibbles(Lower(s)) == Nibbles(s)
  {
    forall i | 0 <= i < |s|
      ensures HexValue(Lower(s)[i]) == HexValue(s[i])
    {
    }
    if IsHex(s) {
      assert forall i :: 0 <= i < |s| ==> HexValue(Lower(s)[i]) == HexValue(s[i]);
      if s != [] {
        var front := s[..|s| - 1];
        NibblesIgnoreCase(front);
        assert Lower(s)[..|s| - 1] == Lower(front);
      }
    } else {
      var i :| 0 <= i < |s| && HexValue(s[i]).None?;
      assert HexValue(Lower(s)[i]).None?;
    }
  }

  lemma LowerOfUpper(s: string)
    ensures Lower(Upper(s)) == Lower(s)
  {
  }
}
