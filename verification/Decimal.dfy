/** Decimal text of integers: Python's `str` on integers, and `int` on ASCII strings. */
module Decimal {
  import opened Wrappers

  predicate IsDigit(c: char) {
    '0' <= c <= '9'
  }

  function Digit(v: nat): char
    requires v < 10
  {
    '0' + v as char
  }

  function DigitValue(c: char): nat
    requires IsDigit(c)
  {
    (c - '0') as nat
  }

  function NatText(n: nat): (s: string)
    ensures s != []
    ensures forall c :: c in s ==> IsDigit(c)
  {
    if n < 10 then [Digit(n)] else NatText(n / 10) + [Digit(n % 10)]
  }

  /** Digits, with single underscores allowed between them; leading zeros are read. */
  function ParseNat(s: string): Option<nat> {
    if s == [] || !IsDigit(s[|s| - 1]) then None
    else if |s| == 1 then Some(DigitValue(s[0]))
    else match ParseNat(if s[|s| - 2] == '_' then s[..|s| - 2] else s[..|s| - 1])
      case None => None
      case Some(v) => Some(10 * v + DigitValue(s[|s| - 1]))
  }

  lemma {:induction false} ParseNatText(n: nat)
    ensures ParseNat(NatText(n)) == Some(n)
  {
    if n >= 10 {
      ParseNatText(n / 10);
      var s := NatText(n);
      assert s[..|s| - 1] == NatText(n / 10);
      assert s[|s| - 2] in s && !IsDigit('_');
    }
  }

  predicate IsSpace(c: char) {
    c == ' ' || '\t' <= c <= '\r' || '\U{1c}' <= c <= '\U{1f}'
  }

  /** `s.strip()` */
  function Strip(s: string): string
    decreases |s|
  {
    if s == [] then s
    else if IsSpace(s[0]) then Strip(s[1..])
    else if IsSpace(s[|s| - 1]) then Strip(s[..|s| - 1])
    else s
  }

  /** `str(n)` */
  function IntText(n: int): (s: string)
    ensures s != []
    ensures forall c :: c in s ==> IsDigit(c) || c == '-'
  {
    if n < 0 then ['-'] + NatText(-n) else NatText(n)
  }

  /** The number after its sign, if any. */
  function ParseSigned(t: string): Option<int> {
    if t != [] && t[0] == '-' then
      match ParseNat(t[1..])
      case None => None
      case Some(v) => var magnitude: int := v; Some(-magnitude)
    else
      ParseNat(if t != [] && t[0] == '+' then t[1..] else t)
  }

  /** `int(s)`: spaces around and a sign are accepted; `None` when it raises. */
  function ParseInt(s: string): Option<int> {
    ParseSigned(Strip(s))
  }

  lemma ParsePositive(s: string)
    requires s != [] && IsDigit(s[0])
    ensures ParseSigned(s) == ParseNat(s)
  {
  }

  lemma ParseNegative(s: string)
    ensures ParseSigned(['-'] + s)
            == match ParseNat(s) case None => None case Some(v) => var magnitude: int := v; Some(-magnitude)
  {
  }

  lemma ParseSignedText(n: int)
    ensures ParseSigned(IntText(n)) == Some(n)
  {
    if n < 0 {
      ParseNatText(-n);
      ParseNegative(NatText(-n));
    } else {
      ParseNatText(n);
      assert NatText(n)[0] in NatText(n);
      ParsePositive(NatText(n));
    }
  }

  lemma NothingToStrip(s: string)
    requires forall c :: c in s ==> IsDigit(c) || c == '-'
    ensures Strip(s) == s
  {
    if s != [] {
      assert s[0] in s && s[|s| - 1] in s;
    }
  }

  /** Reading back the text of any integer gives that integer. */
  lemma ParseIntText(n: int)
    ensures ParseInt(IntText(n)) == Some(n)
  {
    NothingToStrip(IntText(n));
    ParseSignedText(n);
  }

  // ------------------------------------------------- what else `int` accepts

  predicate AllDigits(s: string) {
    forall i :: 0 <= i < |s| ==> IsDigit(s[i])
  }

  /** The number written by some digits, leading zeros allowed. */
  function Written(s: string): nat
    requires AllDigits(s)
  {
    if s == [] then 0 else 10 * Written(s[..|s| - 1]) + DigitValue(s[|s| - 1])
  }

  lemma {:induction false} ParseDigits(s: string)
    requires AllDigits(s) && s != []
    ensures ParseNat(s) == Some(Written(s))
  {
    if |s| > 1 {
      assert s[|s| - 2] != '_';
      ParseDigits(s[..|s| - 1]);
    }
  }

  /** A single underscore between digits is skipped. */
  lemma {:induction false} ParseUnderscore(a: string, b: string)
    requires AllDigits(a) && AllDigits(b) && a != [] && b != []
    ensures ParseNat(a + "_" + b) == ParseNat(a + b)
  {
    var front, last := b[..|b| - 1], b[|b| - 1];
    var s, t := a + "_" + b, a + b;
    assert s[|s| - 1] == last && t[|t| - 1] == last;
    assert t[|t| - 2] != '_';
    if |b| == 1 {
      assert s[..|s| - 2] == a && t[..|t| - 1] == a;
    } else {
      assert s[|s| - 2] == b[|b| - 2] && s[..|s| - 1] == a + "_" + front && t[..|t| - 1] == a + front;
      ParseUnderscore(a, front);
    }
  }

  lemma StripDigits(s: string)
    requires s != [] && !IsSpace(s[0]) && !IsSpace(s[|s| - 1])
    ensures Strip(s) == s && Strip([' '] + s) == s && Strip(s + [' ']) == s
  {
    assert ([' '] + s)[1..] == s && (s + [' '])[..|s|] == s;
  }

  /** Spaces around the number and a sign in front of it are read; a fraction is not. */
  lemma ParseSpacesAndSigns(s: string)
    requires AllDigits(s) && s != []
    ensures ParseInt(s) == Some(Written(s)) && ParseInt(" " + s) == ParseInt(s + " ") == ParseInt(s)
    ensures ParseInt("+" + s) == Some(Written(s)) && ParseInt("-" + s) == Some(-(Written(s) as int))
    ensures ParseInt(s + ".") == None && ParseInt("") == None
  {
    ParseDigits(s);
    assert IsDigit(s[0]) && IsDigit(s[|s| - 1]);
    StripDigits(s);
    StripDigits("+" + s);
    StripDigits("-" + s);
    StripDigits(s + ".");
    assert ("+" + s)[1..] == s && ("-" + s)[1..] == s;
    assert (s + ".")[|s|] == '.';
  }

  /** Text that `str` produces. On such text, writing back what was read changes nothing. */
  predicate IsIntText(s: string) {
    match ParseInt(s)
    case None => false
    case Some(v) => IntText(v) == s
  }
}
