/** The latest block number: a maximum over a column that holds decimal text
    (get_latest_block_number.sql). */
module LatestBlock {
  import opened Wrappers
  import opened Decimal

  /** The order of text values: the first different character decides, a prefix comes first. */
  predicate TextLess(a: string, b: string) {
    if b == [] then false
    else if a == [] then true
    else if a[0] != b[0] then a[0] < b[0]
    else TextLess(a[1..], b[1..])
  }

  /** `max` over a non-empty text column. */
  function MaxText(texts: seq<string>): string
    requires texts != []
  {
    if |texts| == 1 then texts[0]
    else
      var best := MaxText(texts[1..]);
      if TextLess(best, texts[0]) then texts[0] else best
  }

  function Texts(blocks: seq<nat>): (texts: seq<string>)
    ensures |texts| == |blocks|
  {
    seq(|blocks|, i requires 0 <= i < |blocks| => NatText(blocks[i]))
  }

  /** `get_latest_block_number`: -1 for an empty table. */
  function Latest(blocks: seq<nat>): Option<int> {
    if blocks == [] then Some(-1) else ParseInt(MaxText(Texts(blocks)))
  }

  // ---------------------------------------------------------- the text order

  lemma {:induction false} TextTotal(a: string, b: string)
    ensures !TextLess(a, b) && !TextLess(b, a) ==> a == b
    ensures !(TextLess(a, b) && TextLess(b, a))
  {
    if a != [] && b != [] && a[0] == b[0] {
      TextTotal(a[1..], b[1..]);
      assert a == [a[0]] + a[1..] && b == [b[0]] + b[1..];
    }
  }

  lemma {:induction false} TextTransitive(a: string, b: string, c: string)
    requires TextLess(a, b) && TextLess(b, c)
    ensures TextLess(a, c)
  {
    if a != [] && a[0] == b[0] && b[0] == c[0] {
      TextTransitive(a[1..], b[1..], c[1..]);
    }
  }

  lemma {:induction false} MaxTextIsLast(texts: seq<string>)
    requires texts != []
    ensures MaxText(texts) in texts
    ensures forall t :: t in texts ==> !TextLess(MaxText(texts), t)
  {
    if |texts| == 1 {
      TextTotal(texts[0], texts[0]);
    } else {
      MaxTextIsLast(texts[1..]);
      var best := MaxText(texts[1..]);
      assert texts == [texts[0]] + texts[1..];
      TextTotal(texts[0], texts[0]);
      forall t | t in texts ensures !TextLess(MaxText(texts), t) {
        if TextLess(best, texts[0]) && t in texts[1..] && TextLess(texts[0], t) {
          TextTransitive(best, texts[0], t);
        }
      }
    }
  }

  /** Appending a character to either side. */
  lemma {:induction false} TextLessSnoc(p: string, q: string, x: char, y: char)
    ensures |p| == |q| ==> (TextLess(p + [x], q + [y]) <==> TextLess(p, q) || (p == q && x < y))
    ensures |p| <= |q| ==> (TextLess(p, q + [y]) <==> TextLess(p, q) || p == q)
    ensures |p| >= |q| ==> (TextLess(p + [x], q) <==> TextLess(p, q))
  {
    if p != [] && q != [] {
      TextLessSnoc(p[1..], q[1..], x, y);
      assert (p + [x])[1..] == p[1..] + [x] && (q + [y])[1..] == q[1..] + [y];
      assert p == [p[0]] + p[1..] && q == [q[0]] + q[1..];
    }
  }

  // ---------------------------------------------------------- the numbers

  function Digits(n: nat): (d: nat)
    ensures d == |NatText(n)|
  {
    if n < 10 then 1 else Digits(n / 10) + 1
  }

  /** The number made of the first d digits. */
  function Lead(n: nat, d: nat): nat {
    if Digits(n) <= d || n < 10 then n else Lead(n / 10, d)
  }

  /** The text order on numbers: compare the digits that both have; on a tie the shorter is less. */
  predicate LeadLess(a: nat, b: nat) {
    if Digits(a) == Digits(b) then a < b
    else if Digits(a) < Digits(b) then a <= Lead(b, Digits(a))
    else Lead(a, Digits(b)) < b
  }

  lemma SameText(a: nat, b: nat)
    ensures NatText(a) == NatText(b) <==> a == b
  {
    ParseNatText(a);
    ParseNatText(b);
  }

  lemma SameLengthOrder(a: nat, b: nat)
    requires a >= 10 && b >= 10 && Digits(a) == Digits(b)
    ensures TextLess(NatText(a), NatText(b)) <==>
            TextLess(NatText(a / 10), NatText(b / 10)) || (a / 10 == b / 10 && a % 10 < b % 10)
  {
    TextLessSnoc(NatText(a / 10), NatText(b / 10), Digit(a % 10), Digit(b % 10));
    SameText(a / 10, b / 10);
  }

  lemma ShorterOrder(a: nat, b: nat)
    requires Digits(a) < Digits(b)
    ensures b >= 10 && Lead(b, Digits(a)) == Lead(b / 10, Digits(a))
    ensures TextLess(NatText(a), NatText(b)) <==> TextLess(NatText(a), NatText(b / 10)) || a == b / 10
  {
    assert NatText(b) == NatText(b / 10) + [Digit(b % 10)];
    TextLessSnoc(NatText(a), NatText(b / 10), '0', Digit(b % 10));
    SameText(a, b / 10);
  }

  lemma LongerOrder(a: nat, b: nat)
    requires Digits(a) > Digits(b)
    ensures a >= 10 && Lead(a, Digits(b)) == Lead(a / 10, Digits(b))
    ensures TextLess(NatText(a), NatText(b)) <==> TextLess(NatText(a / 10), NatText(b))
  {
    assert NatText(a) == NatText(a / 10) + [Digit(a % 10)];
    TextLessSnoc(NatText(a / 10), NatText(b), Digit(a % 10), '0');
  }

  lemma {:induction false} TextOrder(a: nat, b: nat)
    ensures TextLess(NatText(a), NatText(b)) <==> LeadLess(a, b)
    decreases a + b
  {
    if Digits(a) == Digits(b) {
      if a >= 10 {
        TextOrder(a / 10, b / 10);
        SameLengthOrder(a, b);
      }
    } else if Digits(a) < Digits(b) {
      TextOrder(a, b / 10);
      ShorterOrder(a, b);
    } else {
      TextOrder(a / 10, b);
      LongerOrder(a, b);
    }
  }

  lemma {:induction false} MoreDigits(a: nat, b: nat)
    requires a <= b
    ensures Digits(a) <= Digits(b)
  {
    if b >= 10 {
      MoreDigits(a / 10, b / 10);
    }
  }

  // ------------------------------------------------------------- the result

  /** Whether m is the largest block number in the table. */
  predicate IsLargest(blocks: seq<nat>, m: nat) {
    m in blocks && forall b :: b in blocks ==> b <= m
  }

  lemma LatestIsMaxText(blocks: seq<nat>, m: nat)
    requires m in blocks
    ensures Latest(blocks) == Some(m) <==> forall b :: b in blocks ==> !TextLess(NatText(m), NatText(b))
  {
    var texts := Texts(blocks);
    MaxTextIsLast(texts);
    var i :| 0 <= i < |blocks| && texts[i] == MaxText(texts);
    ParseIntText(blocks[i]);
    var k :| 0 <= k < |blocks| && blocks[k] == m;
    assert texts[k] in texts;
    forall b | b in blocks ensures NatText(b) in texts {
      var j :| 0 <= j < |blocks| && blocks[j] == b;
      assert texts[j] == NatText(b);
    }
    TextTotal(NatText(m), NatText(blocks[i]));
    SameText(m, blocks[i]);
  }

  /** The query returns the largest block number exactly when no shorter number in the table exceeds
      the leading digits of the largest; in particular whenever all have equally many digits. */
  lemma LatestIsLargestIff(blocks: seq<nat>, m: nat)
    requires IsLargest(blocks, m)
    ensures Latest(blocks) == Some(m) <==>
            forall b :: b in blocks && Digits(b) < Digits(m) ==> b <= Lead(m, Digits(b))
  {
    LatestIsMaxText(blocks, m);
    forall b | b in blocks
      ensures TextLess(NatText(m), NatText(b)) <==> Digits(b) < Digits(m) && b > Lead(m, Digits(b))
    {
      TextOrder(m, b);
      MoreDigits(b, m);
    }
  }

  /** Crossing a power of ten breaks it: after block 10 the latest block is still 9. Without events
      it is -1. */
  lemma LatestMissesTen()
    ensures IsLargest([9, 10], 10) && Latest([9, 10]) == Some(9)
    ensures Latest([]) == Some(-1)
  {
    assert Digits(10) == 2 && Lead(10, 1) == 1;
    TextOrder(9, 10);
    TextOrder(10, 9);
    var texts := Texts([9, 10]);
    assert texts[1..] == [NatText(10)];
    assert MaxText(texts[1..]) == NatText(10);
    ParseIntText(9);
  }
}
