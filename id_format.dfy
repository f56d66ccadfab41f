/**
 * How a new order id is minted (src/pages/Index.tsx:43): the decimal text of a
 * count, left-padded with '0' to width 3 as JavaScript's padStart does, which pads
 * but never truncates.
 */
module IdFormat {

  predicate IsDigit(c: char)
  {
    '0' <= c <= '9'
  }

  predicate AllDigits(s: string)
  {
    forall i :: 0 <= i < |s| ==> IsDigit(s[i])
  }

  function DigitChar(d: nat): (c: char)
    requires d < 10
    ensures IsDigit(c) && c as int - '0' as int == d
  {
    ('0' as int + d) as char
  }

  function DigitValue(c: char): (d: nat)
    requires IsDigit(c)
    ensures d < 10 && DigitChar(d) == c
  {
    c as int - '0' as int
  }

  /**
   * Number.prototype.toString() of a non-negative integer: its decimal digits,
   * most significant first, with no leading zero except in "0" itself.
   */
  function Decimal(n: nat): (r: string)
    decreases n
    ensures |r| >= 1 && AllDigits(r)
    ensures n > 0 ==> r[0] != '0'
  {
    if n < 10 then [DigitChar(n)] else Decimal(n / 10) + [DigitChar(n % 10)]
  }

  /** The number a string of decimal digits denotes: the inverse of Decimal. */
  function Value(s: string): nat
    requires AllDigits(s)
  {
    if s == [] then 0 else Value(s[..|s| - 1]) * 10 + DigitValue(s[|s| - 1])
  }

  /** Reading back the decimal text of n gives n. */
  lemma {:induction false} DecimalValue(n: nat)
    decreases n
    ensures Value(Decimal(n)) == n
  {
    if n >= 10 {
      var d := Decimal(n / 10);
      assert (d + [DigitChar(n % 10)])[..|d|] == d;
      DecimalValue(n / 10);
    }
  }

  function Pow10(k: nat): (p: nat)
    ensures p >= 1
  {
    if k == 0 then 1 else 10 * Pow10(k - 1)
  }

  /** The decimal text of n fits in k >= 1 characters exactly when n < 10^k. */
  lemma {:induction false} DecimalLength(n: nat, k: nat)
    requires k >= 1
    decreases n
    ensures |Decimal(n)| <= k <==> n < Pow10(k)
  {
    if n >= 10 {
      if k == 1 {
        assert |Decimal(n)| == |Decimal(n / 10)| + 1;
      } else {
        DecimalLength(n / 10, k - 1);
        assert n / 10 < Pow10(k - 1) <==> n < 10 * Pow10(k - 1);
      }
    } else if k > 1 {
      assert Pow10(k) == 10 * Pow10(k - 1);
    }
  }

  /** String.prototype.padStart(width, c) with a one-character filler. */
  function PadStart(s: string, width: nat, c: char): (r: string)
    ensures |r| == if |s| < width then width else |s|
    ensures r[|r| - |s|..] == s
    ensures forall i :: 0 <= i < |r| - |s| ==> r[i] == c
  {
    if |s| < width then seq(width - |s|, _ => c) + s else s
  }

  /** (n).toString().padStart(3, "0"): the id given to the n-th order. */
  function Pad3(n: nat): (r: string)
    ensures |r| == if |Decimal(n)| < 3 then 3 else |Decimal(n)|
    ensures r[|r| - |Decimal(n)|..] == Decimal(n)
    ensures forall i :: 0 <= i < |r| - |Decimal(n)| ==> r[i] == '0'
  {
    PadStart(Decimal(n), 3, '0')
  }

  /** Ids of the first 999 orders are exactly three characters wide. */
  lemma Pad3Width(n: nat)
    requires n <= 999
    ensures |Pad3(n)| == 3
  {
    DecimalLength(n, 3);
  }

  /** From the 1000th order on nothing is padded or cut: the id is the plain decimal. */
  lemma Pad3NoTruncation(n: nat)
    requires n >= 1000
    ensures Pad3(n) == Decimal(n)
    ensures |Pad3(n)| >= 4
  {
    DecimalLength(n, 3);
  }

  /** Leading zeros do not change the number a digit string denotes. */
  lemma {:induction false} ValueLeadingZeros(z: string, s: string)
    requires forall i :: 0 <= i < |z| ==> z[i] == '0'
    requires AllDigits(s)
    decreases |s|
    ensures AllDigits(z + s) && Value(z + s) == Value(s)
  {
    if s == [] {
      assert z + s == z;
      ZerosValue(z);
    } else {
      var last := |z + s| - 1;
      assert (z + s)[..last] == z + s[..|s| - 1];
      ValueLeadingZeros(z, s[..|s| - 1]);
    }
  }

  lemma {:induction false} ZerosValue(z: string)
    requires forall i :: 0 <= i < |z| ==> z[i] == '0'
    decreases |z|
    ensures AllDigits(z) && Value(z) == 0
  {
    if z != [] {
      ZerosValue(z[..|z| - 1]);
    }
  }

  /** Reading back an id gives the count it was made from. */
  lemma Pad3Value(n: nat)
    ensures AllDigits(Pad3(n)) && Value(Pad3(n)) == n
  {
    var d := Decimal(n);
    DecimalValue(n);
    if |d| < 3 {
      ValueLeadingZeros(seq(3 - |d|, _ => '0'), d);
    }
  }

  /** Different counts give different ids. */
  lemma Pad3Injective(m: nat, n: nat)
    ensures Pad3(m) == Pad3(n) <==> m == n
  {
    Pad3Value(m);
    Pad3Value(n);
  }

  /** The values the seed list and a 1000th order would carry. */
  lemma Pad3Examples()
    ensures Pad3(1) == "001" && Pad3(2) == "002" && Pad3(3) == "003"
    ensures Pad3(42) == "042" && Pad3(1000) == "1000"
  {
  }
}
