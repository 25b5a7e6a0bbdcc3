/** Decimal text of integers, as Python's `str(int)` and `"{}".format(int)`
    produce it, and the reading that inverts it. */
module Strings {

  predicate IsDigit(c: char)
  {
    '0' <= c <= '9'
  }

  predicate AllDigits(s: string)
  {
    forall i :: 0 <= i < |s| ==> IsDigit(s[i])
  }

  function DigitChar(d: nat): (c: char)
    requires d < 10
    ensures IsDigit(c) && (c as int) - ('0' as int) == d
  {
    (('0' as int) + d) as char
  }

  function DigitValue(c: char): nat
    requires IsDigit(c)
  {
    (c as int) - ('0' as int)
  }

  function Pow10(n: nat): (p: nat)
    ensures p >= 1
  {
    if n == 0 then 1 else 10 * Pow10(n - 1)
  }

  /** The value of a string of decimal digits (0 for the empty string). */
  function ParseNat(s: string): nat
    requires AllDigits(s)
  {
    if s == [] then 0 else ParseNat(s[..|s| - 1]) * 10 + DigitValue(s[|s| - 1])
  }

  /** The decimal text of a natural number as `str` writes it: digits
      only, and no leading zero unless the number is zero. */
  predicate IsNatText(s: string)
  {
    |s| > 0 && AllDigits(s) && (s[0] == '0' ==> |s| == 1)
  }

  /** `str(n)` for a natural number: shortest decimal, no leading zero. */
  function NatToString(n: nat): (s: string)
    ensures IsNatText(s)
    ensures s[0] == '0' ==> n == 0
  {
    if n < 10 then [DigitChar(n)] else NatToString(n / 10) + [DigitChar(n % 10)]
  }

  lemma {:induction false} ParseNatToString(n: nat)
    ensures ParseNat(NatToString(n)) == n
  {
    if n >= 10 {
      var s := NatToString(n);
      assert s[..|s| - 1] == NatToString(n / 10);
      ParseNatToString(n / 10);
    }
  }

  /** A digit string that does not start with '0' has a positive value. */
  lemma {:induction false} ParseNatLeading(s: string)
    requires |s| > 0 && AllDigits(s) && s[0] != '0'
    ensures ParseNat(s) >= 1
  {
    if |s| > 1 {
      var p := s[..|s| - 1];
      assert p[0] == s[0];
      ParseNatLeading(p);
    }
  }

  /** Conversely, `str` gives back every canonical digit string it reads. */
  lemma {:induction false} NatTextRoundTrip(s: string)
    requires IsNatText(s)
    ensures NatToString(ParseNat(s)) == s
  {
    var d := DigitValue(s[|s| - 1]);
    var p := s[..|s| - 1];
    if |s| == 1 {
      assert p == [];
      assert ParseNat(s) == d;
      assert [DigitChar(d)] == s;
    } else {
      assert p[0] == s[0];
      ParseNatLeading(p);
      NatTextRoundTrip(p);
      var n := ParseNat(s);
      assert n == ParseNat(p) * 10 + d && n >= 10;
      assert n / 10 == ParseNat(p) && n % 10 == d;
      assert s == p + [DigitChar(d)];
    }
  }

  /** `str(i)` for any integer: a minus sign before the digits of a negative one. */
  function IntToString(i: int): (s: string)
    ensures IsIntText(s)
    ensures s[0] == '-' <==> i < 0
  {
    if i < 0 then
      var s := "-" + NatToString(-i);
      assert s[1..] == NatToString(-i);
      s
    else
      NatToString(i)
  }

  /** What `str(i)` produces: an optional minus, then the digits without a
      leading zero; zero is never written with a minus. */
  predicate IsIntText(s: string)
  {
    if |s| > 0 && s[0] == '-' then IsNatText(s[1..]) && s[1..] != "0" else IsNatText(s)
  }

  function ParseInt(s: string): int
    requires IsIntText(s)
  {
    if s[0] == '-' then -(ParseNat(s[1..]) as int) else ParseNat(s)
  }

  /** Reading back `str(i)` gives `i`, so different integers never print alike. */
  lemma IntToStringRoundTrip(i: int)
    ensures ParseInt(IntToString(i)) == i
  {
    if i < 0 {
      assert IntToString(i)[1..] == NatToString(-i);
      ParseNatToString(-i);
    } else {
      ParseNatToString(i);
    }
  }

  /** And every text of that form is `str` of the integer it reads as, so
      each integer has exactly one text. */
  lemma IntTextRoundTrip(s: string)
    requires IsIntText(s)
    ensures IntToString(ParseInt(s)) == s
  {
    if s[0] == '-' {
      var t := s[1..];
      NatTextRoundTrip(t);
      assert ParseNat(t) != 0 by {
        assert NatToString(0) == "0";
      }
      assert s == "-" + t;
    } else {
      NatTextRoundTrip(s);
    }
  }

  /** Exactly `width` digits of `n`, zero-padded on the left. */
  function Fixed(n: nat, width: nat): (s: string)
    requires n < Pow10(width)
    ensures |s| == width && AllDigits(s)
  {
    if width == 0 then "" else Fixed(n / 10, width - 1) + [DigitChar(n % 10)]
  }

  lemma {:induction false} ParseFixed(n: nat, width: nat)
    requires n < Pow10(width)
    ensures ParseNat(Fixed(n, width)) == n
  {
    if width > 0 {
      var s := Fixed(n, width);
      assert s[..|s| - 1] == Fixed(n / 10, width - 1);
      ParseFixed(n / 10, width - 1);
    }
  }

  /** Drops trailing '0's but keeps at least one character. */
  function TrimZeros(s: string): (t: string)
    ensures |t| <= |s| && t == s[..|t|]
    ensures |s| > 0 ==> |t| > 0
    ensures |t| > 1 ==> t[|t| - 1] != '0'
  {
    if |s| > 1 && s[|s| - 1] == '0' then TrimZeros(s[..|s| - 1]) else s
  }

  lemma ScaleByTen(x: int, y: int)
    ensures x * (y * 10) == (x * y) * 10
  {
  }

  /** Trimming trailing zeros keeps the value once it is scaled back. */
  lemma {:induction false} ParseTrimZeros(s: string)
    requires AllDigits(s)
    ensures ParseNat(TrimZeros(s)) * Pow10(|s| - |TrimZeros(s)|) == ParseNat(s)
  {
    if |s| > 1 && s[|s| - 1] == '0' {
      var p := s[..|s| - 1];
      ParseTrimZeros(p);
      var t := TrimZeros(p);
      assert TrimZeros(s) == t;
      var e := |p| - |t|;
      assert |s| - |t| == e + 1;
      assert Pow10(e + 1) == Pow10(e) * 10;
      assert ParseNat(s) == ParseNat(p) * 10;
      ScaleByTen(ParseNat(t), Pow10(e));
    }
  }
}
