/**
  The decimal renderings the payment model needs: PHP's integer-to-string
  conversion, `number_format` with no decimals and ',' between thousands for
  line-item quantities, and `number_format` with two decimals, '.' as the
  decimal point and no thousands separator for the order amount. Numbers
  are integers here: a quantity is a whole number of units and an amount a
  whole number of cents. Each rendering has a parser that inverts it.
*/
module NumberFormat {
  import opened Results

  predicate IsDigit(c: char) {
    '0' <= c <= '9'
  }

  predicate AllDigits(s: string) {
    forall i :: 0 <= i < |s| ==> IsDigit(s[i])
  }

  function DigitValue(c: char): (d: nat)
    requires IsDigit(c)
    ensures d < 10
  {
    c as int - '0' as int
  }

  function DigitChar(d: nat): (c: char)
    requires d < 10
    ensures IsDigit(c) && DigitValue(c) == d
  {
    ('0' as int + d) as char
  }

  function Abs(n: int): nat {
    if n < 0 then -n else n
  }

  /** The "-" PHP writes in front of a negative number. */
  function Sign(n: int): string {
    if n < 0 then "-" else ""
  }

  /** The decimal digits of `n`, most significant first, without leading zeros. */
  function NatDigits(n: nat): (s: string)
    ensures |s| >= 1 && AllDigits(s)
    ensures s[0] == '0' <==> n == 0
    decreases n
  {
    if n < 10 then [DigitChar(n)] else NatDigits(n / 10) + [DigitChar(n % 10)]
  }

  /** The number a string of decimal digits denotes. */
  function DigitsValue(s: string): nat
    requires AllDigits(s)
  {
    if s == [] then 0 else DigitsValue(s[..|s| - 1]) * 10 + DigitValue(s[|s| - 1])
  }

  lemma {:induction false} DigitsValueOfNatDigits(n: nat)
    ensures DigitsValue(NatDigits(n)) == n
    decreases n
  {
    if n >= 10 {
      DigitsValueOfNatDigits(n / 10);
      var s := NatDigits(n);
      assert s[..|s| - 1] == NatDigits(n / 10);
    }
  }

  /** PHP's conversion of an integer to a string, as used in the "does not exist" message. */
  function IntToString(n: int): string {
    Sign(n) + NatDigits(Abs(n))
  }

  function ParseInt(s: string): Option<int> {
    if |s| > 0 && s[0] == '-' then
      if |s| > 1 && AllDigits(s[1..]) then Some(0 - DigitsValue(s[1..])) else None
    else if |s| > 0 && AllDigits(s) then Some(DigitsValue(s))
    else None
  }

  lemma {:induction false} IntToStringRoundTrip(n: int)
    ensures ParseInt(IntToString(n)) == Some(n)
  {
    var d := NatDigits(Abs(n));
    DigitsValueOfNatDigits(Abs(n));
    ParseSignedDigits(n < 0, d);
    assert IntToString(n) == (if n < 0 then "-" else "") + d;
  }

  lemma {:induction false} ParseSignedDigits(negative: bool, d: string)
    requires |d| >= 1 && AllDigits(d)
    ensures ParseInt((if negative then "-" else "") + d) ==
      Some(if negative then 0 - DigitsValue(d) else DigitsValue(d))
  {
    var s := (if negative then "-" else "") + d;
    if negative {
      assert s[0] == '-' && s[1..] == d;
    } else {
      assert s == d && s[0] != '-';
    }
  }

  /** Inserts ',' between groups of three digits counted from the right, as `number_format` does by default. */
  function GroupThousands(ds: string): string
    decreases |ds|
  {
    if |ds| <= 3 then ds else GroupThousands(ds[..|ds| - 3]) + "," + ds[|ds| - 3..]
  }

  /** Where `number_format` puts its thousands separators in `g`: at every fourth position from the end, never first. */
  predicate CommaPosition(g: string, i: int) {
    0 < i < |g| && (|g| - i) % 4 == 0
  }

  /**
    A comma stands exactly at the comma positions, and every other character
    is one of the digits.
  */
  lemma {:induction false} GroupThousandsShape(ds: string)
    requires |ds| >= 1 && AllDigits(ds)
    ensures var g := GroupThousands(ds);
      && |g| >= 1
      && (forall i :: 0 <= i < |g| ==> (g[i] == ',' <==> CommaPosition(g, i)))
      && (forall i :: 0 <= i < |g| && g[i] != ',' ==> IsDigit(g[i]))
    decreases |ds|
  {
    var g := GroupThousands(ds);
    if |ds| > 3 {
      var front, back := ds[..|ds| - 3], ds[|ds| - 3..];
      var f := GroupThousands(front);
      GroupThousandsShape(front);
      assert g == f + "," + back;
      forall i | 0 <= i < |g|
        ensures (g[i] == ',' <==> CommaPosition(g, i))
        ensures g[i] != ',' ==> IsDigit(g[i])
      {
        if i < |f| {
          ShiftedCommaPosition(f, g, i);
        } else if i > |f| {
          assert g[i] == back[i - |f| - 1];
        }
      }
    }
  }

  lemma ShiftedCommaPosition(f: string, g: string, i: int)
    requires |g| == |f| + 4 && 0 <= i < |f|
    ensures CommaPosition(g, i) <==> CommaPosition(f, i)
  {
    assert |g| - i == (|f| - i) + 4;
  }

  /** The string with every ',' removed. */
  function WithoutCommas(s: string): string {
    if s == [] then []
    else WithoutCommas(s[..|s| - 1]) + (if s[|s| - 1] == ',' then [] else [s[|s| - 1]])
  }

  lemma {:induction false} WithoutCommasAppend(a: string, b: string)
    ensures WithoutCommas(a + b) == WithoutCommas(a) + WithoutCommas(b)
    decreases |b|
  {
    if b == [] {
      assert a + b == a;
    } else {
      WithoutCommasAppend(a, b[..|b| - 1]);
      assert (a + b)[..|a + b| - 1] == a + b[..|b| - 1];
    }
  }

  lemma {:induction false} WithoutCommasOfDigits(ds: string)
    requires AllDigits(ds)
    ensures WithoutCommas(ds) == ds
    decreases |ds|
  {
    if ds != [] {
      WithoutCommasOfDigits(ds[..|ds| - 1]);
      assert ds[..|ds| - 1] + [ds[|ds| - 1]] == ds;
    }
  }

  /** Removing the thousands separators gives back the digits that were grouped. */
  lemma {:induction false} GroupThousandsUngroups(ds: string)
    requires |ds| >= 1 && AllDigits(ds)
    ensures WithoutCommas(GroupThousands(ds)) == ds
    decreases |ds|
  {
    if |ds| <= 3 {
      WithoutCommasOfDigits(ds);
    } else {
      var front, back := ds[..|ds| - 3], ds[|ds| - 3..];
      var f := GroupThousands(front);
      assert GroupThousands(ds) == (f + ",") + back;
      GroupThousandsUngroups(front);
      WithoutCommasOfDigits(back);
      WithoutCommasAppend(f + ",", back);
      WithoutCommasAppend(f, ",");
      assert WithoutCommas(",") == [] by {
        assert ","[..0] == [];
      }
      assert WithoutCommas(f + ",") == front;
      assert front + back == ds;
    }
  }

  lemma {:induction false} GroupThousandsStartsWithDigit(ds: string)
    requires |ds| >= 1 && AllDigits(ds)
    ensures |GroupThousands(ds)| >= 1 && GroupThousands(ds)[0] == ds[0]
    decreases |ds|
  {
    if |ds| > 3 {
      GroupThousandsStartsWithDigit(ds[..|ds| - 3]);
    }
  }

  /** A quantity as `number_format` renders it with no decimals: no fractional part, ',' between thousands. */
  function FormatQuantity(q: int): (s: string)
    ensures |s| >= 1 && (s[0] == '-' <==> q < 0)
    ensures q < 0 ==> |s| >= 2 && IsDigit(s[1])
    ensures q >= 0 ==> IsDigit(s[0])
  {
    var ds := NatDigits(Abs(q));
    GroupThousandsStartsWithDigit(ds);
    Sign(q) + GroupThousands(ds)
  }

  /** Reads back a number written with ',' thousands separators and an optional leading '-'. */
  function ParseQuantity(s: string): Option<int> {
    if |s| > 0 && s[0] == '-' then
      match ParseGrouped(s[1..])
      case Some(v) => Some(0 - v)
      case None => None
    else ParseGrouped(s)
  }

  function ParseGrouped(s: string): Option<nat> {
    var ds := WithoutCommas(s);
    if |ds| > 0 && AllDigits(ds) then Some(DigitsValue(ds)) else None
  }

  lemma {:induction false} GroupedDigitsParse(n: nat)
    ensures var g := GroupThousands(NatDigits(n));
      |g| >= 1 && IsDigit(g[0]) && ParseGrouped(g) == Some(n)
  {
    var ds := NatDigits(n);
    GroupThousandsStartsWithDigit(ds);
    GroupThousandsUngroups(ds);
    DigitsValueOfNatDigits(n);
  }

  lemma {:induction false} QuantityRoundTrip(q: int)
    ensures ParseQuantity(FormatQuantity(q)) == Some(q)
  {
    var g := GroupThousands(NatDigits(Abs(q)));
    var s := FormatQuantity(q);
    GroupedDigitsParse(Abs(q));
    if q < 0 {
      assert s == "-" + g;
      assert s[0] == '-' && s[1..] == g;
    } else {
      assert s == g && s[0] != '-';
    }
  }

  /** Every ',' is followed by a digit, and the last character is a digit. */
  predicate CommasPrecedeDigits(s: string) {
    && |s| >= 1 && IsDigit(s[|s| - 1])
    && forall i :: 0 <= i < |s| && s[i] == ',' ==> i + 1 < |s| && IsDigit(s[i + 1])
  }

  /** In a rendered quantity every ',' is followed by a digit, and the last character is a digit. */
  lemma {:induction false} QuantityCommasPrecedeDigits(q: int)
    ensures CommasPrecedeDigits(FormatQuantity(q))
  {
    var g := GroupThousands(NatDigits(Abs(q)));
    GroupedCommasPrecedeDigits(NatDigits(Abs(q)));
    SignKeepsCommasPrecedingDigits(Sign(q), g);
    assert FormatQuantity(q) == Sign(q) + g;
  }

  lemma {:induction false} GroupedCommasPrecedeDigits(ds: string)
    requires |ds| >= 1 && AllDigits(ds)
    ensures CommasPrecedeDigits(GroupThousands(ds))
  {
    var g := GroupThousands(ds);
    GroupThousandsShape(ds);
    assert g[|g| - 1] != ',';
    forall i | 0 <= i < |g| && g[i] == ','
      ensures i + 1 < |g| && IsDigit(g[i + 1])
    {
      assert CommaPosition(g, i);
      assert g[i + 1] != ',';
    }
  }

  lemma SignKeepsCommasPrecedingDigits(sign: string, g: string)
    requires sign == "-" || sign == ""
    requires CommasPrecedeDigits(g)
    ensures CommasPrecedeDigits(sign + g)
  {
    var s := sign + g;
    forall i | 0 <= i < |s| && s[i] == ','
      ensures i + 1 < |s| && IsDigit(s[i + 1])
    {
      assert s[i] == g[i - |sign|];
    }
  }

  /** An amount of cents as `number_format` renders it with two decimals: '.' before exactly two digits, no grouping. */
  function FormatAmount(cents: int): (s: string)
    ensures |s| >= 4 && s[|s| - 3] == '.' && IsDigit(s[|s| - 2]) && IsDigit(s[|s| - 1])
    ensures forall i :: 0 <= i < |s| ==> (s[i] == '.' <==> i == |s| - 3) && s[i] != ','
  {
    var a := Abs(cents);
    Sign(cents) + NatDigits(a / 100) + "." + [DigitChar(a % 100 / 10), DigitChar(a % 10)]
  }

  /** Reads back a decimal with exactly two fractional digits as a number of cents. */
  function ParseAmount(s: string): Option<int> {
    if |s| >= 4 && s[|s| - 3] == '.' && IsDigit(s[|s| - 2]) && IsDigit(s[|s| - 1]) then
      var negative := s[0] == '-';
      var whole := if negative then s[1..|s| - 3] else s[..|s| - 3];
      if |whole| > 0 && AllDigits(whole) then
        var v := DigitsValue(whole) * 100 + DigitValue(s[|s| - 2]) * 10 + DigitValue(s[|s| - 1]);
        Some(if negative then -v else v)
      else None
    else None
  }

  lemma {:induction false} AmountRoundTrip(cents: int)
    ensures ParseAmount(FormatAmount(cents)) == Some(cents)
  {
    var a := Abs(cents);
    var s := FormatAmount(cents);
    var ds := NatDigits(a / 100);
    DigitsValueOfNatDigits(a / 100);
    assert s[|s| - 2] == DigitChar(a % 100 / 10) && s[|s| - 1] == DigitChar(a % 10);
    if cents < 0 {
      assert s[1..|s| - 3] == ds;
    } else {
      assert s[..|s| - 3] == ds;
    }
    assert a == a / 100 * 100 + a % 100 / 10 * 10 + a % 10;
  }
}
