/** How the pages turn integers into text and text back into integers: JavaScript's
    number-to-string conversion (template literals, `join`), `padStart(2, '0')`, the
    `replace(/\D/g, "")` digit filter, `Number.parseInt` on a digit string, and the
    id-ID thousands grouping that `toLocaleString("id-ID")` applies to a whole number. */
module Decimal {
  import opened Basics

  predicate IsDigit(c: char)
  {
    '0' <= c <= '9'
  }

  predicate AllDigits(s: string)
  {
    forall i :: 0 <= i < |s| ==> IsDigit(s[i])
  }

  function DigitChar(d: nat): (c: char)
    requires d < 10
    ensures IsDigit(c)
    ensures (c == '0') == (d == 0)
  {
    (d + '0' as int) as char
  }

  function DigitValue(c: char): (d: nat)
    requires IsDigit(c)
    ensures d < 10
  {
    c as int - '0' as int
  }

  /** The decimal text of a non-negative integer: digits only, never empty, and without a
      leading zero unless the number is 0. */
  function NatToString(n: nat): (s: string)
    ensures |s| >= 1 && AllDigits(s)
    ensures (s[0] == '0') == (n == 0)
    ensures n < 10 <==> |s| == 1
    decreases n
  {
    if n < 10 then [DigitChar(n)] else NatToString(n / 10) + [DigitChar(n % 10)]
  }

  /** The value of a digit string read in base 10 (`Number.parseInt` on digits only);
      the empty string reads as 0, which is what `Number.parseInt("") || 0` gives. */
  function DigitsValue(s: string): nat
    requires AllDigits(s)
  {
    if s == [] then 0 else DigitsValue(s[..|s| - 1]) * 10 + DigitValue(s[|s| - 1])
  }

  /** Reading back the decimal text of a number gives the number. */
  lemma {:induction false} NatRoundTrip(n: nat)
    ensures DigitsValue(NatToString(n)) == n
    decreases n
  {
    var s := NatToString(n);
    if n < 10 {
      assert s[..|s| - 1] == [];
    } else {
      assert s[..|s| - 1] == NatToString(n / 10);
      NatRoundTrip(n / 10);
    }
  }

  /** A leading zero does not change the value of a digit string. */
  lemma {:induction false} LeadingZero(s: string)
    requires AllDigits(s)
    ensures AllDigits("0" + s) && DigitsValue("0" + s) == DigitsValue(s)
    decreases |s|
  {
    var t := "0" + s;
    if s != [] {
      assert t[..|t| - 1] == "0" + s[..|s| - 1];
      LeadingZero(s[..|s| - 1]);
    }
  }

  /** JavaScript's `String(i)` for an integer: a minus sign before the digits of a
      negative number. */
  function IntToString(i: int): string
  {
    if i < 0 then "-" + NatToString(-i) else NatToString(i)
  }

  /** Reads an optional minus sign followed by at least one digit; anything else does
      not parse. */
  function ParseInt(s: string): Option<int>
  {
    if |s| > 1 && s[0] == '-' && AllDigits(s[1..]) then Some(0 - DigitsValue(s[1..]))
    else if |s| >= 1 && AllDigits(s) then Some(DigitsValue(s))
    else None
  }

  /** Every integer's text parses back to that integer, so the text determines the
      number. */
  lemma {:induction false} IntRoundTrip(i: int)
    ensures ParseInt(IntToString(i)) == Some(i)
  {
    var s := IntToString(i);
    if i < 0 {
      var d := NatToString(-i);
      assert s == "-" + d;
      assert s[1..] == d;
      NatRoundTrip(-i);
    } else {
      assert IsDigit(s[0]);
      NatRoundTrip(i);
    }
  }

  lemma IntToStringInjective(i: int, j: int)
    requires IntToString(i) == IntToString(j)
    ensures i == j
  {
    IntRoundTrip(i);
    IntRoundTrip(j);
  }

  /** `s.padStart(2, '0')`. */
  function PadStart2(s: string): string
  {
    if |s| >= 2 then s else if |s| == 1 then "0" + s else "00"
  }

  /** `n.toString().padStart(2, '0')` for an hour of the day. */
  function TwoDigits(n: nat): string
  {
    PadStart2(NatToString(n))
  }

  /** Below 100 the padded text is two digits that read back as the number, so two
      different hours never share a label. */
  lemma TwoDigitsRoundTrip(n: nat)
    requires n < 100
    ensures |TwoDigits(n)| == 2 && AllDigits(TwoDigits(n))
    ensures DigitsValue(TwoDigits(n)) == n
  {
    NatRoundTrip(n);
    if n < 10 {
      LeadingZero(NatToString(n));
    }
  }

  lemma TwoDigitsInjective(n: nat, m: nat)
    requires n < 100 && m < 100
    requires TwoDigits(n) == TwoDigits(m)
    ensures n == m
  {
    TwoDigitsRoundTrip(n);
    TwoDigitsRoundTrip(m);
  }

  /** `s.replace(/\D/g, "")`: the digit characters of `s`, in order. */
  function DigitsOnly(s: string): (r: string)
    ensures AllDigits(r)
  {
    Filter(IsDigit, s)
  }

  lemma DigitsOnlyOfDigits(s: string)
    requires AllDigits(s)
    ensures DigitsOnly(s) == s
  {
    forall x | x in s ensures IsDigit(x) {
      var i :| 0 <= i < |s| && s[i] == x;
    }
    FilterKeepsAll(IsDigit, s);
  }

  lemma DigitsOnlyAppend(a: string, b: string)
    ensures DigitsOnly(a + b) == DigitsOnly(a) + DigitsOnly(b)
  {
    FilterAppend(IsDigit, a, b);
  }

  lemma DigitsOnlyOfSeparator()
    ensures DigitsOnly(".") == ""
  {
    assert "."[1..] == [];
  }

  /** Groups a digit string in threes from the right with '.', the id-ID thousands
      separator: "1234567" becomes "1.234.567". */
  function GroupThousands(d: string): string
    decreases |d|
  {
    if |d| <= 3 then d else GroupThousands(d[..|d| - 3]) + "." + d[|d| - 3..]
  }

  /** Both sides of a cut through a digit string are digit strings. */
  lemma AllDigitsSplit(d: string, k: nat)
    requires AllDigits(d) && k <= |d|
    ensures AllDigits(d[..k]) && AllDigits(d[k..])
  {
    assert forall i :: 0 <= i < k ==> d[..k][i] == d[i];
    assert forall i :: 0 <= i < |d| - k ==> d[k..][i] == d[k + i];
  }

  /** One grouping step: the separator goes and the digit group stays. */
  lemma DigitsOnlyGroupStep(g: string, tail: string)
    requires AllDigits(tail)
    ensures DigitsOnly(g + "." + tail) == DigitsOnly(g) + tail
  {
    DigitsOnlyAppend(g + ".", tail);
    DigitsOnlyAppend(g, ".");
    DigitsOnlyOfSeparator();
    DigitsOnlyOfDigits(tail);
  }

  /** The separators are the only non-digits grouping adds, so removing non-digits
      undoes the grouping. */
  lemma {:induction false} GroupThousandsDigits(d: string)
    requires AllDigits(d)
    ensures DigitsOnly(GroupThousands(d)) == d
    decreases |d|
  {
    if |d| <= 3 {
      DigitsOnlyOfDigits(d);
    } else {
      var head, tail := d[..|d| - 3], d[|d| - 3..];
      AllDigitsSplit(d, |d| - 3);
      GroupThousandsDigits(head);
      DigitsOnlyGroupStep(GroupThousands(head), tail);
      assert head + tail == d;
    }
  }

  /** `n.toLocaleString("id-ID")` for a whole number. */
  function LocaleId(n: nat): string
  {
    GroupThousands(NatToString(n))
  }

  /** `i.toLocaleString("id-ID")` for a whole number of either sign. */
  function LocaleIdInt(i: int): string
  {
    if i < 0 then "-" + LocaleId(-i) else LocaleId(i)
  }
}
