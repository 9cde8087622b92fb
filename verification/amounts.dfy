/**
 * Bid amounts as the campaign view reads and prints them: the stored text
 * with every rupee sign and comma removed is read as a number, and the
 * highest and lowest are printed back as a rupee sign followed by the
 * number with thousands separators.  Amounts are whole numbers here.
 */
module Amounts {
  import opened Values
  import opened Text

  const Rupee: char := '\U{20B9}'

  /** An optional sign followed by one or more decimal digits. */
  function ParseInteger(t: string): (r: Option<int>)
    ensures r.Some? && r.value < 0 ==> |t| > 0 && t[0] == '-'
  {
    if |t| > 0 && (t[0] == '+' || t[0] == '-') then
      var m := ParseNatural(t[1..]);
      if m.Some? then (var v: int := m.value; Some(if t[0] == '-' then -v else v)) else None
    else
      var m := ParseNatural(t);
      if m.Some? then Some(m.value) else None
  }

  function ParseNatural(t: string): Option<nat> {
    if |t| > 0 && AllDigits(t) then Some(DigitsValue(t)) else None
  }

  /** The amount the campaign view reads from a stored text: every rupee
      sign and comma is removed, surrounding white space is stripped, and
      what remains is read when it is an optional sign followed by decimal
      digits; any other text gives `None`.  Python's `float` also reads
      texts this function refuses: fractions ("5000.00", "5."), exponents
      ("1e3"), underscores between digits ("1_000"), non-ASCII digits and
      "inf" / "nan". */
  function ParseAmountText(s: string): Option<int> {
    ParseInteger(Strip(RemoveChar(RemoveChar(s, Rupee), ',')))
  }

  /** Digits grouped in threes from the right, separated by commas. */
  function GroupThousands(d: string): (g: string)
    decreases |d|
  {
    if |d| <= 3 then d else GroupThousands(d[..|d| - 3]) + "," + d[|d| - 3..]
  }

  /** `f"₹{x:,.0f}"` for a whole number `x`. */
  function FormatAmount(x: int): (s: string)
    ensures |s| > 0 && s[0] == Rupee
  {
    [Rupee] + (if x < 0 then "-" + GroupThousands(NatToString(-x)) else GroupThousands(NatToString(x)))
  }

  lemma {:induction false} RemoveCharAppend(a: string, b: string, c: char)
    ensures RemoveChar(a + b, c) == RemoveChar(a, c) + RemoveChar(b, c)
    decreases |a|
  {
    if a == [] {
      assert a + b == b;
    } else {
      assert (a + b)[0] == a[0];
      assert (a + b)[1..] == a[1..] + b;
      RemoveCharAppend(a[1..], b, c);
    }
  }

  lemma {:induction false} GroupThousandsChars(d: string)
    requires AllDigits(d)
    ensures forall i :: 0 <= i < |GroupThousands(d)| ==> IsDigit(GroupThousands(d)[i]) || GroupThousands(d)[i] == ','
    decreases |d|
  {
    if |d| > 3 {
      GroupThousandsChars(d[..|d| - 3]);
    }
  }

  lemma NotInDigits(d: string, c: char)
    requires AllDigits(d) && !IsDigit(c)
    ensures c !in d
  {
    forall i | 0 <= i < |d| ensures d[i] != c {
      assert IsDigit(d[i]);
    }
  }

  /** Removing the separators gives the digits back. */
  lemma {:induction false} UngroupThousands(d: string)
    requires AllDigits(d)
    ensures RemoveChar(GroupThousands(d), ',') == d
    decreases |d|
  {
    if |d| <= 3 {
      NotInDigits(d, ',');
    } else {
      var hi, lo := d[..|d| - 3], d[|d| - 3..];
      UngroupThousands(hi);
      RemoveCharAppend(GroupThousands(hi) + ",", lo, ',');
      RemoveCharAppend(GroupThousands(hi), ",", ',');
      assert AllDigits(lo) by {
        forall i | 0 <= i < |lo| ensures IsDigit(lo[i]) { assert lo[i] == d[|d| - 3 + i]; }
      }
      NotInDigits(lo, ',');
      assert hi + lo == d;
    }
  }

  /** The text after the rupee sign: an optional minus and the grouped digits. */
  function AmountBody(x: int): string {
    if x < 0 then "-" + GroupThousands(NatToString(-x)) else GroupThousands(NatToString(x))
  }

  lemma RemoveRupee(x: int)
    ensures RemoveChar(FormatAmount(x), Rupee) == AmountBody(x)
  {
    var body := AmountBody(x);
    var d := NatToString(if x < 0 then -x else x);
    GroupThousandsChars(d);
    var g := GroupThousands(d);
    forall i | 0 <= i < |body| ensures body[i] != Rupee {
      if x < 0 && i > 0 {
        assert body[i] == g[i - 1];
      }
    }
    assert FormatAmount(x) == [Rupee] + body;
    assert FormatAmount(x)[1..] == body;
  }

  lemma RemoveSeparators(x: int)
    ensures RemoveChar(AmountBody(x), ',') == (if x < 0 then "-" + NatToString(-x) else NatToString(x))
  {
    var d := NatToString(if x < 0 then -x else x);
    UngroupThousands(d);
    if x < 0 {
      RemoveCharAppend("-", GroupThousands(d), ',');
      assert RemoveChar("-", ',') == "-" by {
        assert "-"[1..] == [];
      }
    }
  }

  lemma ParseDigitsText(n: nat)
    ensures ParseInteger(NatToString(n)) == Some(n)
  {
    var d := NatToString(n);
    assert IsDigit(d[0]);
    NatToStringRoundTrip(n);
  }

  lemma ParseNegativeText(n: nat)
    ensures ParseInteger("-" + NatToString(n)) == Some(-(n as int))
  {
    var d := NatToString(n);
    var t := "-" + d;
    assert t[0] == '-' && t[1..] == d;
    NatToStringRoundTrip(n);
  }

  lemma StripSignedDigits(t: string, d: string)
    requires |d| > 0 && AllDigits(d)
    requires t == d || t == "-" + d
    ensures Strip(t) == t
  {
    assert IsDigit(d[0]) && IsDigit(d[|d| - 1]);
    assert t[|t| - 1] == d[|d| - 1];
    assert !IsSpace(t[0]) && !IsSpace(t[|t| - 1]);
    StripOfTrimmed(t);
  }

  lemma ParseSignedDigits(x: int)
    ensures ParseInteger(Strip(if x < 0 then "-" + NatToString(-x) else NatToString(x))) == Some(x)
  {
    if x < 0 {
      StripSignedDigits("-" + NatToString(-x), NatToString(-x));
      ParseNegativeText(-x);
    } else {
      StripSignedDigits(NatToString(x), NatToString(x));
      ParseDigitsText(x);
    }
  }

  /** Reading back a printed amount gives the amount. */
  lemma FormatAmountRoundTrip(x: int)
    ensures ParseAmountText(FormatAmount(x)) == Some(x)
  {
    RemoveRupee(x);
    RemoveSeparators(x);
    ParseSignedDigits(x);
  }

  /** The largest of a non-empty list (`max`). */
  function MaxOf(xs: seq<int>): (m: int)
    requires |xs| > 0
    ensures m in xs
    ensures forall i :: 0 <= i < |xs| ==> xs[i] <= m
  {
    if |xs| == 1 then xs[0]
    else
      var rest := MaxOf(xs[1..]);
      assert forall i :: 1 <= i < |xs| ==> xs[i] == xs[1..][i - 1];
      if xs[0] >= rest then xs[0] else rest
  }

  /** The smallest of a non-empty list (`min`). */
  function MinOf(xs: seq<int>): (m: int)
    requires |xs| > 0
    ensures m in xs
    ensures forall i :: 0 <= i < |xs| ==> m <= xs[i]
  {
    if |xs| == 1 then xs[0]
    else
      var rest := MinOf(xs[1..]);
      assert forall i :: 1 <= i < |xs| ==> xs[i] == xs[1..][i - 1];
      if xs[0] <= rest then xs[0] else rest
  }
}
