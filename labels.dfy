/**
 * What `new_label` hands out: `L` followed by the counter in decimal, padded
 * to at least two digits. Reading the digits back gives the counter, so the
 * labels of one generator are pairwise distinct.
 */
module Labels {
  import opened Chars
  import opened CodeGenSpec

  /** The number a string of decimal digits denotes (leading zeros allowed). */
  function DigitsValue(s: string): nat
    requires forall i | 0 <= i < |s| :: IsDigit(s[i])
  {
    if s == [] then 0 else 10 * DigitsValue(s[..|s| - 1]) + DigitValue(s[|s| - 1])
  }

  /** Reading `Decimal(n)` back gives `n`. */
  lemma {:induction false} DecimalRoundTrip(n: nat)
    ensures DigitsValue(Decimal(n)) == n
    decreases n
  {
    var s := Decimal(n);
    if n >= 10 {
      DecimalRoundTrip(n / 10);
      assert s[..|s| - 1] == Decimal(n / 10);
    }
  }

  /** `Decimal` has no leading zero, except for `0` itself. */
  lemma {:induction false} DecimalNoLeadingZero(n: nat)
    ensures n > 0 ==> Decimal(n)[0] != '0'
    decreases n
  {
    if n >= 10 {
      DecimalNoLeadingZero(n / 10);
    }
  }

  /** A leading `0` does not change the value of a digit string. */
  lemma {:induction false} LeadingZero(s: string)
    requires forall i | 0 <= i < |s| :: IsDigit(s[i])
    ensures DigitsValue("0" + s) == DigitsValue(s)
    decreases |s|
  {
    if s != [] {
      var z := "0" + s;
      assert z[..|z| - 1] == "0" + s[..|s| - 1];
      LeadingZero(s[..|s| - 1]);
    }
  }

  /** The digits of `Label(n)` denote `n`. */
  lemma LabelValue(n: nat)
    ensures DigitsValue(Label(n)[1..]) == n
  {
    var digits := Decimal(n);
    DecimalRoundTrip(n);
    assert Label(n)[1..] == if |digits| < 2 then "0" + digits else digits;
    if |digits| < 2 {
      LeadingZero(digits);
    }
  }

  /** Different counters give different labels. */
  lemma LabelInjective(a: nat, b: nat)
    ensures Label(a) == Label(b) <==> a == b
  {
    LabelValue(a);
    LabelValue(b);
  }

  /** Below 100 a label is exactly `L` and two digits; from 100 on the digits are not cut. */
  lemma {:induction false} DecimalLength(n: nat)
    ensures (n < 10 <==> |Decimal(n)| == 1) && (10 <= n < 100 <==> |Decimal(n)| == 2)
    decreases n
  {
    if n >= 10 {
      DecimalLength(n / 10);
    }
  }

  lemma LabelLength(n: nat)
    ensures n < 100 <==> |Label(n)| == 3
  {
    DecimalLength(n);
  }

  /** `format!("L{:0>2}", n)` for a few counters. */
  lemma LabelSamples()
    ensures Label(0) == "L00" && Label(7) == "L07" && Label(12) == "L12" && Label(123) == "L123"
  {
    assert Decimal(12) == Decimal(1) + [DigitChar(2)];
    assert Decimal(123) == Decimal(12) + [DigitChar(3)];
  }
}
