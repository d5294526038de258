/**
 * Money amounts: the `^\d+\.\d{2}$` format that a receipt total and an item
 * price must have, and their value in integer cents.
 *
 * src/utils.py:60 documents the pattern; the regex literal actually written on
 * src/utils.py:62 doubles its backslashes and does not match it (see the
 * AsWritten module). This module models the documented pattern.
 */
module Amount {
  import opened Text

  /** `^\d+\.\d{2}$`: one or more digits, a dot, exactly two digits. */
  predicate IsAmountText(s: string) {
    && |s| >= 4
    && s[|s| - 3] == '.'
    && AllDigits(s[..|s| - 3])
    && AllDigits(s[|s| - 2..])
  }

  /** The digits before the dot. */
  function DollarDigits(s: string): string
    requires IsAmountText(s)
  {
    s[..|s| - 3]
  }

  /** The two digits after the dot. */
  function CentDigits(s: string): string
    requires IsAmountText(s)
  {
    s[|s| - 2..]
  }

  /** The value of an amount in cents: "12.25" is 1225, "09.00" is 900. */
  function ParseCents(s: string): nat
    requires IsAmountText(s)
  {
    100 * DigitsValue(DollarDigits(s)) + PairValue(s[|s| - 2], s[|s| - 1])
  }

  /** The canonical rendering of a number of cents: shortest dollars, two
      cent digits. */
  function FormatCents(c: nat): string {
    NatToDigits(c / 100) + "." + Pad2(c % 100)
  }

  /** The format accepts exactly: digits (at least one), a dot, two digits. */
  lemma AmountGrammar(d: string, c: string)
    ensures IsAmountText(d + "." + c) <==> (|d| >= 1 && AllDigits(d) && |c| == 2 && AllDigits(c))
  {
    var s := d + "." + c;
    if |d| >= 1 && AllDigits(d) && |c| == 2 && AllDigits(c) {
      assert s[..|s| - 3] == d;
      assert s[|s| - 2..] == c;
    }
    if IsAmountText(s) {
      // Every position but the third from last holds a digit, and the dot
      // that joins d and c does not, so it is the third from last.
      forall j | |s| - 2 <= j < |s| ensures IsDigit(s[j]) {
        assert s[j] == s[|s| - 2..][j - (|s| - 2)];
      }
      forall j | 0 <= j < |s| - 3 ensures IsDigit(s[j]) {
        assert s[j] == s[..|s| - 3][j];
      }
      assert s[|d|] == '.';
      assert |d| == |s| - 3;
      assert s[..|s| - 3] == d;
      assert s[|s| - 2..] == c;
    }
  }

  /** Rendering then parsing gives back the number of cents. */
  lemma ParseFormatCents(c: nat)
    ensures IsAmountText(FormatCents(c))
    ensures ParseCents(FormatCents(c)) == c
  {
    var d, k := NatToDigits(c / 100), Pad2(c % 100);
    AmountGrammar(d, k);
    var s := FormatCents(c);
    assert DollarDigits(s) == d && s[|s| - 2] == k[0] && s[|s| - 1] == k[1];
  }

  /** Parsing then rendering gives back the text, when its dollars carry no
      leading zero ("09.00" parses like "9.00" but does not render back). */
  lemma FormatParseCents(s: string)
    requires IsAmountText(s) && IsCanonicalDigits(DollarDigits(s))
    ensures FormatCents(ParseCents(s)) == s
  {
    var d, k := DollarDigits(s), CentDigits(s);
    var n := ParseCents(s);
    Pad2OfPairValue(k[0], k[1]);
    assert n / 100 == DigitsValue(d) && n % 100 == PairValue(k[0], k[1]);
    NatToDigitsOfValue(d);
    assert s == d + "." + k;
  }

  /** "Round dollar amount with no cents": the cent digits are "00" exactly
      when the value is a multiple of 100 cents. */
  lemma RoundDollar(s: string)
    requires IsAmountText(s)
    ensures ParseCents(s) % 100 == 0 <==> CentDigits(s) == "00"
  {
    var k := CentDigits(s);
    Pad2OfPairValue(k[0], k[1]);
    assert Pad2(0) == "00";
  }

  /** The two cent digits denote a multiple of 25 exactly when they are
      "00", "25", "50" or "75". */
  lemma QuarterCents(a: char, b: char)
    requires IsDigit(a) && IsDigit(b)
    ensures PairValue(a, b) % 25 == 0 <==> [a, b] in {"00", "25", "50", "75"}
  {
    var v := PairValue(a, b);
    if v % 25 == 0 {
      var q := v / 25;
      assert v == 25 * q && q < 4;
      Pad2OfPairValue(a, b);
      if q == 0 { assert [a, b] == Pad2(0) == "00"; }
      else if q == 1 { assert [a, b] == Pad2(25) == "25"; }
      else if q == 2 { assert [a, b] == Pad2(50) == "50"; }
      else { assert [a, b] == Pad2(75) == "75"; }
    }
  }

  /** "A multiple of 0.25": the cent digits are one of "00", "25", "50", "75"
      exactly when the value is a multiple of 25 cents. */
  lemma QuarterMultiple(s: string)
    requires IsAmountText(s)
    ensures ParseCents(s) % 25 == 0 <==> CentDigits(s) in {"00", "25", "50", "75"}
  {
    var k := CentDigits(s);
    var d, v := DigitsValue(DollarDigits(s)), PairValue(s[|s| - 2], s[|s| - 1]);
    assert ParseCents(s) == 25 * (4 * d) + v;
    assert ParseCents(s) % 25 == v % 25;
    assert k == [s[|s| - 2], s[|s| - 1]];
    QuarterCents(s[|s| - 2], s[|s| - 1]);
  }

  /** A round-dollar amount is always also a multiple of 0.25, so the two
      total-amount bonuses stack. */
  lemma RoundDollarIsQuarterMultiple(s: string)
    requires IsAmountText(s) && CentDigits(s) == "00"
    ensures CentDigits(s) in {"00", "25", "50", "75"}
    ensures ParseCents(s) % 25 == 0
  {
    QuarterMultiple(s);
  }

  /** The amounts the tests accept, with their values, and the ones they
      reject. */
  lemma AmountExamples()
    ensures IsAmountText("9.00") && ParseCents("9.00") == 900
    ensures IsAmountText("09.00") && ParseCents("09.00") == 900
    ensures IsAmountText("30.33") && ParseCents("30.33") == 3033
    ensures IsAmountText("2.65") && ParseCents("2.65") == 265
    ensures IsAmountText("1.25") && ParseCents("1.25") == 125
    ensures !IsAmountText("9") && !IsAmountText("9.999") && !IsAmountText("-9.90")
    ensures !IsAmountText("12345")
  {
    assert DigitsValue("30") == 30;
    assert DigitsValue("09") == 9;
    assert "9.999"[..2] == "9." && !IsDigit("9."[1]);
    assert "-9.90"[..2] == "-9" && !IsDigit("-9"[0]);
  }
}
