/** Option datatype used by the parsers. */
module Wrappers {
  datatype Option<+T> = None | Some(value: T)
}

/**
 * Character classes, decimal digit strings and whitespace trimming, as the
 * validator's patterns and the points rules use them.
 *
 * The character classes are restricted to ASCII: `\d` is `[0-9]`, `\w` is
 * `[A-Za-z0-9_]` and `\s` is the set of ASCII characters for which Python's
 * `str.isspace` holds (code points 9 to 13 and 28 to 32), which is also the
 * set `str.strip()` removes.
 */
module Text {

  predicate IsDigit(c: char) { '0' <= c <= '9' }

  predicate IsLetter(c: char) { 'A' <= c <= 'Z' || 'a' <= c <= 'z' }

  /** "Alphanumeric" in the retailer points rule. */
  predicate IsAlnum(c: char) { IsLetter(c) || IsDigit(c) }

  /** `\w`: alphanumerics and the underscore. */
  predicate IsWordChar(c: char) { IsAlnum(c) || c == '_' }

  /** `\s`: tab, line feed, vertical tab, form feed, carriage return, the four
      separator controls 28..31 and the space. */
  predicate IsSpace(c: char) { 9 <= c as int <= 13 || 28 <= c as int <= 32 }

  predicate AllDigits(s: string) {
    forall i :: 0 <= i < |s| ==> IsDigit(s[i])
  }

  function DigitValue(c: char): (d: nat)
    requires IsDigit(c)
    ensures d < 10
  {
    c as int - '0' as int
  }

  function DigitChar(d: nat): (c: char)
    requires d < 10
    ensures IsDigit(c) && DigitValue(c) == d
  {
    ('0' as int + d) as char
  }

  lemma DigitCharOfValue(c: char)
    requires IsDigit(c)
    ensures DigitChar(DigitValue(c)) == c
  {
  }

  function Pow10(n: nat): (p: nat)
    ensures p >= 1
  {
    if n == 0 then 1 else 10 * Pow10(n - 1)
  }

  /** The number a string of decimal digits denotes (leading zeros allowed). */
  function DigitsValue(s: string): nat
    requires AllDigits(s)
  {
    if s == [] then 0 else 10 * DigitsValue(s[..|s| - 1]) + DigitValue(s[|s| - 1])
  }

  /** Appending one digit shifts the value by one decimal place. */
  lemma DigitsValueSnoc(s: string, c: char)
    requires AllDigits(s) && IsDigit(c)
    ensures AllDigits(s + [c])
    ensures DigitsValue(s + [c]) == 10 * DigitsValue(s) + DigitValue(c)
  {
    assert (s + [c])[..|s|] == s;
  }

  /** A string of at least one digit that does not start with '0' denotes a
      number of exactly that many digits. */
  lemma {:induction false} DigitsValueLowerBound(s: string)
    requires AllDigits(s) && |s| >= 1 && s[0] != '0'
    ensures DigitsValue(s) >= Pow10(|s| - 1)
  {
    if |s| > 1 {
      DigitsValueLowerBound(s[..|s| - 1]);
    }
  }

  /** The number two digit characters denote, leading zero allowed: "07" is 7. */
  function PairValue(a: char, b: char): nat
    requires IsDigit(a) && IsDigit(b)
  {
    10 * DigitValue(a) + DigitValue(b)
  }

  /** Two-digit zero-padded rendering of a number below 100. */
  function Pad2(n: nat): (s: string)
    requires n < 100
    ensures |s| == 2 && AllDigits(s) && PairValue(s[0], s[1]) == n
  {
    [DigitChar(n / 10), DigitChar(n % 10)]
  }

  /** Every pair of digits is the padded rendering of its value. */
  lemma Pad2OfPairValue(a: char, b: char)
    requires IsDigit(a) && IsDigit(b)
    ensures PairValue(a, b) < 100 && Pad2(PairValue(a, b)) == [a, b]
  {
    DigitCharOfValue(a);
    DigitCharOfValue(b);
  }

  /** No leading zero, except for the single digit "0". */
  predicate IsCanonicalDigits(s: string) {
    |s| >= 1 && AllDigits(s) && (s[0] != '0' || |s| == 1)
  }

  /** Shortest decimal rendering of n. */
  function NatToDigits(n: nat): (s: string)
    ensures IsCanonicalDigits(s) && DigitsValue(s) == n
  {
    if n < 10 then [DigitChar(n)]
    else
      var prefix := NatToDigits(n / 10);
      DigitsValueSnoc(prefix, DigitChar(n % 10));
      prefix + [DigitChar(n % 10)]
  }

  /** Canonical digit strings are exactly the renderings NatToDigits makes. */
  lemma {:induction false} NatToDigitsOfValue(s: string)
    requires IsCanonicalDigits(s)
    ensures NatToDigits(DigitsValue(s)) == s
  {
    var n := DigitsValue(s);
    if |s| == 1 {
      DigitCharOfValue(s[0]);
      assert s == [s[0]];
    } else {
      var prefix, last := s[..|s| - 1], s[|s| - 1];
      DigitsValueLowerBound(s);
      assert n >= 10;
      assert n / 10 == DigitsValue(prefix) && n % 10 == DigitValue(last);
      NatToDigitsOfValue(prefix);
      DigitCharOfValue(last);
      assert s == prefix + [last];
    }
  }

  /** The index of the first non-whitespace character at or after i (|s|
      when there is none): where `str.strip()` starts keeping characters. */
  function SkipSpaces(s: string, i: nat): (j: nat)
    requires i <= |s|
    ensures i <= j <= |s|
    decreases |s| - i
  {
    if i < |s| && IsSpace(s[i]) then SkipSpaces(s, i + 1) else i
  }

  /** The end of s[lo..j] once its trailing whitespace is dropped: where
      `str.strip()` stops keeping characters. */
  function SkipSpacesBack(s: string, lo: nat, j: nat): (k: nat)
    requires lo <= j <= |s|
    ensures lo <= k <= j
  {
    if lo < j && IsSpace(s[j - 1]) then SkipSpacesBack(s, lo, j - 1) else j
  }

  /** Python's `str.strip()`: the trimmed text of an item description. */
  function Trim(s: string): (r: string)
    ensures |r| <= |s|
  {
    var lo := SkipSpaces(s, 0);
    s[lo..SkipSpacesBack(s, lo, |s|)]
  }

  /** SkipSpaces passes over whitespace only, and stops at the first
      character that is not whitespace. */
  lemma {:induction false} SkipSpacesSpec(s: string, i: nat)
    requires i <= |s|
    ensures forall k :: i <= k < SkipSpaces(s, i) ==> IsSpace(s[k])
    ensures SkipSpaces(s, i) == |s| || !IsSpace(s[SkipSpaces(s, i)])
    decreases |s| - i
  {
    if i < |s| && IsSpace(s[i]) {
      SkipSpacesSpec(s, i + 1);
    }
  }

  /** SkipSpacesBack passes back over whitespace only, and stops after the
      last character that is not whitespace (or at lo). */
  lemma {:induction false} SkipSpacesBackSpec(s: string, lo: nat, j: nat)
    requires lo <= j <= |s|
    ensures forall k :: SkipSpacesBack(s, lo, j) <= k < j ==> IsSpace(s[k])
    ensures SkipSpacesBack(s, lo, j) == lo || !IsSpace(s[SkipSpacesBack(s, lo, j) - 1])
  {
    if lo < j && IsSpace(s[j - 1]) {
      SkipSpacesBackSpec(s, lo, j - 1);
    }
  }

  /** Trimming removes whitespace only from the two ends: what is left is a
      contiguous slice of s, everything outside it is whitespace, and the
      slice neither starts nor ends with whitespace. */
  lemma TrimIsSlice(s: string)
    ensures exists lo, hi :: (0 <= lo <= hi <= |s| && Trim(s) == s[lo..hi]
        && (forall k :: 0 <= k < lo ==> IsSpace(s[k]))
        && (forall k :: hi <= k < |s| ==> IsSpace(s[k])))
    ensures Trim(s) == [] || (!IsSpace(Trim(s)[0]) && !IsSpace(Trim(s)[|Trim(s)| - 1]))
  {
    var lo := SkipSpaces(s, 0);
    var hi := SkipSpacesBack(s, lo, |s|);
    SkipSpacesSpec(s, 0);
    SkipSpacesBackSpec(s, lo, |s|);
    assert Trim(s) == s[lo..hi];
    assert forall k :: hi <= k < |s| ==> IsSpace(s[k]);
    if lo < |s| {
      assert !IsSpace(s[lo]);
      assert lo < hi;
      assert Trim(s)[0] == s[lo] && Trim(s)[hi - lo - 1] == s[hi - 1];
    }
  }

  /** A non-whitespace character survives trimming. */
  lemma TrimKeeps(s: string, i: nat)
    requires i < |s| && !IsSpace(s[i])
    ensures Trim(s) != []
  {
    var lo := SkipSpaces(s, 0);
    SkipSpacesSpec(s, 0);
    SkipSpacesBackSpec(s, lo, |s|);
    assert lo <= i;
  }

  /** Trimming twice is trimming once. */
  lemma TrimIdempotent(s: string)
    ensures Trim(Trim(s)) == Trim(s)
  {
    var t := Trim(s);
    TrimIsSlice(s);
    SkipSpacesSpec(t, 0);
    SkipSpacesBackSpec(t, 0, |t|);
    if t != [] {
      assert SkipSpaces(t, 0) == 0;
      assert SkipSpacesBack(t, 0, |t|) == |t|;
    }
  }
}
