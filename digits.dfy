/** The digit normaliser every validator starts with,
    `''.join(filter(str.isdigit, s))`, restricted to the ASCII digits. */
module Digits {

  predicate IsDigit(c: char) {
    '0' <= c <= '9'
  }

  predicate AllDigits(s: string) {
    forall i :: 0 <= i < |s| ==> IsDigit(s[i])
  }

  /** `int(c)` for an ASCII digit. */
  function DigitValue(c: char): (v: nat)
    requires IsDigit(c)
    ensures v <= 9
  {
    (c as int) - ('0' as int)
  }

  /** The one-character decimal text of a number below ten, as an f-string
      writes it. */
  function DigitChar(v: nat): (c: char)
    requires v <= 9
    ensures IsDigit(c) && DigitValue(c) == v
  {
    (('0' as int) + v) as char
  }

  lemma DigitValueInjective(a: char, b: char)
    requires IsDigit(a) && IsDigit(b)
    ensures DigitValue(a) == DigitValue(b) <==> a == b
  {
  }

  /** The digits of `s`, in their original order. (Its properties are
      lemmas, so that it evaluates freely on literal strings.) */
  function OnlyDigits(s: string): string
  {
    if s == [] then []
    else if IsDigit(s[0]) then [s[0]] + OnlyDigits(s[1..])
    else OnlyDigits(s[1..])
  }

  /** The normal form holds digits only and is no longer than the input. */
  lemma {:induction false} OnlyDigitsAreDigits(s: string)
    ensures AllDigits(OnlyDigits(s))
    ensures |OnlyDigits(s)| <= |s|
  {
    if s != [] {
      OnlyDigitsAreDigits(s[1..]);
    }
  }

  /** Filtering distributes over concatenation. */
  lemma {:induction false} OnlyDigitsConcat(a: string, b: string)
    ensures OnlyDigits(a + b) == OnlyDigits(a) + OnlyDigits(b)
  {
    if a == [] {
      assert a + b == b;
    } else {
      assert (a + b)[1..] == a[1..] + b;
      OnlyDigitsConcat(a[1..], b);
    }
  }

  /** A string of digits is its own normal form. */
  lemma {:induction false} OnlyDigitsOfDigits(s: string)
    requires AllDigits(s)
    ensures OnlyDigits(s) == s
  {
    if s != [] {
      OnlyDigitsOfDigits(s[1..]);
    }
  }

  /** Normalising twice is normalising once. */
  lemma OnlyDigitsIdempotent(s: string)
    ensures OnlyDigits(OnlyDigits(s)) == OnlyDigits(s)
  {
    OnlyDigitsAreDigits(s);
    OnlyDigitsOfDigits(OnlyDigits(s));
  }

  /** A punctuation character (anything but a digit) inserted anywhere does
      not change the normal form. */
  lemma OnlyDigitsIgnoresNonDigit(a: string, c: char, b: string)
    requires !IsDigit(c)
    ensures OnlyDigits(a + [c] + b) == OnlyDigits(a + b)
  {
    OnlyDigitsConcat(a + [c], b);
    OnlyDigitsConcat(a, [c]);
    OnlyDigitsConcat(a, b);
    assert OnlyDigits([c]) == [];
  }

  /** `c * n` in Python: `n` copies of `c`. */
  function Repeat(c: char, n: nat): (r: string)
    ensures |r| == n
    ensures forall i :: 0 <= i < n ==> r[i] == c
  {
    if n == 0 then [] else [c] + Repeat(c, n - 1)
  }

  /** Comparing with `s[0] * len(s)` is asking whether every character is
      the first one. */
  lemma RepeatFirstIffAllSame(s: string)
    requires |s| > 0
    ensures s == Repeat(s[0], |s|) <==> forall i :: 0 <= i < |s| ==> s[i] == s[0]
  {
    var r := Repeat(s[0], |s|);
    if forall i :: 0 <= i < |s| ==> s[i] == s[0] {
      assert forall i :: 0 <= i < |s| ==> s[i] == r[i];
    }
  }
}
