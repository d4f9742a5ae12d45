/** The pieces of Python's `str()` that the entities' `__str__` methods
    rely on: the decimal text of an integer, `None`, and the `repr` of a
    list of integers. */
module Texts {
  import opened Digits
  import opened Outcomes

  /** `str(n)` for `n >= 0`: decimal digits, no leading zero. */
  function NatToString(n: nat): string
  {
    if n < 10 then [DigitChar(n)] else NatToString(n / 10) + [DigitChar(n % 10)]
  }

  /** The value of a string of decimal digits (`int(s)`), read from the left. */
  function DecimalValue(s: string): nat
    requires AllDigits(s)
  {
    if s == [] then 0 else DecimalValue(s[..|s| - 1]) * 10 + DigitValue(s[|s| - 1])
  }

  /** The decimal text is made of digits, has no leading zero and reads back
      as the number: `int(str(n)) == n`. */
  lemma {:induction false} NatToStringRoundTrip(n: nat)
    ensures AllDigits(NatToString(n)) && |NatToString(n)| > 0
    ensures |NatToString(n)| > 1 ==> NatToString(n)[0] != '0'
    ensures DecimalValue(NatToString(n)) == n
  {
    if n >= 10 {
      NatToStringRoundTrip(n / 10);
      var s := NatToString(n);
      assert s[..|s| - 1] == NatToString(n / 10);
      assert s[0] == NatToString(n / 10)[0];
    }
  }

  /** `str(n)` for any integer: a minus sign before the digits of `-n`. */
  function IntToString(n: int): string
  {
    if n < 0 then "-" + NatToString(-n) else NatToString(n)
  }

  /** Negative numbers and only they are written with a leading minus sign. */
  lemma IntToStringSign(n: int)
    ensures |IntToString(n)| > 0
    ensures IntToString(n)[0] == '-' <==> n < 0
  {
    NatToStringRoundTrip(if n < 0 then -n else n);
  }

  /** `str(x)` for an optional integer: `None` prints as "None". */
  function OptionIntToString(x: Option<int>): string
  {
    if x.Some? then IntToString(x.value) else "None"
  }

  /** `", ".join(ss)`. */
  function Join(ss: seq<string>): string
  {
    if ss == [] then ""
    else if |ss| == 1 then ss[0]
    else ss[0] + ", " + Join(ss[1..])
  }

  /** Appending a piece: the joined text gains ", " and the piece, with no
      separator before the first piece. */
  lemma {:induction false} JoinAppend(ss: seq<string>, s: string)
    ensures Join(ss + [s]) == if ss == [] then s else Join(ss) + ", " + s
  {
    var ys := ss + [s];
    if ss == [] {
      assert ys == [s];
    } else if |ss| == 1 {
      assert ys == [ss[0], s] && ys[1..] == [s];
    } else {
      assert ys[0] == ss[0] && ys[1..] == ss[1..] + [s];
      JoinAppend(ss[1..], s);
      Associa(ss[0] + ", ", Join(ss[1..]), ", " + s);
    }
  }

  /** The text of each item: `map(str, xs)`. */
  function Textos(xs: seq<int>): (r: seq<string>)
    ensures |r| == |xs| && forall i :: 0 <= i < |xs| ==> r[i] == IntToString(xs[i])
  {
    seq(|xs|, i requires 0 <= i < |xs| => IntToString(xs[i]))
  }

  /** The items of `repr(xs)` without the brackets: `1, 2, 3`. */
  function JoinInts(xs: seq<int>): string
  {
    Join(Textos(xs))
  }

  /** `str(xs)` for a list of integers: `[1, 2, 3]`. */
  function ListRepr(xs: seq<int>): (r: string)
    ensures |r| >= 2 && r[0] == '[' && r[|r| - 1] == ']'
    ensures xs == [] <==> r == "[]"
  {
    NonEmptyJoin(xs);
    "[" + JoinInts(xs) + "]"
  }

  /** Appending an item: the joined text gains ", " and the item's text,
      with no separator before the first item. */
  lemma JoinIntsAppend(xs: seq<int>, x: int)
    ensures JoinInts(xs + [x]) == if xs == [] then IntToString(x) else JoinInts(xs) + ", " + IntToString(x)
  {
    assert Textos(xs + [x]) == Textos(xs) + [IntToString(x)];
    JoinAppend(Textos(xs), IntToString(x));
  }

  /** Concatenation of strings is associative. */
  lemma Associa(a: string, b: string, c: string)
    ensures a + (b + c) == (a + b) + c
  {
  }

  /** `str(xs + [x])` is `str(xs)` with its closing bracket replaced by
      ", " (nothing for an empty list), the text of `x` and "]": the items
      appear in order, comma-separated. */
  lemma ListReprAppend(xs: seq<int>, x: int)
    ensures var r := ListRepr(xs);
            ListRepr(xs + [x]) == r[..|r| - 1] + (if xs == [] then "" else ", ") + IntToString(x) + "]"
  {
    var j, t, sep := JoinInts(xs), IntToString(x), if xs == [] then "" else ", ";
    assert JoinInts(xs + [x]) == j + sep + t by {
      JoinIntsAppend(xs, x);
      if xs == [] {
        assert Textos(xs) == [];
      }
    }
    ReabrirColchete(j, sep + t);
  }

  /** Text inserted before the closing bracket of `"[" + j + "]"`. */
  lemma ReabrirColchete(j: string, u: string)
    ensures var r := "[" + j + "]";
            "[" + (j + u) + "]" == r[..|r| - 1] + u + "]"
  {
    var r := "[" + j + "]";
    assert r[..|r| - 1] == "[" + j;
  }

  /** A one-item list prints as its item between brackets. */
  lemma ListReprSingle(x: int)
    ensures ListRepr([x]) == "[" + IntToString(x) + "]"
  {
    ListReprAppend([], x);
    assert [] + [x] == [x];
  }

  lemma NonEmptyJoin(xs: seq<int>)
    ensures xs != [] ==> |JoinInts(xs)| > 0
  {
    if xs != [] {
      IntToStringSign(xs[0]);
    }
  }

  /** Slicing a concatenation at the seam gives the two parts back. */
  lemma ConcatSlices(a: string, b: string)
    ensures (a + b)[..|a|] == a && (a + b)[|a|..] == b
  {
  }

  /** A text built as `prefixo + a + meio + b` shows `prefixo`, then `a`,
      and ends with `b`. */
  lemma RotuloLayout(prefixo: string, a: string, meio: string, b: string)
    ensures var s := prefixo + a + meio + b;
            && |s| == |prefixo| + |a| + |meio| + |b|
            && s[..|prefixo|] == prefixo
            && s[|prefixo|..|prefixo| + |a|] == a
            && s[|s| - |b|..] == b
  {
    var s := prefixo + a + meio + b;
    assert s == (prefixo + a) + (meio + b);
    ConcatSlices(prefixo + a, meio + b);
    ConcatSlices(prefixo, a);
    assert s == (prefixo + a + meio) + b;
    ConcatSlices(prefixo + a + meio, b);
  }
}
