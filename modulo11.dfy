/** The modulo-11 check digit shared by the CPF and CNPJ schemes of the
    Brazilian Receita Federal: a weighted digit sum, then the rule
    "remainder below 2 gives 0, otherwise 11 minus the remainder". */
module Modulo11 {
  import opened Digits

  /** `sum(int(d) * w for d, w in zip(digits, weights))`: `zip` stops at the
      shorter of the two. */
  function WeightedSum(digits: string, weights: seq<int>): int
    requires AllDigits(digits)
  {
    if digits == [] || weights == [] then 0
    else DigitValue(digits[0]) * weights[0] + WeightedSum(digits[1..], weights[1..])
  }

  /** The same sum written by position: the first `k` products. */
  function Dot(digits: string, weights: seq<int>, k: nat): int
    requires AllDigits(digits)
    requires k <= |digits| && k <= |weights|
  {
    if k == 0 then 0
    else Dot(digits, weights, k - 1) + DigitValue(digits[k - 1]) * weights[k - 1]
  }

  lemma {:induction false} DotSplitFirst(digits: string, weights: seq<int>, k: nat)
    requires AllDigits(digits)
    requires 0 < k <= |digits| && k <= |weights|
    ensures Dot(digits, weights, k) ==
            DigitValue(digits[0]) * weights[0] + Dot(digits[1..], weights[1..], k - 1)
  {
    if k > 1 {
      DotSplitFirst(digits, weights, k - 1);
      assert digits[1..][k - 2] == digits[k - 1];
      assert weights[1..][k - 2] == weights[k - 1];
    }
  }

  /** The zipped sum is the positional sum over the common length. */
  lemma {:induction false} WeightedSumIsDot(digits: string, weights: seq<int>)
    requires AllDigits(digits)
    ensures WeightedSum(digits, weights) ==
            Dot(digits, weights, if |digits| <= |weights| then |digits| else |weights|)
  {
    if digits != [] && weights != [] {
      WeightedSumIsDot(digits[1..], weights[1..]);
      DotSplitFirst(digits, weights, if |digits| <= |weights| then |digits| else |weights|);
    }
  }

  /** Two weight vectors that agree on the first `k` positions give the same
      positional sum. */
  lemma {:induction false} DotAgrees(digits: string, w1: seq<int>, w2: seq<int>, k: nat)
    requires AllDigits(digits)
    requires k <= |digits| && k <= |w1| && k <= |w2|
    requires forall i :: 0 <= i < k ==> w1[i] == w2[i]
    ensures Dot(digits, w1, k) == Dot(digits, w2, k)
  {
    if k > 0 {
      DotAgrees(digits, w1, w2, k - 1);
    }
  }

  /** `0 if resto < 2 else 11 - resto` with `resto = soma % 11`. The digit
      brings the sum to a multiple of 11, except for remainder 1, where the
      digit would have to be 10 and is 0 instead. */
  function CheckDigit(soma: int): (d: nat)
    ensures d <= 9
    ensures soma % 11 != 1 ==> (soma + d) % 11 == 0
    ensures soma % 11 == 1 ==> d == 0
  {
    var resto := soma % 11;
    if resto < 2 then 0 else 11 - resto
  }
}
