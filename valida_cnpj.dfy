/** `validar_cnpj`: the CNPJ (Cadastro Nacional da Pessoa Jurídica) number
    check of the Receita Federal: fourteen digits, not all equal, the last
    two being the modulo-11 check digits of the first twelve and of the
    first thirteen, with the weights 2 to 9 counted cyclically from the
    right. */
module ValidaCnpj {
  import opened Outcomes
  import opened Mensagens
  import opened Digits
  import opened Modulo11

  const CNPJ_TAMANHO := ValidationError(CnpjTamanho)
  const CNPJ_INVALIDO := ValidationError(CnpjInvalido)

  /** `pesos_primeiro` and `pesos_segundo`. */
  const PESOS_PRIMEIRO: seq<int> := [5, 4, 3, 2, 9, 8, 7, 6, 5, 4, 3, 2]
  const PESOS_SEGUNDO: seq<int> := [6, 5, 4, 3, 2, 9, 8, 7, 6, 5, 4, 3, 2]

  /** The inner `calcular_digito(cnpj, pesos)`. */
  function CalcularDigito(cnpj: string, pesos: seq<int>): (d: nat)
    requires AllDigits(cnpj)
    ensures d <= 9
  {
    CheckDigit(WeightedSum(cnpj, pesos))
  }

  /** `validar_cnpj(cnpj)`: `Ok(true)` or the raised `ValidationError`; the
      length is checked before the repeated digits. */
  function ValidarCnpj(cnpj: string): (r: Result<bool>)
    ensures r.Ok? ==> r.value
    ensures |OnlyDigits(cnpj)| != 14 <==> r == Err(CNPJ_TAMANHO)
    ensures r.Err? ==> r.error == CNPJ_TAMANHO || r.error == CNPJ_INVALIDO
    ensures |OnlyDigits(cnpj)| == 14 &&
            (forall i :: 0 <= i < 14 ==> OnlyDigits(cnpj)[i] == OnlyDigits(cnpj)[0])
            ==> r == Err(CNPJ_INVALIDO)
  {
    var ds := OnlyDigits(cnpj);
    OnlyDigitsAreDigits(cnpj);
    if |ds| != 14 then
      Err(CNPJ_TAMANHO)
    else if ds == Repeat(ds[0], 14) then
      Err(CNPJ_INVALIDO)
    else
      assert !(forall i :: 0 <= i < 14 ==> ds[i] == ds[0]) by { RepeatFirstIffAllSame(ds); }
      var primeiro := CalcularDigito(ds[..12], PESOS_PRIMEIRO);
      var segundo := CalcularDigito(ds[..13], PESOS_SEGUNDO);
      if ds[12..] != [DigitChar(primeiro), DigitChar(segundo)] then Err(CNPJ_INVALIDO)
      else Ok(true)
  }

  // ---------------------------------------------------------------------
  // Reference definition of a valid CNPJ, stated by position.

  /** The weight of the digit `d` places from the right: 2 for the
      rightmost, rising to 9 and starting again at 2. */
  function PesoCnpj(d: nat): int {
    if d < 8 then 2 + d else PesoCnpj(d - 8)
  }

  /** The cycle of weights is `2 + d % 8`. */
  lemma {:induction false} PesoCnpjCycle(d: nat)
    ensures PesoCnpj(d) == 2 + d % 8
  {
    if d >= 8 {
      PesoCnpjCycle(d - 8);
    }
  }

  /** The weight vectors of the source are that rule for 12 and 13 digits. */
  lemma PesosFollowTheRule()
    ensures |PESOS_PRIMEIRO| == 12 && |PESOS_SEGUNDO| == 13
    ensures forall i :: 0 <= i < 12 ==> PESOS_PRIMEIRO[i] == PesoCnpj(11 - i)
    ensures forall i :: 0 <= i < 13 ==> PESOS_SEGUNDO[i] == PesoCnpj(12 - i)
  {
  }

  /** The sum of `DigitValue(ds[i]) * PesoCnpj(n - 1 - i)` over the first
      `k` of `n` positions. */
  function SomaCnpj(ds: string, n: nat, k: nat): int
    requires AllDigits(ds) && k <= |ds| && k <= n
  {
    if k == 0 then 0 else SomaCnpj(ds, n, k - 1) + DigitValue(ds[k - 1]) * PesoCnpj(n - k)
  }

  /** A valid CNPJ digit string. */
  predicate CnpjValido(ds: string) {
    && |ds| == 14
    && AllDigits(ds)
    && (exists i :: 0 <= i < 14 && ds[i] != ds[0])
    && DigitValue(ds[12]) == CheckDigit(SomaCnpj(ds, 12, 12))
    && DigitValue(ds[13]) == CheckDigit(SomaCnpj(ds, 13, 13))
  }

  lemma {:induction false} DotIsSomaCnpj(ds: string, pesos: seq<int>, n: nat, k: nat)
    requires AllDigits(ds) && n <= |ds| && k <= n && n <= |pesos|
    requires forall i :: 0 <= i < n ==> pesos[i] == PesoCnpj(n - 1 - i)
    ensures Dot(ds[..n], pesos, k) == SomaCnpj(ds, n, k)
  {
    if k > 0 {
      DotIsSomaCnpj(ds, pesos, n, k - 1);
    }
  }

  /** `calcular_digito(cnpj[:n], pesos)` is the check digit of the positional sum. */
  lemma CalcularDigitoIsReference(ds: string, pesos: seq<int>, n: nat)
    requires AllDigits(ds) && n <= |ds| && |pesos| == n
    requires forall i :: 0 <= i < n ==> pesos[i] == PesoCnpj(n - 1 - i)
    ensures CalcularDigito(ds[..n], pesos) == CheckDigit(SomaCnpj(ds, n, n))
  {
    WeightedSumIsDot(ds[..n], pesos);
    DotIsSomaCnpj(ds, pesos, n, n);
  }

  lemma UltimosDigitos(ds: string, primeiro: nat, segundo: nat)
    requires |ds| == 14 && AllDigits(ds) && primeiro <= 9 && segundo <= 9
    ensures ds[12..] == [DigitChar(primeiro), DigitChar(segundo)] <==>
            DigitValue(ds[12]) == primeiro && DigitValue(ds[13]) == segundo
  {
    var pair := [DigitChar(primeiro), DigitChar(segundo)];
    assert ds[12..] == pair <==> ds[12] == pair[0] && ds[13] == pair[1];
    DigitValueInjective(ds[12], pair[0]);
    DigitValueInjective(ds[13], pair[1]);
  }

  /** The validator accepts exactly the strings whose digits form a valid CNPJ. */
  lemma ValidarCnpjCorrect(cnpj: string)
    ensures ValidarCnpj(cnpj).Ok? <==> CnpjValido(OnlyDigits(cnpj))
  {
    var ds := OnlyDigits(cnpj);
    OnlyDigitsAreDigits(cnpj);
    if |ds| == 14 {
      RepeatFirstIffAllSame(ds);
      PesosFollowTheRule();
      CalcularDigitoIsReference(ds, PESOS_PRIMEIRO, 12);
      CalcularDigitoIsReference(ds, PESOS_SEGUNDO, 13);
      UltimosDigitos(ds, CalcularDigito(ds[..12], PESOS_PRIMEIRO), CalcularDigito(ds[..13], PESOS_SEGUNDO));
    }
  }

  /** Punctuation is irrelevant: a string and its digits get the same verdict. */
  lemma ValidarCnpjIgnoresPunctuation(cnpj: string)
    ensures ValidarCnpj(cnpj) == ValidarCnpj(OnlyDigits(cnpj))
  {
    OnlyDigitsIdempotent(cnpj);
  }

  /** The usual printed form `XX.XXX.XXX/XXXX-XX`. */
  function FormatarCnpj(ds: string): string
    requires |ds| == 14
  {
    ds[..2] + "." + ds[2..5] + "." + ds[5..8] + "/" + ds[8..12] + "-" + ds[12..]
  }

  /** Stripping the punctuation of the printed form gives the digits back. */
  lemma OnlyDigitsFormatarCnpj(ds: string)
    requires |ds| == 14 && AllDigits(ds)
    ensures OnlyDigits(FormatarCnpj(ds)) == ds
  {
    var a, b, c, d, e := ds[..2], ds[2..5], ds[5..8], ds[8..12], ds[12..];
    assert ds == a + b + c + d + e;
    var p1 := a + ".";
    assert OnlyDigits(p1) == a by { OnlyDigitsConcat(a, "."); OnlyDigitsOfDigits(a); }
    var p2 := p1 + b;
    assert OnlyDigits(p2) == a + b by { OnlyDigitsConcat(p1, b); OnlyDigitsOfDigits(b); }
    var p3 := p2 + ".";
    assert OnlyDigits(p3) == a + b by { OnlyDigitsConcat(p2, "."); }
    var p4 := p3 + c;
    assert OnlyDigits(p4) == a + b + c by { OnlyDigitsConcat(p3, c); OnlyDigitsOfDigits(c); }
    var p5 := p4 + "/";
    assert OnlyDigits(p5) == a + b + c by { OnlyDigitsConcat(p4, "/"); }
    var p6 := p5 + d;
    assert OnlyDigits(p6) == a + b + c + d by { OnlyDigitsConcat(p5, d); OnlyDigitsOfDigits(d); }
    var p7 := p6 + "-";
    assert OnlyDigits(p7) == a + b + c + d by { OnlyDigitsConcat(p6, "-"); }
    var p8 := p7 + e;
    assert OnlyDigits(p8) == a + b + c + d + e by { OnlyDigitsConcat(p7, e); OnlyDigitsOfDigits(e); }
    assert FormatarCnpj(ds) == p8;
  }

  /** Adding the standard punctuation to a digit string keeps the verdict. */
  lemma FormatarCnpjKeepsVerdict(ds: string)
    requires |ds| == 14 && AllDigits(ds)
    ensures ValidarCnpj(FormatarCnpj(ds)) == ValidarCnpj(ds)
  {
    OnlyDigitsFormatarCnpj(ds);
    OnlyDigitsOfDigits(ds);
  }

  // ---------------------------------------------------------------------
  // The example numbers 11.222.333/0001-81 and 11222333000180.

  lemma {:induction false} SomaCnpjPrefix(ds: string, other: string, n: nat, k: nat)
    requires AllDigits(ds) && AllDigits(other) && k <= |ds| && k <= |other| && k <= n
    requires ds[..k] == other[..k]
    ensures SomaCnpj(ds, n, k) == SomaCnpj(other, n, k)
  {
    if k > 0 {
      assert ds[k - 1] == ds[..k][k - 1] == other[k - 1];
      assert ds[..k - 1] == ds[..k][..k - 1];
      assert other[..k - 1] == other[..k][..k - 1];
      SomaCnpjPrefix(ds, other, n, k - 1);
    }
  }

  /** The first positional sum of 11222333000181 is 102, so its check digit is 8. */
  lemma ExemploCnpjPrimeiraSoma()
    ensures SomaCnpj("11222333000181", 12, 12) == 102 && CheckDigit(102) == 8
  {
    var ds := "11222333000181";
    assert SomaCnpj(ds, 12, 4) == 19;
    assert SomaCnpj(ds, 12, 8) == 100;
  }

  /** The second positional sum of 11222333000181 is 120, so its check digit is 1. */
  lemma ExemploCnpjSegundaSoma()
    ensures SomaCnpj("11222333000181", 13, 13) == 120 && CheckDigit(120) == 1
  {
    var ds := "11222333000181";
    assert SomaCnpj(ds, 13, 4) == 25;
    assert SomaCnpj(ds, 13, 8) == 101;
    assert SomaCnpj(ds, 13, 12) == 104;
  }

  /** 11222333000181 is a valid CNPJ. */
  lemma ExemploCnpjReferencia()
    ensures CnpjValido("11222333000181")
  {
    ExemploCnpjPrimeiraSoma();
    ExemploCnpjSegundaSoma();
    assert "11222333000181"[2] != "11222333000181"[0];
  }

  /** The positional sums read only the first thirteen digits. */
  lemma SomasExemplo(c: char)
    requires IsDigit(c)
    ensures SomaCnpj("1122233300018" + [c], 12, 12) == 102
    ensures SomaCnpj("1122233300018" + [c], 13, 13) == 120
  {
    var ref := "11222333000181";
    var ds := "1122233300018" + [c];
    ExemploCnpjPrimeiraSoma();
    ExemploCnpjSegundaSoma();
    assert ds[..12] == ref[..12];
    assert ds[..13] == ref[..13];
    SomaCnpjPrefix(ds, ref, 12, 12);
    SomaCnpjPrefix(ds, ref, 13, 13);
  }

  lemma CnpjValidoUltimoDigito(c: char)
    requires IsDigit(c)
    ensures CnpjValido("1122233300018" + [c]) <==> c == '1'
  {
    var ds := "1122233300018" + [c];
    SomasExemplo(c);
    assert CheckDigit(102) == 8 && CheckDigit(120) == 1;
    assert ds[2] != ds[0];
    DigitValueInjective(c, '1');
  }

  lemma FormatarCnpjExemplo(c: char)
    ensures "11.222.333/0001-8" + [c] == FormatarCnpj("1122233300018" + [c])
  {
    var ds := "1122233300018" + [c];
    assert FormatarCnpj(ds) == "11" + "." + "222" + "." + "333" + "/" + "0001" + "-" + ['8', c] by {
      assert ds[..2] == "11" && ds[2..5] == "222" && ds[5..8] == "333";
      assert ds[8..12] == "0001" && ds[12..] == ['8', c];
    }
    assert "11.222.333/0001-8" + [c] == "11" + "." + "222" + "." + "333" + "/" + "0001" + "-" + ['8', c];
  }

  /** With the first thirteen digits of 11.222.333/0001-81 fixed, exactly
      the last digit 1 is accepted, printed or not. */
  lemma ExemploCnpjUltimoDigito(c: char)
    requires IsDigit(c)
    ensures ValidarCnpj("1122233300018" + [c]).Ok? <==> c == '1'
    ensures ValidarCnpj("11.222.333/0001-8" + [c]).Ok? <==> c == '1'
  {
    OnlyDigitsOfDigits("1122233300018" + [c]);
    ValidarCnpjCorrect("1122233300018" + [c]);
    CnpjValidoUltimoDigito(c);
    FormatarCnpjExemplo(c);
    FormatarCnpjKeepsVerdict("1122233300018" + [c]);
  }

  /** "11.222.333/0001-81" is accepted, and so is it without punctuation. */
  lemma ExemploCnpjAceito()
    ensures ValidarCnpj("11.222.333/0001-81") == Ok(true)
    ensures ValidarCnpj("11222333000181") == Ok(true)
  {
    ExemploCnpjUltimoDigito('1');
    assert "11.222.333/0001-81" == "11.222.333/0001-8" + ['1'];
    assert "11222333000181" == "1122233300018" + ['1'];
  }

  /** "11222333000180" is rejected as an invalid CNPJ (its length is right). */
  lemma ExemploCnpjRejeitado()
    ensures ValidarCnpj("11222333000180") == Err(CNPJ_INVALIDO)
  {
    var ds := "1122233300018" + ['0'];
    ExemploCnpjUltimoDigito('0');
    OnlyDigitsOfDigits(ds);
    assert "11222333000180" == ds;
  }
}
