/** `validar_cpf`: the CPF (Cadastro de Pessoas Físicas) number check of the
    Receita Federal: eleven digits, not all equal, the last two being the
    modulo-11 check digits of the first nine and of the first ten. */
module ValidaCpf {
  import opened Outcomes
  import opened Mensagens
  import opened Digits
  import opened Modulo11

  const CPF_INVALIDO := ValidationError(CpfInvalido)

  /** `range(peso, 1, -1)`: the weights `peso, peso - 1, ..., 2`. */
  function Pesos(peso: int): (ws: seq<int>)
    ensures |ws| == if peso >= 2 then peso - 1 else 0
    ensures forall i :: 0 <= i < |ws| ==> ws[i] == peso - i
    decreases peso
  {
    if peso <= 1 then [] else [peso] + Pesos(peso - 1)
  }

  /** The inner `calcular_digito(cpf, peso)`. */
  function CalcularDigito(cpf: string, peso: int): (d: nat)
    requires AllDigits(cpf)
    ensures d <= 9
  {
    CheckDigit(WeightedSum(cpf, Pesos(peso)))
  }

  /** `validar_cpf(cpf)`: `Ok(true)` or the raised `ValidationError`. */
  function ValidarCpf(cpf: string): (r: Result<bool>)
    ensures r.Ok? ==> r.value
    ensures r.Err? ==> r.error == CPF_INVALIDO
    ensures |OnlyDigits(cpf)| != 11 ==> r.Err?
    ensures |OnlyDigits(cpf)| == 11 &&
            (forall i :: 0 <= i < 11 ==> OnlyDigits(cpf)[i] == OnlyDigits(cpf)[0])
            ==> r.Err?
  {
    var ds := OnlyDigits(cpf);
    OnlyDigitsAreDigits(cpf);
    if |ds| != 11 || ds == Repeat(ds[0], 11) then
      Err(CPF_INVALIDO)
    else
      assert !(forall i :: 0 <= i < 11 ==> ds[i] == ds[0]) by { RepeatFirstIffAllSame(ds); }
      var primeiro := CalcularDigito(ds[..9], 10);
      var segundo := CalcularDigito(ds[..10], 11);
      if ds[9..] != [DigitChar(primeiro), DigitChar(segundo)] then Err(CPF_INVALIDO)
      else Ok(true)
  }

  // ---------------------------------------------------------------------
  // Reference definition of a valid CPF, stated by position.

  /** The sum of `DigitValue(ds[i]) * (n + 1 - i)` over the first `k`
      positions: for check digit number one `n` is 9 (weights 10 down to 2),
      for number two `n` is 10 (weights 11 down to 2). */
  function SomaCpf(ds: string, n: nat, k: nat): int
    requires AllDigits(ds) && k <= |ds|
  {
    if k == 0 then 0 else SomaCpf(ds, n, k - 1) + DigitValue(ds[k - 1]) * (n + 1 - (k - 1))
  }

  /** A valid CPF digit string: eleven digits, not all equal, the tenth
      digit the check digit of the first nine and the eleventh that of the
      first ten. */
  predicate CpfValido(ds: string) {
    && |ds| == 11
    && AllDigits(ds)
    && (exists i :: 0 <= i < 11 && ds[i] != ds[0])
    && DigitValue(ds[9]) == CheckDigit(SomaCpf(ds, 9, 9))
    && DigitValue(ds[10]) == CheckDigit(SomaCpf(ds, 10, 10))
  }

  lemma {:induction false} DotPesosIsSomaCpf(ds: string, n: nat, k: nat)
    requires AllDigits(ds) && n <= |ds| && k <= n
    ensures Dot(ds[..n], Pesos(n + 1), k) == SomaCpf(ds, n, k)
  {
    if k > 0 {
      DotPesosIsSomaCpf(ds, n, k - 1);
    }
  }

  /** `calcular_digito(cpf[:n], n + 1)` is the check digit of the positional sum. */
  lemma CalcularDigitoIsReference(ds: string, n: nat)
    requires AllDigits(ds) && n <= |ds|
    ensures CalcularDigito(ds[..n], n + 1) == CheckDigit(SomaCpf(ds, n, n))
  {
    WeightedSumIsDot(ds[..n], Pesos(n + 1));
    DotPesosIsSomaCpf(ds, n, n);
  }

  /** The last two digits equal the f-string of the computed pair exactly
      when their values equal the two check digits. */
  lemma UltimosDigitos(ds: string, primeiro: nat, segundo: nat)
    requires |ds| == 11 && AllDigits(ds) && primeiro <= 9 && segundo <= 9
    ensures ds[9..] == [DigitChar(primeiro), DigitChar(segundo)] <==>
            DigitValue(ds[9]) == primeiro && DigitValue(ds[10]) == segundo
  {
    var pair := [DigitChar(primeiro), DigitChar(segundo)];
    assert ds[9..] == pair <==> ds[9] == pair[0] && ds[10] == pair[1];
    DigitValueInjective(ds[9], pair[0]);
    DigitValueInjective(ds[10], pair[1]);
  }

  /** The validator accepts exactly the strings whose digits form a valid CPF. */
  lemma ValidarCpfCorrect(cpf: string)
    ensures ValidarCpf(cpf).Ok? <==> CpfValido(OnlyDigits(cpf))
  {
    var ds := OnlyDigits(cpf);
    OnlyDigitsAreDigits(cpf);
    if |ds| == 11 {
      RepeatFirstIffAllSame(ds);
      if ds != Repeat(ds[0], 11) {
        var primeiro := CalcularDigito(ds[..9], 10);
        var segundo := CalcularDigito(ds[..10], 11);
        assert ValidarCpf(cpf).Ok? <==> ds[9..] == [DigitChar(primeiro), DigitChar(segundo)];
        assert ds[9..] == [DigitChar(primeiro), DigitChar(segundo)] <==>
               DigitValue(ds[9]) == CheckDigit(SomaCpf(ds, 9, 9)) &&
               DigitValue(ds[10]) == CheckDigit(SomaCpf(ds, 10, 10)) by {
          CalcularDigitoIsReference(ds, 9);
          CalcularDigitoIsReference(ds, 10);
          UltimosDigitos(ds, primeiro, segundo);
        }
        assert exists i :: 0 <= i < 11 && ds[i] != ds[0];
      }
    }
  }

  /** Punctuation is irrelevant: a string and its digits get the same verdict. */
  lemma ValidarCpfIgnoresPunctuation(cpf: string)
    ensures ValidarCpf(cpf) == ValidarCpf(OnlyDigits(cpf))
  {
    OnlyDigitsIdempotent(cpf);
  }

  /** The usual printed form `XXX.XXX.XXX-XX`. */
  function FormatarCpf(ds: string): string
    requires |ds| == 11
  {
    ds[..3] + "." + ds[3..6] + "." + ds[6..9] + "-" + ds[9..]
  }

  /** Stripping the punctuation of the printed form gives the digits back. */
  lemma OnlyDigitsFormatarCpf(ds: string)
    requires |ds| == 11 && AllDigits(ds)
    ensures OnlyDigits(FormatarCpf(ds)) == ds
  {
    var a, b, c, d := ds[..3], ds[3..6], ds[6..9], ds[9..];
    assert ds == a + b + c + d;
    OnlyDigitsConcat(a + "." + b + "." + c + "-", d);
    OnlyDigitsConcat(a + "." + b + "." + c, "-");
    OnlyDigitsConcat(a + "." + b + ".", c);
    OnlyDigitsConcat(a + "." + b, ".");
    OnlyDigitsConcat(a + ".", b);
    OnlyDigitsConcat(a, ".");
    OnlyDigitsOfDigits(a);
    OnlyDigitsOfDigits(b);
    OnlyDigitsOfDigits(c);
    OnlyDigitsOfDigits(d);
  }

  /** Adding the standard punctuation to a digit string keeps the verdict. */
  lemma FormatarCpfKeepsVerdict(ds: string)
    requires |ds| == 11 && AllDigits(ds)
    ensures ValidarCpf(FormatarCpf(ds)) == ValidarCpf(ds)
  {
    OnlyDigitsFormatarCpf(ds);
    OnlyDigitsOfDigits(ds);
  }

  /** The positional sum over the first `k` digits reads only those digits. */
  lemma {:induction false} SomaCpfPrefix(ds: string, other: string, n: nat, k: nat)
    requires AllDigits(ds) && AllDigits(other) && k <= |ds| && k <= |other|
    requires ds[..k] == other[..k]
    ensures SomaCpf(ds, n, k) == SomaCpf(other, n, k)
  {
    if k > 0 {
      assert ds[k - 1] == ds[..k][k - 1] == other[k - 1];
      assert ds[..k - 1] == ds[..k][..k - 1];
      assert other[..k - 1] == other[..k][..k - 1];
      SomaCpfPrefix(ds, other, n, k - 1);
    }
  }

  /** The reference digits 529.982.247-25: sums 295 and 347, check digits 2 and 5. */
  lemma ExemploCpfReferencia()
    ensures SomaCpf("52998224725", 9, 9) == 295 && CheckDigit(295) == 2
    ensures SomaCpf("52998224725", 10, 10) == 347 && CheckDigit(347) == 5
    ensures CpfValido("52998224725")
  {
    assert "52998224725"[1] != "52998224725"[0];
  }

  lemma FormatarCpfExemplo(c: char)
    ensures "529.982.247-2" + [c] == FormatarCpf("5299822472" + [c])
  {
    var ds := "5299822472" + [c];
    assert ds[..3] == "529" && ds[3..6] == "982" && ds[6..9] == "247" && ds[9..] == ['2', c];
    assert "529.982.247-2" + [c] == "529" + "." + "982" + "." + "247" + "-" + ['2', c];
  }

  lemma FormatarCpfExemplo2(c: char)
    ensures "529.982.247-" + [c] + "5" == FormatarCpf("529982247" + [c] + "5")
  {
    var ds := "529982247" + [c] + "5";
    assert ds[..3] == "529" && ds[3..6] == "982" && ds[6..9] == "247" && ds[9..] == [c, '5'];
    assert "529.982.247-" + [c] + "5" == "529" + "." + "982" + "." + "247" + "-" + [c, '5'];
  }

  lemma CpfValidoUltimoDigito(c: char)
    requires IsDigit(c)
    ensures CpfValido("5299822472" + [c]) <==> c == '5'
  {
    var ref := "52998224725";
    var ds := "5299822472" + [c];
    ExemploCpfReferencia();
    assert ds[..9] == ref[..9];
    assert ds[..10] == ref[..10];
    SomaCpfPrefix(ds, ref, 9, 9);
    SomaCpfPrefix(ds, ref, 10, 10);
    assert ds[1] != ds[0];
    DigitValueInjective(c, '5');
  }

  lemma CpfValidoPenultimoDigito(c: char)
    requires IsDigit(c)
    ensures CpfValido("529982247" + [c] + "5") <==> c == '2'
  {
    var ref := "52998224725";
    var ds := "529982247" + [c] + "5";
    ExemploCpfReferencia();
    assert ds[..9] == ref[..9];
    SomaCpfPrefix(ds, ref, 9, 9);
    assert ds[1] != ds[0];
    DigitValueInjective(c, '2');
    if c == '2' {
      assert ds == ref;
    }
  }

  /** With the first ten digits of 529.982.247-25 fixed, exactly the last
      digit 5 is accepted. */
  lemma ExemploCpfUltimoDigito(c: char)
    requires IsDigit(c)
    ensures ValidarCpf("529.982.247-2" + [c]).Ok? <==> c == '5'
  {
    FormatarCpfExemplo(c);
    OnlyDigitsFormatarCpf("5299822472" + [c]);
    ValidarCpfCorrect("529.982.247-2" + [c]);
    CpfValidoUltimoDigito(c);
  }

  /** With the other digits of 529.982.247-25 fixed, exactly the
      second-to-last digit 2 is accepted. */
  lemma ExemploCpfPenultimoDigito(c: char)
    requires IsDigit(c)
    ensures ValidarCpf("529.982.247-" + [c] + "5").Ok? <==> c == '2'
  {
    FormatarCpfExemplo2(c);
    OnlyDigitsFormatarCpf("529982247" + [c] + "5");
    ValidarCpfCorrect("529.982.247-" + [c] + "5");
    CpfValidoPenultimoDigito(c);
  }

  /** "529.982.247-25" is accepted, and changing either final digit makes
      it rejected. */
  lemma ExemploCpf()
    ensures ValidarCpf("529.982.247-25") == Ok(true)
    ensures forall c :: IsDigit(c) && c != '5' ==> ValidarCpf("529.982.247-2" + [c]).Err?
    ensures forall c :: IsDigit(c) && c != '2' ==> ValidarCpf("529.982.247-" + [c] + "5").Err?
  {
    ExemploCpfUltimoDigito('5');
    assert "529.982.247-25" == "529.982.247-2" + ['5'];
    assert ValidarCpf("529.982.247-25").Ok?;
    forall c | IsDigit(c) && c != '5'
      ensures ValidarCpf("529.982.247-2" + [c]).Err?
    {
      ExemploCpfUltimoDigito(c);
    }
    forall c | IsDigit(c) && c != '2'
      ensures ValidarCpf("529.982.247-" + [c] + "5").Err?
    {
      ExemploCpfPenultimoDigito(c);
    }
  }
}
