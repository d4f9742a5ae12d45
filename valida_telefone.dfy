/** `validar_telefone`: a Brazilian telephone number has ten (landline) or
    eleven (mobile) digits once spaces, dashes and parentheses are removed. */
module ValidaTelefone {
  import opened Outcomes
  import opened Mensagens
  import opened Digits

  const TELEFONE_INVALIDO := ValidationError(TelefoneInvalido)

  /** `validar_telefone(telefone)`: `Ok(true)` or the raised `ValidationError`. */
  function ValidarTelefone(telefone: string): (r: Result<bool>)
    ensures r.Ok? <==> 10 <= |OnlyDigits(telefone)| <= 11
    ensures r.Ok? ==> r.value
    ensures r.Err? ==> r.error == TELEFONE_INVALIDO
  {
    var ds := OnlyDigits(telefone);
    if |ds| < 10 || |ds| > 11 then Err(TELEFONE_INVALIDO) else Ok(true)
  }

  /** A string and its digits get the same verdict. */
  lemma ValidarTelefoneIgnoresPunctuation(telefone: string)
    ensures ValidarTelefone(telefone) == ValidarTelefone(OnlyDigits(telefone))
  {
    OnlyDigitsIdempotent(telefone);
  }

  /** Inserting a separator anywhere does not change the verdict. */
  lemma ValidarTelefoneIgnoresSeparator(a: string, c: char, b: string)
    requires !IsDigit(c)
    ensures ValidarTelefone(a + [c] + b) == ValidarTelefone(a + b)
  {
    OnlyDigitsIgnoresNonDigit(a, c, b);
  }

  /** A string of digits is accepted exactly when it has 10 or 11 of them. */
  lemma ValidarTelefoneOfDigits(ds: string)
    requires AllDigits(ds)
    ensures ValidarTelefone(ds).Ok? <==> |ds| == 10 || |ds| == 11
  {
    OnlyDigitsOfDigits(ds);
  }

  /** A mobile number with its area code, eleven digits, is accepted. */
  lemma ExemploTelefone()
    ensures ValidarTelefone("11987654321") == Ok(true)
  {
    var t := "11987654321";
    assert AllDigits(t) by {
      forall i | 0 <= i < |t| ensures IsDigit(t[i]) { }
    }
    ValidarTelefoneOfDigits(t);
  }
}
