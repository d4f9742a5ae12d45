/** `validar_inscricao_estadual`: a state registration (Inscrição
    Estadual) is checked by its length only, 8 to 14 digits. */
module ValidaIe {
  import opened Outcomes
  import opened Mensagens
  import opened Digits

  const IE_INVALIDA := ValidationError(InscricaoEstadualInvalida)

  /** `validar_inscricao_estadual(ie)`: `Ok(true)` or the raised `ValidationError`. */
  function ValidarInscricaoEstadual(ie: string): (r: Result<bool>)
    ensures r.Ok? <==> 8 <= |OnlyDigits(ie)| <= 14
    ensures r.Ok? ==> r.value
    ensures r.Err? ==> r.error == IE_INVALIDA
  {
    var ds := OnlyDigits(ie);
    if !(8 <= |ds| <= 14) then Err(IE_INVALIDA) else Ok(true)
  }

  /** A string and its digits get the same verdict. */
  lemma ValidarInscricaoEstadualIgnoresPunctuation(ie: string)
    ensures ValidarInscricaoEstadual(ie) == ValidarInscricaoEstadual(OnlyDigits(ie))
  {
    OnlyDigitsIdempotent(ie);
  }

  /** Inserting a separator anywhere does not change the verdict. */
  lemma ValidarInscricaoEstadualIgnoresSeparator(a: string, c: char, b: string)
    requires !IsDigit(c)
    ensures ValidarInscricaoEstadual(a + [c] + b) == ValidarInscricaoEstadual(a + b)
  {
    OnlyDigitsIgnoresNonDigit(a, c, b);
  }

  /** A string of digits is accepted exactly when it has 8 to 14 of them. */
  lemma ValidarInscricaoEstadualOfDigits(ds: string)
    requires AllDigits(ds)
    ensures ValidarInscricaoEstadual(ds).Ok? <==> 8 <= |ds| <= 14
  {
    OnlyDigitsOfDigits(ds);
  }
}
