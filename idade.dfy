/** `calcular_idade`: an age in whole years and remaining months, from the
    year and the month alone. Today's date is a parameter. */
module Idade {
  import opened Outcomes
  import opened Dates

  /** The returned dictionary `{"anos": ..., "meses": ...}`. */
  datatype IdadeAnosMeses = IdadeAnosMeses(anos: Option<int>, meses: Option<int>)

  /** The months from the birth month to the current month, with the day
      of the month not taken into account. */
  function MesesCorridos(nascimento: Date, hoje: Date): int {
    (hoje.year - nascimento.year) * 12 + (hoje.month - nascimento.month)
  }

  /** `calcular_idade(data_nascimento)` on the day `hoje`. A `date` is
      always truthy, so only `None` takes the early return. */
  function CalcularIdade(nascimento: Option<Date>, hoje: Date): (r: IdadeAnosMeses)
    ensures nascimento.None? <==> r == IdadeAnosMeses(None, None)
    ensures nascimento.Some? ==> r.anos.Some? && r.meses.Some?
    ensures nascimento.Some? ==> 0 <= r.meses.value <= 11
    ensures nascimento.Some? ==> r.anos.value * 12 + r.meses.value == MesesCorridos(nascimento.value, hoje)
    ensures nascimento.Some? && hoje.month >= nascimento.value.month ==>
              r.anos.value == hoje.year - nascimento.value.year
  {
    if nascimento.None? then IdadeAnosMeses(None, None)
    else
      var anos := hoje.year - nascimento.value.year;
      var meses := hoje.month - nascimento.value.month;
      if meses < 0 then IdadeAnosMeses(Some(anos - 1), Some(meses + 12))
      else IdadeAnosMeses(Some(anos), Some(meses))
  }

  /** The years and months are the quotient and the remainder of the
      months elapsed, divided by twelve. */
  lemma CalcularIdadeDivMod(nascimento: Date, hoje: Date)
    ensures CalcularIdade(Some(nascimento), hoje).anos == Some(MesesCorridos(nascimento, hoje) / 12)
    ensures CalcularIdade(Some(nascimento), hoje).meses == Some(MesesCorridos(nascimento, hoje) % 12)
  {
    var r := CalcularIdade(Some(nascimento), hoje);
    DivModUnique(MesesCorridos(nascimento, hoje), r.anos.value, r.meses.value);
  }

  /** Euclidean division by twelve has one quotient and one remainder. */
  lemma DivModUnique(m: int, q: int, r: int)
    requires 0 <= r < 12 && q * 12 + r == m
    ensures q == m / 12 && r == m % 12
  {
  }

  /** The day of the month plays no part: two birth dates in the same
      month give the same age. */
  lemma CalcularIdadeIgnoresDay(a: Date, b: Date, hoje: Date)
    requires a.year == b.year && a.month == b.month
    ensures CalcularIdade(Some(a), hoje) == CalcularIdade(Some(b), hoje)
  {
  }
}
