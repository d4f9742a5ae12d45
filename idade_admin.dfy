/** The two age columns of the `PessoaFisica` admin page,
    `idade_em_anos` and `idade_em_meses`. Unlike `calcular_idade`, the
    years take the day of the month into account and the months do not
    wrap at twelve. Today's date is a parameter. */
module IdadeAdmin {
  import opened Outcomes
  import opened Dates
  import Idade

  /** Python's tuple comparison `(hoje.month, hoje.day) < (n.month, n.day)`:
      this year's birthday is still to come. */
  predicate AntesDoAniversario(nascimento: Date, hoje: Date) {
    hoje.month < nascimento.month || (hoje.month == nascimento.month && hoje.day < nascimento.day)
  }

  /** `idade_em_anos`: the year difference, less the boolean of the tuple
      comparison (a `bool` counts as 0 or 1 in Python arithmetic). */
  function IdadeEmAnos(nascimento: Option<Date>, hoje: Date): (r: Option<int>)
    ensures nascimento.None? <==> r.None?
    ensures r.Some? ==> (r.value == hoje.year - nascimento.value.year - 1 <==>
                         AntesDoAniversario(nascimento.value, hoje))
    ensures r.Some? && !AntesDoAniversario(nascimento.value, hoje) ==>
              r.value == hoje.year - nascimento.value.year
    ensures r.Some? && hoje.month == nascimento.value.month && hoje.day == nascimento.value.day ==>
              r.value == hoje.year - nascimento.value.year
  {
    if nascimento.None? then None
    else Some(hoje.year - nascimento.value.year - (if AntesDoAniversario(nascimento.value, hoje) then 1 else 0))
  }

  /** `idade_em_meses`: the months elapsed between the two calendar
      months, with no correction for the day. */
  function IdadeEmMeses(nascimento: Option<Date>, hoje: Date): (r: Option<int>)
    ensures nascimento.None? <==> r.None?
    ensures r.Some? ==> r.value == Idade.MesesCorridos(nascimento.value, hoje)
  {
    if nascimento.None? then None
    else Some((hoje.year - nascimento.value.year) * 12 + hoje.month - nascimento.value.month)
  }

  /** The years are the months divided by twelve, except in the birth
      month before the birthday, where they are one fewer. */
  lemma IdadeEmAnosFromMeses(nascimento: Date, hoje: Date)
    ensures var meses := IdadeEmMeses(Some(nascimento), hoje).value;
            IdadeEmAnos(Some(nascimento), hoje).value ==
              meses / 12 - (if hoje.month == nascimento.month && hoje.day < nascimento.day then 1 else 0)
  {
    var y := hoje.year - nascimento.year;
    var meses := IdadeEmMeses(Some(nascimento), hoje).value;
    if hoje.month < nascimento.month {
      Idade.DivModUnique(meses, y - 1, 12 + hoje.month - nascimento.month);
    } else {
      Idade.DivModUnique(meses, y, hoje.month - nascimento.month);
    }
  }

  /** Against `calcular_idade`: the same months elapsed, split into years
      and months there; the admin years agree with its years except in the
      birth month before the birthday, where they are one fewer. */
  lemma AdminAgreesWithCalcularIdade(nascimento: Date, hoje: Date)
    ensures var r := Idade.CalcularIdade(Some(nascimento), hoje);
            var meses := IdadeEmMeses(Some(nascimento), hoje).value;
            r.anos.value * 12 + r.meses.value == meses &&
            IdadeEmAnos(Some(nascimento), hoje).value ==
              r.anos.value - (if hoje.month == nascimento.month && hoje.day < nascimento.day then 1 else 0)
  {
    Idade.CalcularIdadeDivMod(nascimento, hoje);
    IdadeEmAnosFromMeses(nascimento, hoje);
  }
}
