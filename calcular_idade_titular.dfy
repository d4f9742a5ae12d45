/** `CalcularIdadePessoaFisicaService.calcular_idade`: writes the age of a
    natural person, in years and months, onto the object itself. Today's
    date is a parameter. */
module CalcularIdadeTitular {
  import opened Outcomes
  import opened Dates
  import Idade
  import opened PessoaFisica

  /** The service returns the object it was given; with no birth date it
      leaves the age attributes alone, and otherwise stores the same years
      and months as `calcular_idade`. */
  method CalcularIdade(pessoaFisica: PessoaFisicaDomain, hoje: Date) returns (r: PessoaFisicaDomain)
    modifies pessoaFisica`idadeAnos, pessoaFisica`idadeMeses
    ensures r == pessoaFisica
    ensures pessoaFisica.dataNascimento.None? ==>
              pessoaFisica.idadeAnos == old(pessoaFisica.idadeAnos) &&
              pessoaFisica.idadeMeses == old(pessoaFisica.idadeMeses)
    ensures pessoaFisica.dataNascimento.Some? ==>
              var idade := Idade.CalcularIdade(pessoaFisica.dataNascimento, hoje);
              pessoaFisica.idadeAnos == idade.anos && pessoaFisica.idadeMeses == idade.meses
    ensures pessoaFisica.dataNascimento.Some? ==>
              && pessoaFisica.idadeAnos.Some? && pessoaFisica.idadeMeses.Some?
              && 0 <= pessoaFisica.idadeMeses.value <= 11
              && pessoaFisica.idadeAnos.value * 12 + pessoaFisica.idadeMeses.value ==
                 Idade.MesesCorridos(pessoaFisica.dataNascimento.value, hoje)
  {
    if pessoaFisica.dataNascimento.Some? {
      var nascimento := pessoaFisica.dataNascimento.value;
      var idadeAnos := hoje.year - nascimento.year;
      var idadeMeses := hoje.month - nascimento.month;
      if idadeMeses < 0 {
        idadeAnos := idadeAnos - 1;
        idadeMeses := idadeMeses + 12;
      }
      pessoaFisica.idadeAnos := Some(idadeAnos);
      pessoaFisica.idadeMeses := Some(idadeMeses);
    }
    r := pessoaFisica;
  }
}
