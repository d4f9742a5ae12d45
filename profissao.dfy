/** `ProfissaoDomain`: a profession, a code and a description, both
    required. */
module Profissao {
  import opened Outcomes
  import opened Mensagens
  import opened Texts

  const CODIGO_VAZIO := ValueError(CodigoProfissaoVazio)
  const DESCRICAO_VAZIA := ValueError(DescricaoProfissaoVazia)

  const PREFIXO := "Profissão: "
  const SEPARADOR := " - Descrição: "

  /** `__str__`: "Profissão: {codigo} - Descrição: {descricao}". */
  function Descricao(codigo: string, descricao: string): string
  {
    PREFIXO + codigo + SEPARADOR + descricao
  }

  /** The text shows the label, then the code, and ends with the description. */
  lemma DescricaoLayout(codigo: string, descricao: string)
    ensures var s := Descricao(codigo, descricao);
            && |s| == |PREFIXO| + |codigo| + |SEPARADOR| + |descricao|
            && s[..|PREFIXO|] == PREFIXO
            && s[|PREFIXO|..|PREFIXO| + |codigo|] == codigo
            && s[|s| - |descricao|..] == descricao
  {
    RotuloLayout(PREFIXO, codigo, SEPARADOR, descricao);
  }

  class ProfissaoDomain {
    var profissaoId: Option<int>
    var codigo: string
    var descricao: string

    /** What every constructed profession satisfies and every setter keeps. */
    ghost predicate Valid()
      reads this
    {
      codigo != "" && descricao != ""
    }

    /** The object before `__init__` has run its setters. */
    constructor Vazia(id: Option<int>)
      ensures profissaoId == id && codigo == "" && descricao == ""
    {
      profissaoId, codigo, descricao := id, "", "";
    }

    /** `ProfissaoDomain(codigo, descricao, profissao_id)`: the code is
        checked before the description; the identifier is stored as given. */
    static method Create(codigo: string, descricao: string, id: Option<int>) returns (r: Result<ProfissaoDomain>)
      ensures var o := Then(NonEmpty(codigo, CODIGO_VAZIO), NonEmpty(descricao, DESCRICAO_VAZIA));
              (r.Err? <==> o.Fail?) && (r.Err? ==> r.error == o.error)
      ensures r.Ok? ==> fresh(r.value) && r.value.Valid()
      ensures r.Ok? ==> r.value.profissaoId == id && r.value.codigo == codigo && r.value.descricao == descricao
    {
      var p := new ProfissaoDomain.Vazia(id);
      var o := p.SetCodigo(codigo);
      if o.Fail? {
        return Err(o.error);
      }
      o := p.SetDescricao(descricao);
      if o.Fail? {
        return Err(o.error);
      }
      r := Ok(p);
    }

    method SetCodigo(codigo: string) returns (o: Outcome)
      modifies this`codigo
      ensures o == NonEmpty(codigo, CODIGO_VAZIO)
      ensures this.codigo == if o.Pass? then codigo else old(this.codigo)
      ensures old(Valid()) ==> Valid()
    {
      o := NonEmpty(codigo, CODIGO_VAZIO);
      if o.Pass? {
        this.codigo := codigo;
      }
    }

    method SetDescricao(descricao: string) returns (o: Outcome)
      modifies this`descricao
      ensures o == NonEmpty(descricao, DESCRICAO_VAZIA)
      ensures this.descricao == if o.Pass? then descricao else old(this.descricao)
      ensures old(Valid()) ==> Valid()
    {
      o := NonEmpty(descricao, DESCRICAO_VAZIA);
      if o.Pass? {
        this.descricao := descricao;
      }
    }

    /** `__str__`. */
    function Str(): string
      reads this
    {
      Descricao(codigo, descricao)
    }
  }
}
