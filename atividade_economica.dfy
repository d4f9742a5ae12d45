/** `AtividadeEconomicaDomain`: an economic activity, identified by a
    seven-character code (no digit check) with a description. */
module AtividadeEconomica {
  import opened Outcomes
  import opened Mensagens
  import opened Texts

  const CODIGO_VAZIO := ValueError(CodigoAtividadeVazio)
  const CODIGO_TAMANHO := ValueError(CodigoAtividadeTamanho)
  const DESCRICAO_VAZIA := ValueError(DescricaoAtividadeVazia)

  /** `set_atividade_econ_codigo`: the empty code is refused first, then
      any length other than seven. */
  function CodigoCheck(codigo: string): (o: Outcome)
    ensures o.Pass? <==> |codigo| == 7
    ensures codigo == "" ==> o == Fail(CODIGO_VAZIO)
    ensures codigo != "" && |codigo| != 7 ==> o == Fail(CODIGO_TAMANHO)
  {
    if codigo == "" then Fail(CODIGO_VAZIO)
    else if |codigo| != 7 then Fail(CODIGO_TAMANHO)
    else Pass
  }

  /** `__str__`, from the three attributes. */
  function Descricao(id: Option<int>, codigo: string, descricao: string): string
  {
    "AtividadeEconomicaDomain(id=" + OptionIntToString(id) + ", codigo=" + codigo + ", descricao=" + descricao + ")"
  }

  /** The text opens with the class name and the identifier (`None` when
      absent) and closes with the description and a parenthesis. */
  lemma DescricaoLayout(id: Option<int>, codigo: string, descricao: string)
    ensures var s := Descricao(id, codigo, descricao);
            var cabeca := "AtividadeEconomicaDomain(id=" + OptionIntToString(id);
            && |s| > |cabeca| + |descricao|
            && s[..|cabeca|] == cabeca
            && s[|s| - |descricao| - 1..] == descricao + ")"
            && (id.None? ==> s[..|cabeca|] == "AtividadeEconomicaDomain(id=None")
  {
    var s := Descricao(id, codigo, descricao);
    var cabeca := "AtividadeEconomicaDomain(id=" + OptionIntToString(id);
    var meio := ", codigo=" + codigo + ", descricao=";
    assert s == cabeca + (meio + descricao + ")");
    ConcatSlices(cabeca, meio + descricao + ")");
    assert s == (cabeca + meio) + (descricao + ")");
    ConcatSlices(cabeca + meio, descricao + ")");
  }

  class AtividadeEconomicaDomain {
    var atividadeEconId: Option<int>
    var codigo: string
    var descricao: string

    /** What every constructed activity satisfies and every setter keeps. */
    ghost predicate Valid()
      reads this
    {
      |codigo| == 7 && descricao != ""
    }

    /** The object before `__init__` has run its setters. */
    constructor Vazia(id: Option<int>)
      ensures atividadeEconId == id && codigo == "" && descricao == ""
    {
      atividadeEconId, codigo, descricao := id, "", "";
    }

    /** `AtividadeEconomicaDomain(id, codigo, descricao)`: the code is
        checked before the description; the identifier is stored as given. */
    static method Create(id: Option<int>, codigo: string, descricao: string)
      returns (r: Result<AtividadeEconomicaDomain>)
      ensures var o := Then(CodigoCheck(codigo), NonEmpty(descricao, DESCRICAO_VAZIA));
              (r.Err? <==> o.Fail?) && (r.Err? ==> r.error == o.error)
      ensures r.Ok? ==> fresh(r.value) && r.value.Valid()
      ensures r.Ok? ==> r.value.atividadeEconId == id && r.value.codigo == codigo && r.value.descricao == descricao
    {
      var a := new AtividadeEconomicaDomain.Vazia(id);
      var o := a.SetCodigo(codigo);
      if o.Fail? {
        return Err(o.error);
      }
      o := a.SetDescricao(descricao);
      if o.Fail? {
        return Err(o.error);
      }
      r := Ok(a);
    }

    method SetCodigo(codigo: string) returns (o: Outcome)
      modifies this`codigo
      ensures o == CodigoCheck(codigo)
      ensures this.codigo == if o.Pass? then codigo else old(this.codigo)
      ensures old(Valid()) ==> Valid()
    {
      o := CodigoCheck(codigo);
      if o.Pass? {
        this.codigo := codigo;
      }
    }

    method SetDescricao(descricao: string) returns (o: Outcome)
      modifies this`descricao
      ensures o == NonEmpty(descricao, DESCRICAO_VAZIA)
      ensures this.descricao == if o.Pass? then descricao else old(this.descricao)
      ensures old(Valid()) ==> Valid()
    {
      o := NonEmpty(descricao, DESCRICAO_VAZIA);
      if o.Pass? {
        this.descricao := descricao;
      }
    }

    /** `__str__`. */
    function Str(): string
      reads this
    {
      Descricao(atividadeEconId, codigo, descricao)
    }
  }

  /** A bad code is reported even when the description is also empty. */
  lemma CodigoAntesDaDescricao(codigo: string)
    requires |codigo| != 7
    ensures Then(CodigoCheck(codigo), NonEmpty("", DESCRICAO_VAZIA)).Fail?
    ensures Then(CodigoCheck(codigo), NonEmpty("", DESCRICAO_VAZIA)).error != DESCRICAO_VAZIA
  {
  }
}
