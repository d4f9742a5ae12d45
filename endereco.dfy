/** `EnderecoDomain`: a postal address. The constructor starts every
    validated attribute at `None` and runs the setters in a fixed order;
    the start of validity defaults to the current time, which is a
    parameter. */
module Endereco {
  import opened Outcomes
  import opened Mensagens
  import opened Dates
  import opened Texts

  const RUA_VAZIA := ValueError(RuaVazia)
  const NUMERO_VAZIO := ValueError(NumeroVazio)
  const BAIRRO_VAZIO := ValueError(BairroVazio)
  const CIDADE_VAZIA := ValueError(CidadeVazia)
  const ESTADO_VAZIO := ValueError(EstadoVazio)
  const CEP_INVALIDO := ValueError(CepInvalido)
  const PAIS_VAZIO := ValueError(PaisVazio)
  const TIPO_INVALIDO := ValueError(TipoEnderecoInvalido)

  /** The constructor's defaults for `pais`, `tipo` and `is_active`. */
  const PAIS_PADRAO := "Brasil"
  const TIPO_PADRAO := "residencial"
  const ATIVO_PADRAO := true

  const TIPOS: seq<string> := ["residencial", "comercial", "correspondencia"]

  // ---------------------------------------------------------------------
  // The checks, as functions of the values they inspect.

  /** `set_cep`: the raw length is checked, with no digit stripping. */
  function CepCheck(cep: string): (o: Outcome)
    ensures o.Pass? <==> |cep| == 8
    ensures o.Fail? ==> o.error == CEP_INVALIDO
  {
    if |cep| != 8 then Fail(CEP_INVALIDO) else Pass
  }

  /** `set_tipo`: one of the three kinds of address. */
  function TipoCheck(tipo: string): (o: Outcome)
    ensures o.Pass? <==> tipo in TIPOS
    ensures o.Fail? ==> o.error == TIPO_INVALIDO
  {
    if tipo !in TIPOS then Fail(TIPO_INVALIDO) else Pass
  }

  /** The setter calls of `__init__`, in its order: rua, numero, bairro,
      cidade, estado, cep, pais, tipo. */
  function ConstructionOutcome(rua: string, numero: string, bairro: string, cidade: string, estado: string,
                               cep: string, pais: string, tipo: string): Outcome
  {
    Then(NonEmpty(rua, RUA_VAZIA),
    Then(NonEmpty(numero, NUMERO_VAZIO),
    Then(NonEmpty(bairro, BAIRRO_VAZIO),
    Then(NonEmpty(cidade, CIDADE_VAZIA),
    Then(NonEmpty(estado, ESTADO_VAZIO),
    Then(CepCheck(cep),
    Then(NonEmpty(pais, PAIS_VAZIO),
         TipoCheck(tipo))))))))
  }

  /** An address is built exactly when every field passes its check. */
  lemma ConstructionOutcomePasses(rua: string, numero: string, bairro: string, cidade: string, estado: string,
                                  cep: string, pais: string, tipo: string)
    ensures ConstructionOutcome(rua, numero, bairro, cidade, estado, cep, pais, tipo).Pass? <==>
            rua != "" && numero != "" && bairro != "" && cidade != "" && estado != "" &&
            |cep| == 8 && pais != "" && tipo in TIPOS
  {
  }

  /** The first failing field in the constructor's order is the one
      reported: an empty street hides every later problem, and a bad CEP
      hides a bad country or kind. */
  lemma ConstructionOrder(rua: string, numero: string, bairro: string, cidade: string, estado: string,
                          cep: string, pais: string, tipo: string)
    ensures ConstructionOutcome("", numero, bairro, cidade, estado, cep, pais, tipo) == Fail(RUA_VAZIA)
    ensures rua != "" && numero != "" && bairro != "" && cidade != "" && estado != "" && |cep| != 8 ==>
            ConstructionOutcome(rua, numero, bairro, cidade, estado, cep, pais, tipo) == Fail(CEP_INVALIDO)
    ensures rua != "" && numero != "" && bairro != "" && cidade != "" && estado != "" && |cep| == 8 &&
            pais != "" && tipo !in TIPOS ==>
            ConstructionOutcome(rua, numero, bairro, cidade, estado, cep, pais, tipo) == Fail(TIPO_INVALIDO)
  {
  }

  /** The default country and kind never make construction fail. */
  lemma PadroesAceitos(rua: string, numero: string, bairro: string, cidade: string, estado: string, cep: string)
    ensures ConstructionOutcome(rua, numero, bairro, cidade, estado, cep, PAIS_PADRAO, TIPO_PADRAO).Pass? <==>
            rua != "" && numero != "" && bairro != "" && cidade != "" && estado != "" && |cep| == 8
  {
  }

  /** The CEP is a length check on the raw text: the punctuated form of a
      valid CEP is refused, and any eight characters are accepted. */
  lemma CepSemNormalizacao()
    ensures CepCheck("01310-100") == Fail(CEP_INVALIDO)
    ensures CepCheck("01310100").Pass?
    ensures CepCheck("abcdefgh").Pass?
  {
  }

  /** `__str__`: "{rua}, {numero} - {cidade}, {estado}, {pais}". */
  function Descricao(rua: string, numero: string, cidade: string, estado: string, pais: string): string
  {
    rua + ", " + numero + " - " + cidade + ", " + estado + ", " + pais
  }

  /** The text starts with the street, followed by ", " and the number,
      ends with the country, and adds nine characters of separators. */
  lemma DescricaoLayout(rua: string, numero: string, cidade: string, estado: string, pais: string)
    ensures var s := Descricao(rua, numero, cidade, estado, pais);
            && |s| == |rua| + |numero| + |cidade| + |estado| + |pais| + 9
            && s[..|rua|] == rua
            && s[|rua|..|rua| + 2] == ", "
            && s[|rua| + 2..|rua| + 2 + |numero|] == numero
            && s[|s| - |pais|..] == pais
  {
    var s := Descricao(rua, numero, cidade, estado, pais);
    var cabeca := rua + ", " + numero;
    var resto := " - " + cidade + ", " + estado + ", " + pais;
    assert s == cabeca + resto;
    ConcatSlices(cabeca, resto);
    ConcatSlices(rua, ", " + numero);
    ConcatSlices(", ", numero);
    assert s[|rua| + 2..|rua| + 2 + |numero|] == cabeca[|rua| + 2..];
    var inicio := rua + ", " + numero + " - " + cidade + ", " + estado + ", ";
    assert s == inicio + pais;
    ConcatSlices(inicio, pais);
  }

  // ---------------------------------------------------------------------
  // The entity.

  class EnderecoDomain {
    var enderecoId: Option<int>
    var rua: string
    var numero: string
    var complemento: Option<string>
    var bairro: string
    var cidade: string
    var estado: string
    var cep: string
    var pais: string
    var tipo: string
    var pessoaFisicaId: Option<int>
    var pessoaJuridicaId: Option<int>
    var isActive: bool
    var dataInicio: Instant
    var dataFim: Option<Instant>

    /** What every constructed address satisfies and every setter keeps. */
    ghost predicate Valid()
      reads this
    {
      && rua != "" && numero != "" && bairro != "" && cidade != "" && estado != ""
      && |cep| == 8 && pais != "" && tipo in TIPOS
    }

    /** The address once `__init__` has passed all its checks. */
    constructor (rua: string, numero: string, complemento: Option<string>, bairro: string, cidade: string,
                 estado: string, cep: string, pais: string, tipo: string, pessoaFisicaId: Option<int>,
                 pessoaJuridicaId: Option<int>, isActive: bool, dataInicio: Instant,
                 dataFim: Option<Instant>, enderecoId: Option<int>)
      ensures this.enderecoId == enderecoId && this.complemento == complemento
      ensures this.rua == rua && this.numero == numero && this.bairro == bairro && this.cidade == cidade
      ensures this.estado == estado && this.cep == cep && this.pais == pais && this.tipo == tipo
      ensures this.pessoaFisicaId == pessoaFisicaId && this.pessoaJuridicaId == pessoaJuridicaId
      ensures this.isActive == isActive && this.dataInicio == dataInicio && this.dataFim == dataFim
    {
      this.enderecoId, this.complemento := enderecoId, complemento;
      this.rua, this.numero, this.bairro, this.cidade := rua, numero, bairro, cidade;
      this.estado, this.cep, this.pais, this.tipo := estado, cep, pais, tipo;
      this.pessoaFisicaId, this.pessoaJuridicaId := pessoaFisicaId, pessoaJuridicaId;
      this.isActive, this.dataInicio, this.dataFim := isActive, dataInicio, dataFim;
    }

    /** `EnderecoDomain(...)`: the setters' checks in the constructor's
        order, the first failure being the one raised; otherwise every
        argument is stored as given (the complement unchecked), and a
        missing start of validity becomes `agora`. */
    static method Create(rua: string, numero: string, complemento: Option<string>, bairro: string,
                         cidade: string, estado: string, cep: string, pais: string, tipo: string,
                         pessoaFisicaId: Option<int>, pessoaJuridicaId: Option<int>, isActive: bool,
                         dataInicio: Option<Instant>, dataFim: Option<Instant>, enderecoId: Option<int>,
                         agora: Instant)
      returns (r: Result<EnderecoDomain>)
      ensures var o := ConstructionOutcome(rua, numero, bairro, cidade, estado, cep, pais, tipo);
              (r.Err? <==> o.Fail?) && (r.Err? ==> r.error == o.error)
      ensures r.Ok? ==> fresh(r.value) && r.value.Valid()
      ensures r.Ok? ==> r.value.rua == rua && r.value.numero == numero && r.value.bairro == bairro &&
                        r.value.cidade == cidade && r.value.estado == estado && r.value.cep == cep &&
                        r.value.pais == pais && r.value.tipo == tipo
      ensures r.Ok? ==> r.value.complemento == complemento && r.value.enderecoId == enderecoId &&
                        r.value.pessoaFisicaId == pessoaFisicaId && r.value.pessoaJuridicaId == pessoaJuridicaId &&
                        r.value.isActive == isActive && r.value.dataFim == dataFim
      ensures r.Ok? ==> r.value.dataInicio == if dataInicio.Some? then dataInicio.value else agora
    {
      var o := ConstructionOutcome(rua, numero, bairro, cidade, estado, cep, pais, tipo);
      if o.Fail? {
        return Err(o.error);
      }
      ConstructionOutcomePasses(rua, numero, bairro, cidade, estado, cep, pais, tipo);
      var inicio := if dataInicio.Some? then dataInicio.value else agora;
      var e := new EnderecoDomain(rua, numero, complemento, bairro, cidade, estado, cep, pais, tipo,
                                  pessoaFisicaId, pessoaJuridicaId, isActive, inicio, dataFim, enderecoId);
      r := Ok(e);
    }

    method SetRua(rua: string) returns (o: Outcome)
      modifies this`rua
      ensures o == NonEmpty(rua, RUA_VAZIA)
      ensures this.rua == if o.Pass? then rua else old(this.rua)
      ensures old(Valid()) ==> Valid()
    {
      o := NonEmpty(rua, RUA_VAZIA);
      if o.Pass? {
        this.rua := rua;
      }
    }

    method SetNumero(numero: string) returns (o: Outcome)
      modifies this`numero
      ensures o == NonEmpty(numero, NUMERO_VAZIO)
      ensures this.numero == if o.Pass? then numero else old(this.numero)
      ensures old(Valid()) ==> Valid()
    {
      o := NonEmpty(numero, NUMERO_VAZIO);
      if o.Pass? {
        this.numero := numero;
      }
    }

    method SetBairro(bairro: string) returns (o: Outcome)
      modifies this`bairro
      ensures o == NonEmpty(bairro, BAIRRO_VAZIO)
      ensures this.bairro == if o.Pass? then bairro else old(this.bairro)
      ensures old(Valid()) ==> Valid()
    {
      o := NonEmpty(bairro, BAIRRO_VAZIO);
      if o.Pass? {
        this.bairro := bairro;
      }
    }

    method SetCidade(cidade: string) returns (o: Outcome)
      modifies this`cidade
      ensures o == NonEmpty(cidade, CIDADE_VAZIA)
      ensures this.cidade == if o.Pass? then cidade else old(this.cidade)
      ensures old(Valid()) ==> Valid()
    {
      o := NonEmpty(cidade, CIDADE_VAZIA);
      if o.Pass? {
        this.cidade := cidade;
      }
    }

    method SetEstado(estado: string) returns (o: Outcome)
      modifies this`estado
      ensures o == NonEmpty(estado, ESTADO_VAZIO)
      ensures this.estado == if o.Pass? then estado else old(this.estado)
      ensures old(Valid()) ==> Valid()
    {
      o := NonEmpty(estado, ESTADO_VAZIO);
      if o.Pass? {
        this.estado := estado;
      }
    }

    method SetCep(cep: string) returns (o: Outcome)
      modifies this`cep
      ensures o == CepCheck(cep)
      ensures this.cep == if o.Pass? then cep else old(this.cep)
      ensures old(Valid()) ==> Valid()
    {
      o := CepCheck(cep);
      if o.Pass? {
        this.cep := cep;
      }
    }

    method SetPais(pais: string) returns (o: Outcome)
      modifies this`pais
      ensures o == NonEmpty(pais, PAIS_VAZIO)
      ensures this.pais == if o.Pass? then pais else old(this.pais)
      ensures old(Valid()) ==> Valid()
    {
      o := NonEmpty(pais, PAIS_VAZIO);
      if o.Pass? {
        this.pais := pais;
      }
    }

    method SetTipo(tipo: string) returns (o: Outcome)
      modifies this`tipo
      ensures o == TipoCheck(tipo)
      ensures this.tipo == if o.Pass? then tipo else old(this.tipo)
      ensures old(Valid()) ==> Valid()
    {
      o := TipoCheck(tipo);
      if o.Pass? {
        this.tipo := tipo;
      }
    }

    /** `__str__`. */
    function Str(): string
      reads this
    {
      Descricao(rua, numero, cidade, estado, pais)
    }
  }
}
