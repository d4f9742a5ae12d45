/** `ProdutoDomain`: a product. The constructor stores its arguments
    without any check; only the setters validate. */
module Produto {
  import opened Outcomes
  import opened Mensagens
  import opened Texts

  const NOME_VAZIO := ValueError(NomeProdutoVazio)
  const TIPO_AUSENTE := ValueError(TipoProdutoAusente)

  /** A `uuid.UUID`, by its canonical text. A `UUID` object is always
      truthy, so only a missing one (`None`) is refused by a check. */
  datatype Uuid = Uuid(texto: string)

  /** `set_tipo_produto_id`: `if not tipo_produto_id` refuses only `None`. */
  function TipoCheck(tipoProdutoId: Option<Uuid>): (o: Outcome)
    ensures o.Pass? <==> tipoProdutoId.Some?
    ensures o.Fail? ==> o.error == TIPO_AUSENTE
  {
    if tipoProdutoId.None? then Fail(TIPO_AUSENTE) else Pass
  }

  const PREFIXO := "Produto: "
  const SEPARADOR := " (ID: "

  /** `__str__`: "Produto: {nome} (ID: {id})". */
  function Descricao(nome: string, id: Uuid): string
  {
    PREFIXO + nome + SEPARADOR + (id.texto + ")")
  }

  /** The text shows the label and the name, and ends with the
      identifier and a parenthesis. */
  lemma DescricaoLayout(nome: string, id: Uuid)
    ensures var s := Descricao(nome, id);
            && s[..|PREFIXO|] == PREFIXO
            && s[|PREFIXO|..|PREFIXO| + |nome|] == nome
            && s[|s| - |id.texto| - 1..] == id.texto + ")"
  {
    RotuloLayout(PREFIXO, nome, SEPARADOR, id.texto + ")");
  }

  class ProdutoDomain {
    var produtoId: Uuid
    var nome: string
    var descricao: Option<string>
    var tipoProdutoId: Option<Uuid>

    /** `ProdutoDomain(produto_id, nome, tipo_produto_id, descricao)`:
        every argument is stored as given, an empty name or a missing
        type included. */
    constructor (produtoId: Uuid, nome: string, tipoProdutoId: Option<Uuid>, descricao: Option<string>)
      ensures this.produtoId == produtoId && this.nome == nome
      ensures this.tipoProdutoId == tipoProdutoId && this.descricao == descricao
    {
      this.produtoId, this.nome := produtoId, nome;
      this.descricao, this.tipoProdutoId := descricao, tipoProdutoId;
    }

    method SetNome(nome: string) returns (o: Outcome)
      modifies this`nome
      ensures o == NonEmpty(nome, NOME_VAZIO)
      ensures this.nome == if o.Pass? then nome else old(this.nome)
    {
      o := NonEmpty(nome, NOME_VAZIO);
      if o.Pass? {
        this.nome := nome;
      }
    }

    /** Any description, `None` included, is accepted. */
    method SetDescricao(descricao: Option<string>)
      modifies this`descricao
      ensures this.descricao == descricao
    {
      this.descricao := descricao;
    }

    method SetTipoProdutoId(tipoProdutoId: Option<Uuid>) returns (o: Outcome)
      modifies this`tipoProdutoId
      ensures o == TipoCheck(tipoProdutoId)
      ensures this.tipoProdutoId == if o.Pass? then tipoProdutoId else old(this.tipoProdutoId)
    {
      o := TipoCheck(tipoProdutoId);
      if o.Pass? {
        this.tipoProdutoId := tipoProdutoId;
      }
    }

    /** `__str__`. */
    function Str(): string
      reads this
    {
      Descricao(nome, produtoId)
    }
  }
}
