/** `UsuarioTipoDomain`: a kind of user (administrator, editor, ...), a
    required name and an optional description. */
module UsuarioTipo {
  import opened Outcomes
  import opened Mensagens
  import opened Texts

  const NOME_VAZIO := ValueError(NomeUsuarioTipoVazio)

  const PREFIXO := "Tipo de Usuário: "
  const SEPARADOR := " - Descrição: "
  const SEM_DESCRICAO := "Sem descrição"

  /** Python's `descricao or 'Sem descrição'`: `None` and the empty string
      are falsy. */
  function DescricaoOuPadrao(descricao: Option<string>): (r: string)
    ensures descricao.None? || descricao.value == "" ==> r == SEM_DESCRICAO
    ensures descricao.Some? && descricao.value != "" ==> r == descricao.value
  {
    if descricao.Some? && descricao.value != "" then descricao.value else SEM_DESCRICAO
  }

  /** `__str__`: "Tipo de Usuário: {nome} - Descrição: {descricao or 'Sem descrição'}". */
  function Descricao(nome: string, descricao: Option<string>): string
  {
    PREFIXO + nome + SEPARADOR + DescricaoOuPadrao(descricao)
  }

  /** The text shows the label and the name, and ends with the description
      or, when there is none (or it is empty), with "Sem descrição". */
  lemma DescricaoLayout(nome: string, descricao: Option<string>)
    ensures var s := Descricao(nome, descricao);
            && s[..|PREFIXO|] == PREFIXO
            && s[|PREFIXO|..|PREFIXO| + |nome|] == nome
            && (descricao.None? || descricao.value == "" ==> s[|s| - |SEM_DESCRICAO|..] == SEM_DESCRICAO)
            && (descricao.Some? && descricao.value != "" ==>
                  s[|s| - |descricao.value|..] == descricao.value)
  {
    RotuloLayout(PREFIXO, nome, SEPARADOR, DescricaoOuPadrao(descricao));
  }

  class UsuarioTipoDomain {
    var usuarioTipoId: Option<int>
    var nome: string
    var descricao: Option<string>

    /** What every constructed kind satisfies and the setter keeps. */
    ghost predicate Valid()
      reads this
    {
      nome != ""
    }

    /** The object before `__init__` has run its setter. */
    constructor Vazia(id: Option<int>)
      ensures usuarioTipoId == id && nome == "" && descricao == None
    {
      usuarioTipoId, nome, descricao := id, "", None;
    }

    /** `UsuarioTipoDomain(usuario_tipo_id, nome, descricao)`: only the
        name is checked; the identifier and description are stored as given. */
    static method Create(id: Option<int>, nome: string, descricao: Option<string>)
      returns (r: Result<UsuarioTipoDomain>)
      ensures r.Err? <==> nome == ""
      ensures r.Err? ==> r.error == NOME_VAZIO
      ensures r.Ok? ==> fresh(r.value) && r.value.Valid()
      ensures r.Ok? ==> r.value.usuarioTipoId == id && r.value.nome == nome && r.value.descricao == descricao
    {
      var u := new UsuarioTipoDomain.Vazia(id);
      var o := u.SetNome(nome);
      if o.Fail? {
        return Err(o.error);
      }
      u.descricao := descricao;
      r := Ok(u);
    }

    method SetNome(nome: string) returns (o: Outcome)
      modifies this`nome
      ensures o == NonEmpty(nome, NOME_VAZIO)
      ensures this.nome == if o.Pass? then nome else old(this.nome)
      ensures old(Valid()) ==> Valid()
    {
      o := NonEmpty(nome, NOME_VAZIO);
      if o.Pass? {
        this.nome := nome;
      }
    }

    /** `__str__`. */
    function Str(): string
      reads this
    {
      Descricao(nome, descricao)
    }
  }
}
