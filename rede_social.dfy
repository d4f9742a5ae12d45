/** `RedeSocialDomain`: a social network, a name and an icon, both
    required. */
module RedeSocial {
  import opened Outcomes
  import opened Mensagens
  import opened Texts

  const NOME_VAZIO := ValueError(NomeRedeSocialVazio)
  const ICONE_VAZIO := ValueError(IconeRedeSocialVazio)

  const PREFIXO := "Rede Social: "
  const SEPARADOR := " - Ícone: "

  /** `__str__`: "Rede Social: {nome} - Ícone: {icone}". */
  function Descricao(nome: string, icone: string): string
  {
    PREFIXO + nome + SEPARADOR + icone
  }

  /** The text shows the label, then the name, and ends with the icon. */
  lemma DescricaoLayout(nome: string, icone: string)
    ensures var s := Descricao(nome, icone);
            && |s| == |PREFIXO| + |nome| + |SEPARADOR| + |icone|
            && s[..|PREFIXO|] == PREFIXO
            && s[|PREFIXO|..|PREFIXO| + |nome|] == nome
            && s[|s| - |icone|..] == icone
  {
    RotuloLayout(PREFIXO, nome, SEPARADOR, icone);
  }

  class RedeSocialDomain {
    var redeSocialId: Option<int>
    var nome: string
    var icone: string

    /** What every constructed network satisfies and every setter keeps. */
    ghost predicate Valid()
      reads this
    {
      nome != "" && icone != ""
    }

    /** The object before `__init__` has run its setters. */
    constructor Vazia(id: Option<int>)
      ensures redeSocialId == id && nome == "" && icone == ""
    {
      redeSocialId, nome, icone := id, "", "";
    }

    /** `RedeSocialDomain(nome, icone, rede_social_id)`: the name is
        checked before the icon; the identifier is stored as given. */
    static method Create(nome: string, icone: string, id: Option<int>) returns (r: Result<RedeSocialDomain>)
      ensures var o := Then(NonEmpty(nome, NOME_VAZIO), NonEmpty(icone, ICONE_VAZIO));
              (r.Err? <==> o.Fail?) && (r.Err? ==> r.error == o.error)
      ensures r.Ok? ==> fresh(r.value) && r.value.Valid()
      ensures r.Ok? ==> r.value.redeSocialId == id && r.value.nome == nome && r.value.icone == icone
    {
      var s := new RedeSocialDomain.Vazia(id);
      var o := s.SetNome(nome);
      if o.Fail? {
        return Err(o.error);
      }
      o := s.SetIcone(icone);
      if o.Fail? {
        return Err(o.error);
      }
      r := Ok(s);
    }

    method SetNome(nome: string) returns (o: Outcome)
      modifies this`nome
      ensures o == NonEmpty(nome, NOME_VAZIO)
      ensures this.nome == if o.Pass? then nome else old(this.nome)
      ensures old(Valid()) ==> Valid()
    {
      o := NonEmpty(nome, NOME_VAZIO);
      if o.Pass? {
        this.nome := nome;
      }
    }

    method SetIcone(icone: string) returns (o: Outcome)
      modifies this`icone
      ensures o == NonEmpty(icone, ICONE_VAZIO)
      ensures this.icone == if o.Pass? then icone else old(this.icone)
      ensures old(Valid()) ==> Valid()
    {
      o := NonEmpty(icone, ICONE_VAZIO);
      if o.Pass? {
        this.icone := icone;
      }
    }

    /** `__str__`. */
    function Str(): string
      reads this
    {
      Descricao(nome, icone)
    }
  }
}
