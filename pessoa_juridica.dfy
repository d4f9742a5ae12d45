/** `PessoaJuridicaDomain`: a company account. Its validating setters, the
    rule that it has one or two administrators, the de-duplicating lists of
    identifiers it keeps, and its closed set of situations. */
module PessoaJuridica {
  import opened Outcomes
  import opened Mensagens
  import opened IdLists
  import opened Texts
  import ValidaCnpj

  const RAZAO_SOCIAL_VAZIA := InvalidInputException(RazaoSocialVazia)
  const NOME_FANTASIA_VAZIO := InvalidInputException(NomeFantasiaVazio)
  const CNPJ_INVALIDO := InvalidInputException(CnpjInformadoInvalido)
  const INICIADOR_AUSENTE := InvalidInputException(IniciadorAusente)
  const MINIMO_ADMINISTRADORES := BusinessRuleViolationException(MinimoAdministradores)
  const MAXIMO_ADMINISTRADORES := BusinessRuleViolationException(MaximoAdministradores)
  const ADICIONAR_ALEM_DO_MAXIMO :=
    BusinessRuleViolationException(AdicionarAlemDoMaximo)
  const SITUACAO_INVALIDA := ValidationException(SituacaoInvalida)

  /** The constructor's default situation. */
  const SITUACAO_INICIAL := "criada"
  const SITUACOES: seq<string> := ["criada", "ativada", "inativada", "suspensa"]

  // ---------------------------------------------------------------------
  // The checks, as functions of the values they inspect.

  /** `set_cnpj`: `validar_cnpj` returns `True` or raises; its own
      `ValidationError` is what a caller sees, and the branch raising
      `InvalidInputException` is never taken. */
  function CnpjCheck(cnpj: string): (o: Outcome)
    ensures o.Pass? <==> ValidaCnpj.ValidarCnpj(cnpj).Ok?
    ensures o.Fail? ==> o.error == ValidaCnpj.ValidarCnpj(cnpj).error
    ensures o.Fail? ==> o.error.ValidationError?
  {
    match ValidaCnpj.ValidarCnpj(cnpj)
    case Err(e) => Fail(e)
    case Ok(valido) => if valido then Pass else Fail(CNPJ_INVALIDO)
  }

  /** `set_iniciador_id`: a falsy identifier (`None` or 0) is refused. */
  function IniciadorCheck(iniciador: Option<int>): (o: Outcome)
    ensures o.Pass? <==> iniciador.Some? && iniciador.value != 0
    ensures o.Fail? ==> o.error == INICIADOR_AUSENTE
  {
    if iniciador.None? || iniciador.value == 0 then Fail(INICIADOR_AUSENTE) else Pass
  }

  /** `set_situacao`. */
  function SituacaoCheck(situacao: string): (o: Outcome)
    ensures o.Pass? <==> situacao in SITUACOES
    ensures o.Fail? ==> o.error == SITUACAO_INVALIDA
  {
    if situacao !in SITUACOES then Fail(SITUACAO_INVALIDA) else Pass
  }

  /** `validar_administradores`: the lower bound is checked first. */
  function AdministradoresCheck(administradores: seq<int>): (o: Outcome)
    ensures o.Pass? <==> 1 <= |administradores| <= 2
    ensures |administradores| < 1 ==> o == Fail(MINIMO_ADMINISTRADORES)
    ensures |administradores| > 2 ==> o == Fail(MAXIMO_ADMINISTRADORES)
  {
    if |administradores| < 1 then Fail(MINIMO_ADMINISTRADORES)
    else if |administradores| > 2 then Fail(MAXIMO_ADMINISTRADORES)
    else Pass
  }

  /** What `__init__` raises, in the order it calls the checks: razão
      social, nome fantasia, CNPJ, situação, then the administrators. */
  function ConstructionOutcome(razaoSocial: string, nomeFantasia: string, cnpj: string,
                               administradores: seq<int>, situacao: string): Outcome
  {
    Then(NonEmpty(razaoSocial, RAZAO_SOCIAL_VAZIA),
    Then(NonEmpty(nomeFantasia, NOME_FANTASIA_VAZIO),
    Then(CnpjCheck(cnpj),
    Then(SituacaoCheck(situacao),
         AdministradoresCheck(administradores)))))
  }

  /** Construction succeeds exactly when every field check passes. */
  lemma ConstructionOutcomePasses(razaoSocial: string, nomeFantasia: string, cnpj: string,
                                  administradores: seq<int>, situacao: string)
    ensures ConstructionOutcome(razaoSocial, nomeFantasia, cnpj, administradores, situacao).Pass? <==>
            razaoSocial != "" && nomeFantasia != "" && ValidaCnpj.ValidarCnpj(cnpj).Ok? &&
            situacao in SITUACOES && 1 <= |administradores| <= 2
  {
  }

  /** Without an administrator list (`administradores or []`), a company
      whose other fields are valid cannot be built: the minimum rule fires. */
  lemma ConstructionWithoutAdministradores(razaoSocial: string, nomeFantasia: string, cnpj: string,
                                           situacao: string)
    requires razaoSocial != "" && nomeFantasia != ""
    requires ValidaCnpj.ValidarCnpj(cnpj).Ok? && situacao in SITUACOES
    ensures ConstructionOutcome(razaoSocial, nomeFantasia, cnpj, OrEmpty(None), situacao) ==
            Fail(MINIMO_ADMINISTRADORES)
  {
  }

  /** An empty razão social is reported before anything else, even an
      invalid CNPJ or a missing administrator list. */
  lemma ConstructionReportsRazaoSocialFirst(nomeFantasia: string, cnpj: string,
                                            administradores: seq<int>, situacao: string)
    ensures ConstructionOutcome("", nomeFantasia, cnpj, administradores, situacao) == Fail(RAZAO_SOCIAL_VAZIA)
  {
  }

  // ---------------------------------------------------------------------
  // The administrator rules as functions of the list.

  /** `adicionar_administrador`: refused at two entries (even for an
      identifier already present), otherwise appended only if absent. */
  function AdicionarAdministrador(administradores: seq<int>, id: int): (r: Result<seq<int>>)
    ensures r.Err? <==> |administradores| >= 2
    ensures r.Err? ==> r.error == ADICIONAR_ALEM_DO_MAXIMO
    ensures r.Ok? ==> id in r.value && |r.value| <= 2
    ensures r.Ok? ==> forall y :: y in r.value <==> y in administradores || y == id
    ensures r.Ok? && id in administradores ==> r.value == administradores
    ensures r.Ok? && id !in administradores ==> r.value == administradores + [id]
  {
    if |administradores| >= 2 then Err(ADICIONAR_ALEM_DO_MAXIMO) else Ok(AddUnique(administradores, id))
  }

  /** `remover_administrador`: refused at one entry or fewer (even for an
      absent identifier), otherwise removes the identifier if present. */
  function RemoverAdministrador(administradores: seq<int>, id: int): (r: Result<seq<int>>)
    ensures r.Err? <==> |administradores| <= 1
    ensures r.Err? ==> r.error == MINIMO_ADMINISTRADORES
    ensures r.Ok? ==> |r.value| >= 1
    ensures r.Ok? && id !in administradores ==> r.value == administradores
    ensures r.Ok? ==> multiset(r.value) == multiset(administradores) - multiset{id}
  {
    if |administradores| <= 1 then Err(MINIMO_ADMINISTRADORES) else Ok(RemoveFirst(administradores, id))
  }

  /** A call on the administrator list. */
  datatype OperacaoAdministrador = Adicionar(id: int) | Remover(id: int)

  /** One call; a call that raises leaves the list as it was. */
  function Aplicar(administradores: seq<int>, op: OperacaoAdministrador): seq<int> {
    var r := match op
      case Adicionar(id) => AdicionarAdministrador(administradores, id)
      case Remover(id) => RemoverAdministrador(administradores, id);
    if r.Ok? then r.value else administradores
  }

  /** A sequence of calls, each seeing the list the previous one left. */
  function AplicarTodas(administradores: seq<int>, ops: seq<OperacaoAdministrador>): seq<int>
    decreases |ops|
  {
    if ops == [] then administradores else AplicarTodas(Aplicar(administradores, ops[0]), ops[1..])
  }

  /** From one or two administrators, any sequence of additions and
      removals keeps one or two, and keeps the list free of duplicates. */
  lemma {:induction false} AplicarTodasKeepsBounds(administradores: seq<int>, ops: seq<OperacaoAdministrador>)
    requires 1 <= |administradores| <= 2
    ensures 1 <= |AplicarTodas(administradores, ops)| <= 2
    ensures NoDup(administradores) ==> NoDup(AplicarTodas(administradores, ops))
    decreases |ops|
  {
    if ops != [] {
      var next := Aplicar(administradores, ops[0]);
      if NoDup(administradores) {
        AddUniqueKeepsNoDup(administradores, ops[0].id);
        RemoveFirstKeepsNoDup(administradores, ops[0].id);
      }
      AplicarTodasKeepsBounds(next, ops[1..]);
    }
  }

  // ---------------------------------------------------------------------
  // The entity.

  class PessoaJuridicaDomain {
    var pessoaJuridicaId: Option<int>
    var razaoSocial: string
    var nomeFantasia: string
    var cnpj: string
    var inscricaoEstadual: Option<string>
    var administradores: seq<int>
    var iniciadorId: Option<int>
    var enderecos: seq<int>
    var atividadesEconomicas: seq<int>
    var website: Option<string>
    var redesSociais: seq<int>
    var situacao: string

    /** What every constructed object satisfies and every method keeps. */
    ghost predicate Valid()
      reads this
    {
      && razaoSocial != ""
      && nomeFantasia != ""
      && ValidaCnpj.ValidarCnpj(cnpj).Ok?
      && situacao in SITUACOES
      && 1 <= |administradores| <= 2
    }

    /** The object holds exactly the given constructor arguments. */
    ghost predicate Holds(id: Option<int>, razaoSocial: string, nomeFantasia: string, cnpj: string,
                          inscricaoEstadual: Option<string>, administradores: seq<int>,
                          iniciadorId: Option<int>, enderecos: seq<int>, atividadesEconomicas: seq<int>,
                          website: Option<string>, redesSociais: seq<int>, situacao: string)
      reads this
    {
      && this.pessoaJuridicaId == id && this.razaoSocial == razaoSocial
      && this.nomeFantasia == nomeFantasia && this.cnpj == cnpj
      && this.inscricaoEstadual == inscricaoEstadual && this.administradores == administradores
      && this.iniciadorId == iniciadorId && this.enderecos == enderecos
      && this.atividadesEconomicas == atividadesEconomicas && this.website == website
      && this.redesSociais == redesSociais && this.situacao == situacao
    }

    /** `__init__` once its checks have passed: every field as given, the
        lists defaulting to `[]`. */
    constructor (id: Option<int>, razaoSocial: string, nomeFantasia: string, cnpj: string,
                 inscricaoEstadual: Option<string>, administradores: Option<seq<int>>,
                 iniciadorId: Option<int>, enderecos: Option<seq<int>>,
                 atividadesEconomicas: Option<seq<int>>, website: Option<string>,
                 redesSociais: Option<seq<int>>, situacao: string)
      ensures Holds(id, razaoSocial, nomeFantasia, cnpj, inscricaoEstadual, OrEmpty(administradores),
                    iniciadorId, OrEmpty(enderecos), OrEmpty(atividadesEconomicas), website,
                    OrEmpty(redesSociais), situacao)
    {
      this.pessoaJuridicaId := id;
      this.razaoSocial, this.nomeFantasia, this.cnpj := razaoSocial, nomeFantasia, cnpj;
      this.inscricaoEstadual, this.administradores := inscricaoEstadual, OrEmpty(administradores);
      this.iniciadorId, this.enderecos := iniciadorId, OrEmpty(enderecos);
      this.atividadesEconomicas, this.website := OrEmpty(atividadesEconomicas), website;
      this.redesSociais, this.situacao := OrEmpty(redesSociais), situacao;
    }

    /** `PessoaJuridicaDomain(...)`: the checks of the setters `__init__`
        calls, in its order; the first that raises is the error, and
        otherwise the object holds the arguments as given (the CNPJ with its
        punctuation). */
    static method Create(id: Option<int>, razaoSocial: string, nomeFantasia: string, cnpj: string,
                         inscricaoEstadual: Option<string>, administradores: Option<seq<int>>,
                         iniciadorId: Option<int>, enderecos: Option<seq<int>>,
                         atividadesEconomicas: Option<seq<int>>, website: Option<string>,
                         redesSociais: Option<seq<int>>, situacao: string)
      returns (r: Result<PessoaJuridicaDomain>)
      ensures var o := ConstructionOutcome(razaoSocial, nomeFantasia, cnpj, OrEmpty(administradores), situacao);
              (r.Err? <==> o.Fail?) && (r.Err? ==> r.error == o.error)
      ensures r.Ok? ==> fresh(r.value) && r.value.Valid()
      ensures r.Ok? ==> r.value.Holds(id, razaoSocial, nomeFantasia, cnpj, inscricaoEstadual, OrEmpty(administradores),
                                      iniciadorId, OrEmpty(enderecos), OrEmpty(atividadesEconomicas), website,
                                      OrEmpty(redesSociais), situacao)
    {
      var o := ConstructionOutcome(razaoSocial, nomeFantasia, cnpj, OrEmpty(administradores), situacao);
      if o.Fail? {
        return Err(o.error);
      }
      ConstructionOutcomePasses(razaoSocial, nomeFantasia, cnpj, OrEmpty(administradores), situacao);
      var p := new PessoaJuridicaDomain(id, razaoSocial, nomeFantasia, cnpj, inscricaoEstadual, administradores,
                                        iniciadorId, enderecos, atividadesEconomicas, website, redesSociais,
                                        situacao);
      r := Ok(p);
    }

    method SetRazaoSocial(razaoSocial: string) returns (o: Outcome)
      modifies this`razaoSocial
      ensures o == NonEmpty(razaoSocial, RAZAO_SOCIAL_VAZIA)
      ensures this.razaoSocial == if o.Pass? then razaoSocial else old(this.razaoSocial)
      ensures old(Valid()) ==> Valid()
    {
      o := NonEmpty(razaoSocial, RAZAO_SOCIAL_VAZIA);
      if o.Pass? {
        this.razaoSocial := razaoSocial;
      }
    }

    method SetNomeFantasia(nomeFantasia: string) returns (o: Outcome)
      modifies this`nomeFantasia
      ensures o == NonEmpty(nomeFantasia, NOME_FANTASIA_VAZIO)
      ensures this.nomeFantasia == if o.Pass? then nomeFantasia else old(this.nomeFantasia)
      ensures old(Valid()) ==> Valid()
    {
      o := NonEmpty(nomeFantasia, NOME_FANTASIA_VAZIO);
      if o.Pass? {
        this.nomeFantasia := nomeFantasia;
      }
    }

    /** The CNPJ is stored verbatim, punctuation included. */
    method SetCnpj(cnpj: string) returns (o: Outcome)
      modifies this`cnpj
      ensures o == CnpjCheck(cnpj)
      ensures this.cnpj == if o.Pass? then cnpj else old(this.cnpj)
      ensures old(Valid()) ==> Valid()
    {
      o := CnpjCheck(cnpj);
      if o.Pass? {
        this.cnpj := cnpj;
      }
    }

    method SetInscricaoEstadual(inscricaoEstadual: Option<string>)
      modifies this`inscricaoEstadual
      ensures this.inscricaoEstadual == inscricaoEstadual
      ensures old(Valid()) ==> Valid()
    {
      this.inscricaoEstadual := inscricaoEstadual;
    }

    /** `validar_administradores`, which reads the list and changes nothing. */
    method ValidarAdministradores() returns (o: Outcome)
      ensures o.Pass? <==> 1 <= |administradores| <= 2
      ensures o == AdministradoresCheck(administradores)
    {
      if |administradores| < 1 {
        return Fail(MINIMO_ADMINISTRADORES);
      }
      if |administradores| > 2 {
        return Fail(MAXIMO_ADMINISTRADORES);
      }
      return Pass;
    }

    method AdicionarAdministradorId(id: int) returns (o: Outcome)
      modifies this`administradores
      ensures var r := AdicionarAdministrador(old(administradores), id);
              (o.Pass? <==> r.Ok?) && (r.Err? ==> o == Fail(r.error)) &&
              administradores == if r.Ok? then r.value else old(administradores)
      ensures old(Valid()) ==> Valid()
    {
      if |administradores| >= 2 {
        return Fail(ADICIONAR_ALEM_DO_MAXIMO);
      }
      if id !in administradores {
        administradores := administradores + [id];
      }
      return Pass;
    }

    method RemoverAdministradorId(id: int) returns (o: Outcome)
      modifies this`administradores
      ensures var r := RemoverAdministrador(old(administradores), id);
              (o.Pass? <==> r.Ok?) && (r.Err? ==> o == Fail(r.error)) &&
              administradores == if r.Ok? then r.value else old(administradores)
      ensures old(Valid()) ==> Valid()
    {
      if |administradores| <= 1 {
        return Fail(MINIMO_ADMINISTRADORES);
      }
      if id in administradores {
        administradores := RemoveFirst(administradores, id);
      }
      return Pass;
    }

    method SetIniciadorId(iniciador: Option<int>) returns (o: Outcome)
      modifies this`iniciadorId
      ensures o == IniciadorCheck(iniciador)
      ensures iniciadorId == if o.Pass? then iniciador else old(iniciadorId)
      ensures old(Valid()) ==> Valid()
    {
      o := IniciadorCheck(iniciador);
      if o.Pass? {
        iniciadorId := iniciador;
      }
    }

    method AdicionarEndereco(id: int)
      modifies this`enderecos
      ensures enderecos == AddUnique(old(enderecos), id)
      ensures old(Valid()) ==> Valid()
    {
      if id !in enderecos {
        enderecos := enderecos + [id];
      }
    }

    method RemoverEndereco(id: int)
      modifies this`enderecos
      ensures enderecos == RemoveFirst(old(enderecos), id)
      ensures old(Valid()) ==> Valid()
    {
      if id in enderecos {
        enderecos := RemoveFirst(enderecos, id);
      }
    }

    method AdicionarAtividadeEconomica(id: int)
      modifies this`atividadesEconomicas
      ensures atividadesEconomicas == AddUnique(old(atividadesEconomicas), id)
      ensures old(Valid()) ==> Valid()
    {
      if id !in atividadesEconomicas {
        atividadesEconomicas := atividadesEconomicas + [id];
      }
    }

    method RemoverAtividadeEconomica(id: int)
      modifies this`atividadesEconomicas
      ensures atividadesEconomicas == RemoveFirst(old(atividadesEconomicas), id)
      ensures old(Valid()) ==> Valid()
    {
      if id in atividadesEconomicas {
        atividadesEconomicas := RemoveFirst(atividadesEconomicas, id);
      }
    }

    method SetWebsite(website: Option<string>)
      modifies this`website
      ensures this.website == website
      ensures old(Valid()) ==> Valid()
    {
      this.website := website;
    }

    method AdicionarRedeSocial(id: int)
      modifies this`redesSociais
      ensures redesSociais == AddUnique(old(redesSociais), id)
      ensures old(Valid()) ==> Valid()
    {
      if id !in redesSociais {
        redesSociais := redesSociais + [id];
      }
    }

    method RemoverRedeSocial(id: int)
      modifies this`redesSociais
      ensures redesSociais == RemoveFirst(old(redesSociais), id)
      ensures old(Valid()) ==> Valid()
    {
      if id in redesSociais {
        redesSociais := RemoveFirst(redesSociais, id);
      }
    }

    method SetSituacao(situacao: string) returns (o: Outcome)
      modifies this`situacao
      ensures o == SituacaoCheck(situacao)
      ensures this.situacao == if o.Pass? then situacao else old(this.situacao)
      ensures old(Valid()) ==> Valid()
    {
      o := SituacaoCheck(situacao);
      if o.Pass? {
        this.situacao := situacao;
      }
    }

    /** `__str__`. */
    function ToString(): (s: string)
      reads this
    {
      Descricao(razaoSocial, cnpj, administradores, atividadesEconomicas)
    }
  }

  /** The text `__str__` builds from the four fields it shows. */
  function Descricao(razaoSocial: string, cnpj: string, administradores: seq<int>,
                     atividades: seq<int>): string
  {
    "Empresa: " + razaoSocial + ", CNPJ: " + cnpj + ", Administradores: " + ListRepr(administradores)
    + ", Atividades Econômicas: " + ListRepr(atividades)
  }

  /** The text opens with "Empresa: " followed by the razão social. */
  lemma DescricaoOpensWithRazaoSocial(razaoSocial: string, cnpj: string, administradores: seq<int>,
                                      atividades: seq<int>)
    ensures var s := Descricao(razaoSocial, cnpj, administradores, atividades);
            |s| >= 9 + |razaoSocial| && s[..9] == "Empresa: " && s[9..9 + |razaoSocial|] == razaoSocial
  {
    var head := "Empresa: " + razaoSocial;
    var rest := ", CNPJ: " + cnpj + ", Administradores: " + ListRepr(administradores)
                + ", Atividades Econômicas: " + ListRepr(atividades);
    assert Descricao(razaoSocial, cnpj, administradores, atividades) == head + rest;
    ConcatSlices(head, rest);
    ConcatSlices("Empresa: ", razaoSocial);
  }

  /** The text closes with the list of economic activities. */
  lemma DescricaoClosesWithAtividades(razaoSocial: string, cnpj: string, administradores: seq<int>,
                                      atividades: seq<int>)
    ensures var s := Descricao(razaoSocial, cnpj, administradores, atividades);
            |s| >= |ListRepr(atividades)| && s[|s| - |ListRepr(atividades)|..] == ListRepr(atividades)
  {
    var init := "Empresa: " + razaoSocial + ", CNPJ: " + cnpj + ", Administradores: "
                + ListRepr(administradores) + ", Atividades Econômicas: ";
    ConcatSlices(init, ListRepr(atividades));
  }
}
