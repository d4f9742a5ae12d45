/** `AtivarPessoaJuridica.executar`: activates a legal entity's account
    when it has exactly two administrators. The repository is a class
    holding the stored accounts and the log of `save` calls. */
module AtivarPessoaJuridica {
  import opened Outcomes
  import opened Mensagens

  /** What the service reads and writes of a stored legal entity: whether
      the account is active, and the administrators' identifiers. */
  datatype Conta = Conta(ativa: bool, administradores: seq<int>)

  /** The returned dictionary `{'status': ..., 'mensagem': ...}`. */
  datatype Resposta = Resposta(status: string, mensagem: Mensagem)

  const JA_ATIVA := Resposta("ja_ativa", ContaJaAtivada)
  const ATIVADA := Resposta("ativada", ContaAtivada)
  const NAO_ENCONTRADA := EntityNotFoundException(PessoaJuridicaNaoEncontrada)
  const EXIGE_DOIS_ADMINISTRADORES := BusinessRuleViolationException(AtivacaoExigeDoisAdministradores)

  /** The service's answer for what `get_by_id` returned: not found, then
      already active, then the administrator count. */
  function Decidir(conta: Option<Conta>): Result<Resposta>
  {
    if conta.None? then Err(NAO_ENCONTRADA)
    else if conta.value.ativa then Ok(JA_ATIVA)
    else if |conta.value.administradores| == 2 then Ok(ATIVADA)
    else Err(EXIGE_DOIS_ADMINISTRADORES)
  }

  /** The rule, case by case. The active check comes first, so an active
      account is reported as such whatever its administrators; an inactive
      one is activated exactly when it has two. */
  lemma DecidirCasos(conta: Conta)
    ensures Decidir(None) == Err(NAO_ENCONTRADA)
    ensures conta.ativa ==> Decidir(Some(conta)) == Ok(JA_ATIVA)
    ensures !conta.ativa ==> (Decidir(Some(conta)) == Ok(ATIVADA) <==> |conta.administradores| == 2)
    ensures !conta.ativa && |conta.administradores| != 2 ==>
              Decidir(Some(conta)) == Err(EXIGE_DOIS_ADMINISTRADORES)
  {
  }

  /** Activating twice: the second call finds the account active. */
  lemma AtivacaoIdempotente(conta: Conta)
    requires Decidir(Some(conta)) == Ok(ATIVADA)
    ensures Decidir(Some(conta.(ativa := true))) == Ok(JA_ATIVA)
    ensures |conta.administradores| == 2
  {
  }

  const ATIVA_AUSENTE := AttributeError(AtivaAusente)
  const CONTAGEM_SEM_ARGUMENTO := TypeError(ContagemSemArgumento)

  /** What the service as written reads of the object that `get_by_id`
      returns under the repository contract: its `ativa` attribute (`None` when the object has no such
      attribute) and its administrators. */
  datatype Lida = Lida(ativa: Option<bool>, administradores: seq<int>)

  /** Under the repository contract, the object `get_by_id` returns is a
      `PessoaJuridicaDomain`, which has no `ativa` attribute. */
  function DoDominio(administradores: seq<int>): Lida
  {
    Lida(None, administradores)
  }

  /** Lines 33-57 as written. Reading a missing `ativa` raises
      `AttributeError`. On a list, `count()` without an argument raises
      `TypeError` before any comparison with 2. */
  function DecidirAsWritten(lida: Option<Lida>): Result<Resposta>
  {
    if lida.None? then Err(NAO_ENCONTRADA)
    else if lida.value.ativa.None? then Err(ATIVA_AUSENTE)
    else if lida.value.ativa.value then Ok(JA_ATIVA)
    else Err(CONTAGEM_SEM_ARGUMENTO)
  }

  /** As written, the service never activates. It answers only for an
      object that does carry an `ativa` attribute set to true, and there
      it agrees with `Decidir`. */
  lemma AsWrittenNeverActivates(lida: Option<Lida>)
    ensures DecidirAsWritten(lida) != Ok(ATIVADA)
    ensures DecidirAsWritten(lida).Ok? <==> lida.Some? && lida.value.ativa == Some(true)
    ensures lida.None? ==> DecidirAsWritten(lida) == Decidir(None)
    ensures lida.Some? && lida.value.ativa == Some(true) ==>
              DecidirAsWritten(lida) == Decidir(Some(Conta(true, lida.value.administradores)))
    ensures lida.Some? && lida.value.ativa == Some(false) ==> DecidirAsWritten(lida) == Err(CONTAGEM_SEM_ARGUMENTO)
  {
  }

  /** On every `PessoaJuridicaDomain` object, the service as written raises
      `AttributeError`. An inactive account with administrators [1, 2] is
      one where the corrected rule activates instead. */
  lemma AsWrittenOnDomain(administradores: seq<int>)
    ensures DecidirAsWritten(Some(DoDominio(administradores))) == Err(ATIVA_AUSENTE)
    ensures Decidir(Some(Conta(false, [1, 2]))) == Ok(ATIVADA)
    ensures DecidirAsWritten(Some(DoDominio([1, 2]))) == Err(ATIVA_AUSENTE)
  {
  }

  /** A repository honouring the abstract contract
      `PessoaJuridicaContract`: the stored accounts by identifier, and
      every `save` in call order. `get_by_id` gives `None` for an unknown
      id. */
  class Repositorio {
    var contas: map<int, Conta>
    var salvas: seq<(int, Conta)>

    constructor (contas: map<int, Conta>)
      ensures this.contas == contas && salvas == []
    {
      this.contas, salvas := contas, [];
    }

    /** What `get_by_id` returns. */
    function Buscar(id: int): Option<Conta>
      reads this
    {
      if id in contas then Some(contas[id]) else None
    }

    method GetById(id: int) returns (c: Option<Conta>)
      ensures c == Buscar(id)
    {
      c := if id in contas then Some(contas[id]) else None;
    }

    method Save(id: int, conta: Conta)
      modifies this
      ensures contas == old(contas)[id := conta]
      ensures salvas == old(salvas) + [(id, conta)]
    {
      contas := contas[id := conta];
      salvas := salvas + [(id, conta)];
    }
  }

  /** `executar()` as written, with a repository honouring the contract:
      a company that is found is returned as a `PessoaJuridicaDomain`, and
      line 39 raises. No call ever writes. */
  method ExecutarAsWritten(pessoaJuridicaId: int, repositorio: Repositorio) returns (r: Result<Resposta>)
    ensures r.Err?
    ensures r == DecidirAsWritten(
                   var c := repositorio.Buscar(pessoaJuridicaId);
                   if c.None? then None else Some(DoDominio(c.value.administradores)))
  {
    var pessoaJuridica := repositorio.GetById(pessoaJuridicaId);
    if pessoaJuridica.None? {
      return Err(NAO_ENCONTRADA);
    }
    return Err(ATIVA_AUSENTE);
  }

  /** `executar()` with the activation state read from the account and
      the administrators counted by `len`: the answer is `Decidir` of the
      stored account; only an activation writes, setting `ativa` and
      saving exactly once. */
  method Executar(pessoaJuridicaId: int, repositorio: Repositorio) returns (r: Result<Resposta>)
    modifies repositorio
    ensures r == Decidir(old(repositorio.Buscar(pessoaJuridicaId)))
    ensures r == Ok(ATIVADA) ==>
              && pessoaJuridicaId in old(repositorio.contas)
              && var ativada := old(repositorio.contas[pessoaJuridicaId]).(ativa := true);
                 && repositorio.contas == old(repositorio.contas)[pessoaJuridicaId := ativada]
                 && repositorio.salvas == old(repositorio.salvas) + [(pessoaJuridicaId, ativada)]
    ensures r != Ok(ATIVADA) ==>
              repositorio.contas == old(repositorio.contas) && repositorio.salvas == old(repositorio.salvas)
  {
    var pessoaJuridica := repositorio.GetById(pessoaJuridicaId);
    if pessoaJuridica.None? {
      return Err(NAO_ENCONTRADA);
    }
    var conta := pessoaJuridica.value;
    if conta.ativa {
      return Ok(JA_ATIVA);
    }
    if |conta.administradores| == 2 {
      conta := conta.(ativa := true);
      repositorio.Save(pessoaJuridicaId, conta);
      return Ok(ATIVADA);
    }
    return Err(EXIGE_DOIS_ADMINISTRADORES);
  }
}
