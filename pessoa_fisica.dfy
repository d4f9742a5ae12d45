/** `PessoaFisicaDomain`: a person. Its validating setters (names, e-mail,
    birth date, CPF, phone), the situation with respect to projects, and the
    order in which the constructor runs the checks. The e-mail and birth
    date validators are not part of this model: they are parameters. */
module PessoaFisica {
  import opened Outcomes
  import opened Mensagens
  import opened Dates
  import ValidaCpf
  import ValidaTelefone

  const PRIMEIRO_NOME_VAZIO := ValueError(PrimeiroNomeVazio)
  const SOBRENOME_VAZIO := ValueError(SobrenomeVazio)
  const EMAIL_INVALIDO := InvalidEmailException(EmailInvalido)
  const DATA_NASCIMENTO_INVALIDA := InvalidDateException(DataNascimentoInvalida)
  const CPF_INVALIDO := InvalidCPFException(CpfInformadoInvalido)
  const TELEFONE_INVALIDO := InvalidPhoneException(TelefoneInformadoInvalido)
  const SITUACAO_PROJETO_INVALIDA := ValueError(SituacaoProjetoInvalida)

  /** The constructor's default situation with respect to projects. */
  const SITUACAO_PROJETO_INICIAL := "sem_projeto"
  const SITUACOES_PROJETO: seq<string> := ["ativo", "sem_projeto"]

  // ---------------------------------------------------------------------
  // The checks, as functions of the values they inspect.

  /** `set_email`, with `validar_email` as the predicate `emailValido`. */
  function EmailCheck(email: string, emailValido: string -> bool): (o: Outcome)
    ensures o.Pass? <==> emailValido(email)
    ensures o.Fail? ==> o.error == EMAIL_INVALIDO
  {
    if !emailValido(email) then Fail(EMAIL_INVALIDO) else Pass
  }

  /** `set_data_nascimento`, with `validar_data_nascimento` as `dataValida`:
      only a present date is checked. */
  function DataNascimentoCheck(data: Option<Date>, dataValida: Date -> bool): (o: Outcome)
    ensures o.Pass? <==> data.None? || dataValida(data.value)
    ensures o.Fail? ==> o.error == DATA_NASCIMENTO_INVALIDA
  {
    if data.Some? && !dataValida(data.value) then Fail(DATA_NASCIMENTO_INVALIDA) else Pass
  }

  /** An absent birth date is accepted whatever the date validator says. */
  lemma DataAusenteDispensaValidador(dataValida: Date -> bool, outro: Date -> bool)
    ensures DataNascimentoCheck(None, dataValida) == DataNascimentoCheck(None, outro) == Pass
  {
  }

  /** `set_cpf`: `validar_cpf` returns `True` or raises, so its own
      `ValidationError` is what a caller sees; the branch raising
      `InvalidCPFException` is never taken. */
  function CpfCheck(cpf: string): (o: Outcome)
    ensures o.Pass? <==> ValidaCpf.ValidarCpf(cpf).Ok?
    ensures o.Fail? ==> o.error == ValidaCpf.ValidarCpf(cpf).error
    ensures o.Fail? ==> o.error == ValidaCpf.CPF_INVALIDO
  {
    match ValidaCpf.ValidarCpf(cpf)
    case Err(e) => Fail(e)
    case Ok(valido) => if valido then Pass else Fail(CPF_INVALIDO)
  }

  /** `set_telefone`: as `set_cpf`, with the phone validator. */
  function TelefoneCheck(telefone: string): (o: Outcome)
    ensures o.Pass? <==> ValidaTelefone.ValidarTelefone(telefone).Ok?
    ensures o.Fail? ==> o.error == ValidaTelefone.ValidarTelefone(telefone).error
    ensures o.Fail? ==> o.error == ValidaTelefone.TELEFONE_INVALIDO
  {
    match ValidaTelefone.ValidarTelefone(telefone)
    case Err(e) => Fail(e)
    case Ok(valido) => if valido then Pass else Fail(TELEFONE_INVALIDO)
  }

  /** The `situacao_projeto` setter. */
  function SituacaoProjetoCheck(situacao: string): (o: Outcome)
    ensures o.Pass? <==> situacao in SITUACOES_PROJETO
    ensures o.Fail? ==> o.error == SITUACAO_PROJETO_INVALIDA
  {
    if situacao !in SITUACOES_PROJETO then Fail(SITUACAO_PROJETO_INVALIDA) else Pass
  }

  /** The first four checks of `__init__`: names, e-mail, birth date. */
  function IdentidadeOutcome(primeiroNome: string, sobrenome: string, email: string, data: Option<Date>,
                             emailValido: string -> bool, dataValida: Date -> bool): Outcome
  {
    Then(NonEmpty(primeiroNome, PRIMEIRO_NOME_VAZIO),
    Then(NonEmpty(sobrenome, SOBRENOME_VAZIO),
    Then(EmailCheck(email, emailValido),
         DataNascimentoCheck(data, dataValida))))
  }

  /** Everything `__init__` checks, in its order: names, e-mail, birth
      date, CPF, phone, then the situation with respect to projects. This
      is the constructor with `ultimo_login` stored through
      `set_ultimo_login`; as written it stops before the last check (see
      `ConstructionOutcomeAsWritten`). */
  function ConstructionOutcome(primeiroNome: string, sobrenome: string, email: string, data: Option<Date>,
                               cpf: string, telefone: string, situacaoProjeto: string,
                               emailValido: string -> bool, dataValida: Date -> bool): Outcome
  {
    Then(IdentidadeOutcome(primeiroNome, sobrenome, email, data, emailValido, dataValida),
    Then(CpfCheck(cpf),
    Then(TelefoneCheck(telefone),
         SituacaoProjetoCheck(situacaoProjeto))))
  }

  /** Construction succeeds exactly when every field check passes. */
  lemma ConstructionOutcomePasses(primeiroNome: string, sobrenome: string, email: string, data: Option<Date>,
                                  cpf: string, telefone: string, situacaoProjeto: string,
                                  emailValido: string -> bool, dataValida: Date -> bool)
    ensures ConstructionOutcome(primeiroNome, sobrenome, email, data, cpf, telefone, situacaoProjeto,
                                emailValido, dataValida).Pass? <==>
            primeiroNome != "" && sobrenome != "" && emailValido(email) &&
            (data.None? || dataValida(data.value)) &&
            ValidaCpf.ValidarCpf(cpf).Ok? && ValidaTelefone.ValidarTelefone(telefone).Ok? &&
            situacaoProjeto in SITUACOES_PROJETO
  {
  }

  /** The checks run in order: a person whose names, e-mail and birth date
      pass but whose CPF is refused is reported with the CPF validator's
      error, whatever the phone; an empty first name is reported before
      everything else. */
  lemma ConstructionOrder(primeiroNome: string, sobrenome: string, email: string, data: Option<Date>,
                          cpf: string, telefone: string, situacaoProjeto: string,
                          emailValido: string -> bool, dataValida: Date -> bool)
    ensures ConstructionOutcome("", sobrenome, email, data, cpf, telefone, situacaoProjeto,
                                emailValido, dataValida) == Fail(PRIMEIRO_NOME_VAZIO)
    ensures primeiroNome != "" && sobrenome != "" && !emailValido(email) ==>
            ConstructionOutcome(primeiroNome, sobrenome, email, data, cpf, telefone, situacaoProjeto,
                                emailValido, dataValida) == Fail(EMAIL_INVALIDO)
    ensures IdentidadeOutcome(primeiroNome, sobrenome, email, data, emailValido, dataValida).Pass? &&
            ValidaCpf.ValidarCpf(cpf).Err? ==>
            ConstructionOutcome(primeiroNome, sobrenome, email, data, cpf, telefone, situacaoProjeto,
                                emailValido, dataValida) == Fail(ValidaCpf.CPF_INVALIDO)
  {
  }

  // ---------------------------------------------------------------------
  // `__init__` as written.

  /** `__init__` assigns `self.ultimo_login = ultimo_login`, but
      `ultimo_login` is a property with a getter and no setter (the method
      `set_ultimo_login` is separate), so the assignment raises. */
  const ULTIMO_LOGIN_SEM_SETTER := AttributeError(UltimoLoginSemSetter)

  /** What `__init__` as written reports: the six setter checks in order,
      then the error of the `ultimo_login` assignment; the lines after it,
      the situation check among them, never run. */
  function ConstructionOutcomeAsWritten(primeiroNome: string, sobrenome: string, email: string,
                                        data: Option<Date>, cpf: string, telefone: string,
                                        emailValido: string -> bool, dataValida: Date -> bool): Outcome
  {
    Then(IdentidadeOutcome(primeiroNome, sobrenome, email, data, emailValido, dataValida),
    Then(CpfCheck(cpf),
    Then(TelefoneCheck(telefone),
         Fail(ULTIMO_LOGIN_SEM_SETTER))))
  }

  /** As written, construction never succeeds. It raises `AttributeError`
      exactly when the six setter checks pass, whatever the situation with
      respect to projects; otherwise it reports the same first failure as
      the corrected constructor. */
  lemma ConstructionAsWrittenNeverSucceeds(primeiroNome: string, sobrenome: string, email: string,
                                           data: Option<Date>, cpf: string, telefone: string,
                                           situacaoProjeto: string,
                                           emailValido: string -> bool, dataValida: Date -> bool)
    ensures ConstructionOutcomeAsWritten(primeiroNome, sobrenome, email, data, cpf, telefone,
                                         emailValido, dataValida).Fail?
    ensures ConstructionOutcomeAsWritten(primeiroNome, sobrenome, email, data, cpf, telefone,
                                         emailValido, dataValida) == Fail(ULTIMO_LOGIN_SEM_SETTER) <==>
            primeiroNome != "" && sobrenome != "" && emailValido(email) &&
            (data.None? || dataValida(data.value)) &&
            ValidaCpf.ValidarCpf(cpf).Ok? && ValidaTelefone.ValidarTelefone(telefone).Ok?
    ensures ConstructionOutcomeAsWritten(primeiroNome, sobrenome, email, data, cpf, telefone,
                                         emailValido, dataValida) != Fail(ULTIMO_LOGIN_SEM_SETTER) ==>
            ConstructionOutcomeAsWritten(primeiroNome, sobrenome, email, data, cpf, telefone,
                                         emailValido, dataValida) ==
            ConstructionOutcome(primeiroNome, sobrenome, email, data, cpf, telefone, situacaoProjeto,
                                emailValido, dataValida)
  {
  }

  /** The input that shows it: a person every check accepts is built by
      the corrected constructor and refused by the one as written, and an
      invalid situation is refused by the two with different errors. */
  lemma ConstructionAsWrittenExemplo(emailValido: string -> bool, dataValida: Date -> bool)
    requires emailValido("ana@exemplo.com.br")
    ensures ConstructionOutcome("Ana", "Souza", "ana@exemplo.com.br", None, "529.982.247-25", "11987654321",
                                "sem_projeto", emailValido, dataValida) == Pass
    ensures ConstructionOutcome("Ana", "Souza", "ana@exemplo.com.br", None, "529.982.247-25", "11987654321",
                                "x", emailValido, dataValida) == Fail(SITUACAO_PROJETO_INVALIDA)
    ensures ConstructionOutcomeAsWritten("Ana", "Souza", "ana@exemplo.com.br", None, "529.982.247-25",
                                         "11987654321", emailValido, dataValida) == Fail(ULTIMO_LOGIN_SEM_SETTER)
  {
    ValidaCpf.ExemploCpf();
    ValidaTelefone.ExemploTelefone();
    assert "x" !in SITUACOES_PROJETO;
  }

  // ---------------------------------------------------------------------
  // The entity.

  /** The attributes of a `PessoaFisicaDomain`, as a value. */
  datatype DadosPessoaFisica = DadosPessoaFisica(
    pessoaFisicaId: Option<int>, primeiroNome: string, sobrenome: string, email: string,
    dataNascimento: Option<Date>, cpf: string, genero: string, telefone: string, enderecos: seq<int>,
    localizacaoCriacao: Option<int>, ultimoLogin: Option<Instant>, contaPessoa: Option<bool>,
    iniciadorContaEmpresa: Option<bool>, foto: Option<string>, bios: Option<string>, situacao: Option<string>,
    situacaoProjeto: string, redesSociais: seq<int>, idadeAnos: Option<int>, idadeMeses: Option<int>)

  class PessoaFisicaDomain {
    var pessoaFisicaId: Option<int>
    var primeiroNome: string
    var sobrenome: string
    var email: string
    var dataNascimento: Option<Date>
    var cpf: string
    var genero: string
    var telefone: string
    var enderecos: seq<int>
    var localizacaoCriacao: Option<int>
    var ultimoLogin: Option<Instant>
    var contaPessoa: Option<bool>
    var iniciadorContaEmpresa: Option<bool>
    var foto: Option<string>
    var bios: Option<string>
    var situacao: Option<string>
    var situacaoProjeto: string
    var redesSociais: seq<int>
    /** Not declared by the source: the age service creates these attributes
        when it runs on a person with a birth date. `None` stands for an
        attribute that does not exist yet. */
    var idadeAnos: Option<int>
    var idadeMeses: Option<int>

    /** What every constructed object satisfies and every setter keeps
        (the e-mail and birth date rules depend on the validators passed
        in, so they are stated by the setters instead). */
    ghost predicate Valid()
      reads this
    {
      && primeiroNome != ""
      && sobrenome != ""
      && ValidaCpf.ValidarCpf(cpf).Ok?
      && ValidaTelefone.ValidarTelefone(telefone).Ok?
      && situacaoProjeto in SITUACOES_PROJETO
    }

    /** All the attributes, as one value. */
    function Dados(): DadosPessoaFisica
      reads this
    {
      DadosPessoaFisica(pessoaFisicaId, primeiroNome, sobrenome, email, dataNascimento, cpf, genero, telefone,
                        enderecos, localizacaoCriacao, ultimoLogin, contaPessoa, iniciadorContaEmpresa, foto,
                        bios, situacao, situacaoProjeto, redesSociais, idadeAnos, idadeMeses)
    }

    /** The object the corrected `__init__` builds once all its checks
        pass: every attribute as given, the lists defaulting to `[]`, no
        age yet. */
    constructor (id: Option<int>, primeiroNome: string, sobrenome: string, email: string,
                 dataNascimento: Option<Date>, cpf: string, genero: string, telefone: string,
                 enderecos: Option<seq<int>>, localizacaoCriacao: Option<int>,
                 ultimoLogin: Option<Instant>, contaPessoa: Option<bool>,
                 iniciadorContaEmpresa: Option<bool>, foto: Option<string>, bios: Option<string>,
                 situacao: Option<string>, situacaoProjeto: string, redesSociais: Option<seq<int>>)
      ensures Dados() == DadosPessoaFisica(id, primeiroNome, sobrenome, email, dataNascimento, cpf, genero,
                                           telefone, OrEmpty(enderecos), localizacaoCriacao, ultimoLogin,
                                           contaPessoa, iniciadorContaEmpresa, foto, bios, situacao,
                                           situacaoProjeto, OrEmpty(redesSociais), None, None)
    {
      this.pessoaFisicaId := id;
      this.primeiroNome, this.sobrenome, this.email := primeiroNome, sobrenome, email;
      this.dataNascimento, this.cpf, this.genero, this.telefone := dataNascimento, cpf, genero, telefone;
      this.enderecos, this.localizacaoCriacao := OrEmpty(enderecos), localizacaoCriacao;
      this.ultimoLogin, this.contaPessoa, this.iniciadorContaEmpresa := ultimoLogin, contaPessoa, iniciadorContaEmpresa;
      this.foto, this.bios, this.situacao := foto, bios, situacao;
      this.situacaoProjeto, this.redesSociais := situacaoProjeto, OrEmpty(redesSociais);
      this.idadeAnos, this.idadeMeses := None, None;
    }

    /** `PessoaFisicaDomain(...)` with `ultimo_login` stored through
        `set_ultimo_login`: the checks of the setters `__init__` calls, in
        its order; the first that raises is the error, and otherwise the
        object holds the arguments as given (the CPF and phone with their
        punctuation). */
    static method Create(id: Option<int>, primeiroNome: string, sobrenome: string, email: string,
                         dataNascimento: Option<Date>, cpf: string, genero: string, telefone: string,
                         enderecos: Option<seq<int>>, localizacaoCriacao: Option<int>,
                         ultimoLogin: Option<Instant>, contaPessoa: Option<bool>,
                         iniciadorContaEmpresa: Option<bool>, foto: Option<string>, bios: Option<string>,
                         situacao: Option<string>, situacaoProjeto: string, redesSociais: Option<seq<int>>,
                         emailValido: string -> bool, dataValida: Date -> bool)
      returns (r: Result<PessoaFisicaDomain>)
      ensures var o := ConstructionOutcome(primeiroNome, sobrenome, email, dataNascimento, cpf, telefone,
                                           situacaoProjeto, emailValido, dataValida);
              (r.Err? <==> o.Fail?) && (r.Err? ==> r.error == o.error)
      ensures r.Ok? ==> fresh(r.value) && r.value.Valid() && emailValido(r.value.email)
      ensures r.Ok? ==> r.value.Dados() ==
                        DadosPessoaFisica(id, primeiroNome, sobrenome, email, dataNascimento, cpf, genero, telefone,
                                          OrEmpty(enderecos), localizacaoCriacao, ultimoLogin, contaPessoa,
                                          iniciadorContaEmpresa, foto, bios, situacao, situacaoProjeto,
                                          OrEmpty(redesSociais), None, None)
    {
      var o := ConstructionOutcome(primeiroNome, sobrenome, email, dataNascimento, cpf, telefone,
                                   situacaoProjeto, emailValido, dataValida);
      if o.Fail? {
        return Err(o.error);
      }
      ConstructionOutcomePasses(primeiroNome, sobrenome, email, dataNascimento, cpf, telefone,
                                situacaoProjeto, emailValido, dataValida);
      var p := new PessoaFisicaDomain(id, primeiroNome, sobrenome, email, dataNascimento, cpf, genero, telefone,
                                      enderecos, localizacaoCriacao, ultimoLogin, contaPessoa,
                                      iniciadorContaEmpresa, foto, bios, situacao, situacaoProjeto, redesSociais);
      r := Ok(p);
    }

    /** `PessoaFisicaDomain(...)` as written: no input yields an object. */
    static method CreateAsWritten(id: Option<int>, primeiroNome: string, sobrenome: string, email: string,
                                  dataNascimento: Option<Date>, cpf: string, genero: string, telefone: string,
                                  enderecos: Option<seq<int>>, localizacaoCriacao: Option<int>,
                                  ultimoLogin: Option<Instant>, contaPessoa: Option<bool>,
                                  iniciadorContaEmpresa: Option<bool>, foto: Option<string>, bios: Option<string>,
                                  situacao: Option<string>, situacaoProjeto: string, redesSociais: Option<seq<int>>,
                                  emailValido: string -> bool, dataValida: Date -> bool)
      returns (r: Result<PessoaFisicaDomain>)
      ensures r.Err?
      ensures r.error == ConstructionOutcomeAsWritten(primeiroNome, sobrenome, email, dataNascimento, cpf,
                                                      telefone, emailValido, dataValida).error
    {
      var o := ConstructionOutcomeAsWritten(primeiroNome, sobrenome, email, dataNascimento, cpf, telefone,
                                            emailValido, dataValida);
      ConstructionAsWrittenNeverSucceeds(primeiroNome, sobrenome, email, dataNascimento, cpf, telefone,
                                         situacaoProjeto, emailValido, dataValida);
      r := Err(o.error);
    }

    method SetPrimeiroNome(nome: string) returns (o: Outcome)
      modifies this`primeiroNome
      ensures o == NonEmpty(nome, PRIMEIRO_NOME_VAZIO)
      ensures primeiroNome == if o.Pass? then nome else old(primeiroNome)
      ensures old(Valid()) ==> Valid()
    {
      o := NonEmpty(nome, PRIMEIRO_NOME_VAZIO);
      if o.Pass? {
        primeiroNome := nome;
      }
    }

    method SetSobrenome(sobrenome: string) returns (o: Outcome)
      modifies this`sobrenome
      ensures o == NonEmpty(sobrenome, SOBRENOME_VAZIO)
      ensures this.sobrenome == if o.Pass? then sobrenome else old(this.sobrenome)
      ensures old(Valid()) ==> Valid()
    {
      o := NonEmpty(sobrenome, SOBRENOME_VAZIO);
      if o.Pass? {
        this.sobrenome := sobrenome;
      }
    }

    method SetEmail(email: string, emailValido: string -> bool) returns (o: Outcome)
      modifies this`email
      ensures o == EmailCheck(email, emailValido)
      ensures this.email == if o.Pass? then email else old(this.email)
      ensures old(Valid()) ==> Valid()
    {
      o := EmailCheck(email, emailValido);
      if o.Pass? {
        this.email := email;
      }
    }

    method SetDataNascimento(data: Option<Date>, dataValida: Date -> bool) returns (o: Outcome)
      modifies this`dataNascimento
      ensures o == DataNascimentoCheck(data, dataValida)
      ensures dataNascimento == if o.Pass? then data else old(dataNascimento)
      ensures old(Valid()) ==> Valid()
    {
      o := DataNascimentoCheck(data, dataValida);
      if o.Pass? {
        dataNascimento := data;
      }
    }

    /** The CPF is stored verbatim, punctuation included. */
    method SetCpf(cpf: string) returns (o: Outcome)
      modifies this`cpf
      ensures o == CpfCheck(cpf)
      ensures this.cpf == if o.Pass? then cpf else old(this.cpf)
      ensures old(Valid()) ==> Valid()
    {
      o := CpfCheck(cpf);
      if o.Pass? {
        this.cpf := cpf;
      }
    }

    /** The phone is stored verbatim, punctuation included. */
    method SetTelefone(telefone: string) returns (o: Outcome)
      modifies this`telefone
      ensures o == TelefoneCheck(telefone)
      ensures this.telefone == if o.Pass? then telefone else old(this.telefone)
      ensures old(Valid()) ==> Valid()
    {
      o := TelefoneCheck(telefone);
      if o.Pass? {
        this.telefone := telefone;
      }
    }

    method SetUltimoLogin(dataLogin: Option<Instant>)
      modifies this`ultimoLogin
      ensures ultimoLogin == dataLogin
      ensures old(Valid()) ==> Valid()
    {
      ultimoLogin := dataLogin;
    }

    /** The `situacao_projeto` property setter. */
    method SetSituacaoProjeto(situacao: string) returns (o: Outcome)
      modifies this`situacaoProjeto
      ensures o == SituacaoProjetoCheck(situacao)
      ensures situacaoProjeto == if o.Pass? then situacao else old(situacaoProjeto)
      ensures old(Valid()) ==> Valid()
    {
      o := SituacaoProjetoCheck(situacao);
      if o.Pass? {
        situacaoProjeto := situacao;
      }
    }

    /** `atualizar_situacao_projeto`: the setter it calls never raises,
        since both values it passes are allowed. */
    method AtualizarSituacaoProjeto(estaEmProjetos: bool)
      modifies this`situacaoProjeto
      ensures situacaoProjeto == if estaEmProjetos then "ativo" else "sem_projeto"
      ensures situacaoProjeto in SITUACOES_PROJETO
      ensures old(Valid()) ==> Valid()
    {
      var o := SetSituacaoProjeto(if estaEmProjetos then "ativo" else "sem_projeto");
      assert o.Pass?;
    }
  }
}
