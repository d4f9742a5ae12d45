/** The messages the core raises or returns. An exception carries the key
    of its message; `Texto` gives the exact text the source writes. */
module Mensagens {

  datatype Mensagem =
    // the validators
    | CpfInvalido | CnpjTamanho | CnpjInvalido | TelefoneInvalido | InscricaoEstadualInvalida
    // PessoaJuridicaDomain
    | RazaoSocialVazia | NomeFantasiaVazio | CnpjInformadoInvalido | IniciadorAusente
    | MinimoAdministradores | MaximoAdministradores | AdicionarAlemDoMaximo | SituacaoInvalida
    // PessoaFisicaDomain
    | PrimeiroNomeVazio | SobrenomeVazio | EmailInvalido | DataNascimentoInvalida
    | CpfInformadoInvalido | TelefoneInformadoInvalido | SituacaoProjetoInvalida | UltimoLoginSemSetter
    // EnderecoDomain
    | RuaVazia | NumeroVazio | BairroVazio | CidadeVazia | EstadoVazio | CepInvalido | PaisVazio
    | TipoEnderecoInvalido
    // AtividadeEconomicaDomain, ProfissaoDomain, UsuarioTipoDomain
    | CodigoAtividadeVazio | CodigoAtividadeTamanho | DescricaoAtividadeVazia
    | CodigoProfissaoVazio | DescricaoProfissaoVazia | NomeUsuarioTipoVazio
    // ProdutoDomain, RedeSocialDomain, Categoria
    | NomeProdutoVazio | TipoProdutoAusente | NomeRedeSocialVazio | IconeRedeSocialVazio | CategoriaVazia
    // AtivarPessoaJuridica
    | PessoaJuridicaNaoEncontrada | ContaJaAtivada | ContaAtivada | AtivacaoExigeDoisAdministradores
    | AtivaAusente | ContagemSemArgumento

  function Texto(m: Mensagem): string {
    match m
    case CpfInvalido => "CPF inválido."
    case CnpjTamanho => "CNPJ deve ter 14 dígitos."
    case CnpjInvalido => "CNPJ inválido."
    case TelefoneInvalido => "Número de telefone inválido."
    case InscricaoEstadualInvalida => "A Inscrição Estadual deve ter entre 8 e 14 dígitos."
    case RazaoSocialVazia => "A razão social não pode ser vazia."
    case NomeFantasiaVazio => "O nome fantasia não pode ser vazio."
    case CnpjInformadoInvalido => "O CNPJ informado é inválido."
    case IniciadorAusente => "O iniciador deve ser informado."
    case MinimoAdministradores => "Deve haver no mínimo 1 administrador."
    case MaximoAdministradores => "Não pode haver mais de 2 administradores."
    case AdicionarAlemDoMaximo => "Não é possível adicionar mais de 2 administradores."
    case SituacaoInvalida => "Situação inválida."
    case PrimeiroNomeVazio => "O primeiro nome não pode ser vazio."
    case SobrenomeVazio => "O sobrenome não pode ser vazio."
    case EmailInvalido => "O e-mail informado não é válido."
    case DataNascimentoInvalida => "A data de nascimento é inválida."
    case CpfInformadoInvalido => "O CPF informado é inválido."
    case TelefoneInformadoInvalido => "O número de telefone informado é inválido."
    case SituacaoProjetoInvalida => "Situação inválida para projetos"
    // written by the interpreter (Python 3.11 wording), not by the source
    case UltimoLoginSemSetter => "property 'ultimo_login' of 'PessoaFisicaDomain' object has no setter"
    case RuaVazia => "Rua não pode ser vazia."
    case NumeroVazio => "Número não pode ser vazio."
    case BairroVazio => "Bairro não pode ser vazio."
    case CidadeVazia => "Cidade não pode ser vazia."
    case EstadoVazio => "Estado não pode ser vazio."
    case CepInvalido => "CEP inválido, deve ter 8 caracteres."
    case PaisVazio => "País não pode ser vazio."
    case TipoEnderecoInvalido => "Tipo de endereço inválido."
    case CodigoAtividadeVazio => "O código da atividade econômica não pode ser vazio."
    case CodigoAtividadeTamanho => "O código da atividade econômica deve ter 7 caracteres."
    case DescricaoAtividadeVazia => "A descrição da atividade econômica não pode ser vazia."
    case CodigoProfissaoVazio => "O código da profissão não pode ser vazio."
    case DescricaoProfissaoVazia => "A descrição da profissão não pode ser vazia."
    case NomeUsuarioTipoVazio => "O nome do tipo de usuário não pode ser vazio."
    case NomeProdutoVazio => "O nome do produto não pode ser vazio."
    case TipoProdutoAusente => "O tipo de produto deve ser informado."
    case NomeRedeSocialVazio => "O nome da rede social não pode ser vazio."
    case IconeRedeSocialVazio => "O ícone da rede social não pode ser vazio."
    case CategoriaVazia => "Categoria não pode ser vazia"
    case PessoaJuridicaNaoEncontrada => "Pessoa Jurídica não encontrada."
    case ContaJaAtivada => "A conta já está ativada."
    case ContaAtivada => "A conta foi ativada com sucesso."
    case AtivacaoExigeDoisAdministradores => "Para ativar, a conta deve ter exatamente 2 administradores."
    // written by the interpreter (Python 3.11 wording), not by the source
    case AtivaAusente => "'PessoaJuridicaDomain' object has no attribute 'ativa'"
    case ContagemSemArgumento => "list.count() takes exactly one argument (0 given)"
  }
}
