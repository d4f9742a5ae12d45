# Ritmo Digital — a verified model of the domain core

Ritmo Digital is a Django back end for people (`PessoaFisicaDomain`),
companies (`PessoaJuridicaDomain`) and their addresses, economic activities,
professions, user types, products, social networks and plugin categories.
This project models, in Dafny, the part of it that decides what is valid and
what an operation leaves behind:

- the Brazilian document validators: CPF, CNPJ, phone number and state
  registration (inscrição estadual);
- the domain entities, with their validating setters and the order in which
  their constructors run the checks;
- the service that activates a company account, which needs exactly two
  administrators;
- the age computations: the shared `calcular_idade` helper, the age service
  that writes the result onto a person, and the two age columns of the admin
  page;
- the model mixins: soft deletion and restoration, inactivation and
  reactivation, the audit rule of `save`, and the manager that hides
  soft-deleted rows.

Each source file becomes one module. An entity whose setters update its
attributes is a `class` with those fields. Its constructor that may raise is
a `static method Create` returning `Result`. That method is proved to report
the first failing check in the source's order, and otherwise to hold the
arguments as given. Every setter is proved to keep the class invariant
`Valid()`: the facts every successful constructor establishes. Pure rules are
functions, and lemmas state what the source promises about them:

- each check-digit validator is equivalent to a positional reference
  definition;
- punctuation does not change a verdict;
- `restore` undoes `delete`;
- the manager's two querysets partition the table.

One constructor cannot succeed as written: `PessoaFisicaDomain.__init__`
assigns to a read-only property. "## Findings" records it. The model holds
both the constructor as written and the corrected one, and the rest of the
model uses the corrected one.

A raised exception is an `Error` value: the exception class and the key of
its message. `Mensagens.Texto` gives the exact text of each message.

## Model

| member | source | states |
|---|---|---|
| Digits.OnlyDigitsAreDigits | backend/domain/shared/validations/valida_cpf.py:28 | The digit filter keeps only digits and never lengthens its input. |
| Digits.OnlyDigitsConcat | backend/domain/shared/validations/valida_cnpj.py:17 | Filtering a concatenation is the concatenation of the filtered parts. |
| Digits.OnlyDigitsOfDigits | backend/domain/shared/validations/valida_ie.py:23 | A string of digits passes through the filter unchanged. |
| Digits.OnlyDigitsIdempotent | backend/domain/shared/validations/valida_telefone.py:17 | Filtering twice is filtering once. |
| Digits.OnlyDigitsIgnoresNonDigit | backend/domain/shared/validations/valida_cpf.py:28 | Inserting a non-digit anywhere does not change the filtered string. |
| Digits.RepeatFirstIffAllSame | backend/domain/shared/validations/valida_cpf.py:30 | `s == s[0] * len(s)` holds exactly when every character equals the first. |
| Modulo11.CheckDigit | backend/domain/shared/validations/valida_cpf.py:35-36 | The digit is at most 9; it makes the sum a multiple of 11, except for remainder 1, where it is 0 (the rule for remainders 0 and 1). |
| Modulo11.WeightedSumIsDot | backend/domain/shared/validations/valida_cpf.py:34 | The `zip` sum equals the positional sum over the shorter of the two sequences. |
| ValidaCpf.Pesos | backend/domain/shared/validations/valida_cpf.py:34 | `range(peso, 1, -1)` has `peso - 1` weights, the i-th being `peso - i`. |
| ValidaCpf.ValidarCpf | backend/domain/shared/validations/valida_cpf.py:18-44 | Never returns False. Any refusal is `ValidationError("CPF inválido.")`. Fewer or more than 11 digits, or eleven equal digits, are refused. |
| ValidaCpf.ValidarCpfCorrect | backend/domain/shared/validations/valida_cpf.py:28-44 | Accepted exactly when the digits form a valid CPF: 11 digits, not all equal, and the last two are the mod-11 check digits with weights 10..2 and 11..2. |
| ValidaCpf.CalcularDigitoIsReference | backend/domain/shared/validations/valida_cpf.py:33-39 | `calcular_digito(cpf[:n], n+1)` is the check digit of the positional sum. |
| ValidaCpf.UltimosDigitos | backend/domain/shared/validations/valida_cpf.py:41 | Comparing the last two characters with the f-string is comparing their values with the two digits. |
| ValidaCpf.ValidarCpfIgnoresPunctuation | backend/domain/shared/validations/valida_cpf.py:28 | A string and its digits get the same verdict. |
| ValidaCpf.OnlyDigitsFormatarCpf | backend/domain/shared/validations/valida_cpf.py:28 | Stripping the punctuation of `XXX.XXX.XXX-XX` gives back the 11 digits. |
| ValidaCpf.FormatarCpfKeepsVerdict | backend/domain/shared/validations/valida_cpf.py:28 | The printed form gets the verdict of the bare digits. |
| ValidaCpf.SomaCpfPrefix | backend/domain/shared/validations/valida_cpf.py:38-39 | Each check digit depends only on the digits before it. |
| ValidaCpf.ExemploCpfReferencia | backend/domain/shared/validations/valida_cpf.py:33-39 | For 529982247-25 the sums are 295 and 347, the check digits are 2 and 5, and the number is valid. |
| ValidaCpf.ExemploCpf | backend/domain/shared/validations/valida_cpf.py:18-44 | "529.982.247-25" is accepted. Changing its last digit, or its second-to-last, to any other digit makes it refused. |
| ValidaCnpj.ValidarCnpj | backend/domain/shared/validations/valida_cnpj.py:3-44 | Never returns False. The length error comes exactly when there are not 14 digits. Every other refusal is "CNPJ inválido.", and 14 equal digits are refused. |
| ValidaCnpj.PesoCnpjCycle | backend/domain/shared/validations/valida_cnpj.py:34-35 | The weight rule cycles from 2 to 9. |
| ValidaCnpj.PesosFollowTheRule | backend/domain/shared/validations/valida_cnpj.py:34-35 | The two literal weight lists are that rule, read right to left. |
| ValidaCnpj.ValidarCnpjCorrect | backend/domain/shared/validations/valida_cnpj.py:17-44 | Accepted exactly when the digits form a valid CNPJ: 14 digits, not all equal, and the last two are the mod-11 check digits of the first 12 and 13. |
| ValidaCnpj.CalcularDigitoIsReference | backend/domain/shared/validations/valida_cnpj.py:28-38 | `calcular_digito` with the literal weights is the check digit of the positional sum. |
| ValidaCnpj.UltimosDigitos | backend/domain/shared/validations/valida_cnpj.py:41 | The f-string comparison of the last two characters is a comparison of digit values. |
| ValidaCnpj.ValidarCnpjIgnoresPunctuation | backend/domain/shared/validations/valida_cnpj.py:17 | A string and its digits get the same verdict. |
| ValidaCnpj.OnlyDigitsFormatarCnpj | backend/domain/shared/validations/valida_cnpj.py:17 | Stripping `XX.XXX.XXX/XXXX-XX` gives back the 14 digits. |
| ValidaCnpj.FormatarCnpjKeepsVerdict | backend/domain/shared/validations/valida_cnpj.py:17 | The printed form gets the verdict of the bare digits. |
| ValidaCnpj.SomaCnpjPrefix | backend/domain/shared/validations/valida_cnpj.py:37-38 | Each check digit depends only on the digits before it. |
| ValidaCnpj.ExemploCnpjReferencia | backend/domain/shared/validations/valida_cnpj.py:28-38 | 11222333000181 is a valid CNPJ (sums 102 and 120, check digits 8 and 1). |
| ValidaCnpj.ExemploCnpjUltimoDigito | backend/domain/shared/validations/valida_cnpj.py:3-44 | With the first 13 digits of 11.222.333/0001-81 fixed, only the final digit 1 is accepted, with or without punctuation. |
| ValidaCnpj.ExemploCnpjAceito | backend/domain/shared/validations/valida_cnpj.py:3-44 | "11.222.333/0001-81" and "11222333000181" are accepted. |
| ValidaCnpj.ExemploCnpjRejeitado | backend/domain/shared/validations/valida_cnpj.py:41-42 | "11222333000180" is refused with "CNPJ inválido.". |
| ValidaIe.ValidarInscricaoEstadual | backend/domain/shared/validations/valida_ie.py:7-30 | Accepted exactly when the string has 8 to 14 digits. Never returns False; a refusal is a `ValidationError`. |
| ValidaIe.ValidarInscricaoEstadualIgnoresPunctuation | backend/domain/shared/validations/valida_ie.py:23 | A string and its digits get the same verdict. |
| ValidaIe.ValidarInscricaoEstadualIgnoresSeparator | backend/domain/shared/validations/valida_ie.py:23 | Inserting a non-digit anywhere does not change the verdict. |
| ValidaIe.ValidarInscricaoEstadualOfDigits | backend/domain/shared/validations/valida_ie.py:26 | A string of digits is accepted exactly when its length is in 8..14. |
| ValidaTelefone.ValidarTelefone | backend/domain/shared/validations/valida_telefone.py:3-23 | Accepted exactly when the string has 10 or 11 digits. Never returns False; a refusal is a `ValidationError`. |
| ValidaTelefone.ValidarTelefoneIgnoresPunctuation | backend/domain/shared/validations/valida_telefone.py:17 | A string and its digits get the same verdict. |
| ValidaTelefone.ValidarTelefoneIgnoresSeparator | backend/domain/shared/validations/valida_telefone.py:17 | Spaces, dashes and parentheses inserted anywhere do not change the verdict. |
| ValidaTelefone.ValidarTelefoneOfDigits | backend/domain/shared/validations/valida_telefone.py:20 | A string of digits is accepted exactly when it has 10 or 11 characters. |
| ValidaTelefone.ExemploTelefone | backend/domain/shared/validations/valida_telefone.py:3-23 | "11987654321" is accepted. |
| Outcomes.Then | backend/domain/marketing/entities/pessoa_juridica.py:90-104 | Running two checks in sequence passes only if both pass. A failure of the first is what is raised; when the first passes, the outcome is the second's. |
| Outcomes.NonEmpty | backend/domain/marketing/entities/pessoa_juridica.py:117-118 | `if not s: raise`: passes exactly for a non-empty string and otherwise raises the given error. |
| IdLists.AddUnique | backend/domain/marketing/entities/pessoa_juridica.py:191-194 | Append-if-absent: membership becomes the old members plus the id, the old list is a prefix, and the length grows by one only for a new id. |
| IdLists.AddUniqueIdempotent | backend/domain/marketing/entities/pessoa_juridica.py:166-167 | Adding the same id twice is adding it once. |
| IdLists.AddUniqueKeepsNoDup | backend/domain/marketing/entities/pessoa_juridica.py:205-208 | Append-if-absent keeps a list free of duplicates. |
| IdLists.RemoveFirst | backend/domain/marketing/entities/pessoa_juridica.py:196-199 | `list.remove` of a present id drops exactly one occurrence (multiset difference); an absent id leaves the list as it is. |
| IdLists.RemoveFirstCutsFirstOccurrence | backend/domain/marketing/entities/pessoa_juridica.py:175-176 | For a list `antes + [x] + depois` with no `x` in `antes`, removing `x` gives `antes + depois`: the first occurrence goes and the rest keeps its order. |
| IdLists.RemoveFirstKeepsNoDup | backend/domain/marketing/entities/pessoa_juridica.py:232-235 | On a duplicate-free list, removal keeps it duplicate-free and removes the id entirely. |
| IdLists.RemoveFirstUndoesAdd | backend/domain/marketing/entities/pessoa_juridica.py:227-235 | Removing an id just added (one that was absent) gives back the original list. |
| PessoaJuridica.CnpjCheck | backend/domain/marketing/entities/pessoa_juridica.py:134-137 | `set_cnpj` passes exactly when `validar_cnpj` accepts. Its refusal is the validator's `ValidationError`, since the `InvalidInputException` branch cannot be reached. |
| PessoaJuridica.IniciadorCheck | backend/domain/marketing/entities/pessoa_juridica.py:182-185 | A falsy initiator (`None` or 0) is refused with "O iniciador deve ser informado.". |
| PessoaJuridica.SituacaoCheck | backend/domain/marketing/entities/pessoa_juridica.py:241-247 | Passes exactly for criada, ativada, inativada and suspensa; anything else raises `ValidationException`. |
| PessoaJuridica.AdministradoresCheck | backend/domain/marketing/entities/pessoa_juridica.py:150-158 | Passes exactly for one or two administrators. The minimum error comes for none, the maximum error for more than two. |
| PessoaJuridica.ConstructionOutcomePasses | backend/domain/marketing/entities/pessoa_juridica.py:90-104 | Construction succeeds exactly when both names are non-empty, the CNPJ is valid, the situation is allowed and there are 1–2 administrators. |
| PessoaJuridica.ConstructionWithoutAdministradores | backend/domain/marketing/entities/pessoa_juridica.py:95-104 | Without an administrator list, an otherwise valid company cannot be built: the minimum rule fires. |
| PessoaJuridica.ConstructionReportsRazaoSocialFirst | backend/domain/marketing/entities/pessoa_juridica.py:91 | An empty razão social is reported before every other problem. |
| PessoaJuridica.AdicionarAdministrador | backend/domain/marketing/entities/pessoa_juridica.py:160-167 | Refused exactly at two or more entries, even for an id already present. Otherwise a present id leaves the list unchanged and an absent one is appended at the end; the list has at most two entries. |
| PessoaJuridica.RemoverAdministrador | backend/domain/marketing/entities/pessoa_juridica.py:169-176 | Refused exactly at one entry or fewer, even for an id not present. Otherwise at least one entry remains, one occurrence is removed, and an absent id changes nothing. |
| PessoaJuridica.AplicarTodasKeepsBounds | backend/domain/marketing/entities/pessoa_juridica.py:150-176 | From one or two administrators, any sequence of additions and removals keeps one or two, and keeps the list duplicate-free. |
| PessoaJuridica.PessoaJuridicaDomain.constructor | backend/domain/marketing/entities/pessoa_juridica.py:90-100 | Every attribute as given; the lists default to `[]`. |
| PessoaJuridica.PessoaJuridicaDomain.Create | backend/domain/marketing/entities/pessoa_juridica.py:50-104 | Raises exactly the first failing check in `__init__`'s order. Otherwise it returns a fresh object satisfying the invariant (valid names, valid CNPJ, allowed situation, 1–2 administrators) and holding the arguments as given, the CNPJ verbatim. |
| PessoaJuridica.PessoaJuridicaDomain.SetRazaoSocial | backend/domain/marketing/entities/pessoa_juridica.py:116-119 | Refuses the empty name and otherwise stores it; the invariant is kept. |
| PessoaJuridica.PessoaJuridicaDomain.SetNomeFantasia | backend/domain/marketing/entities/pessoa_juridica.py:125-128 | Refuses the empty name and otherwise stores it; the invariant is kept. |
| PessoaJuridica.PessoaJuridicaDomain.SetCnpj | backend/domain/marketing/entities/pessoa_juridica.py:134-137 | Stores the CNPJ verbatim only if the validator accepts it; the invariant is kept. |
| PessoaJuridica.PessoaJuridicaDomain.SetInscricaoEstadual | backend/domain/marketing/entities/pessoa_juridica.py:143-144 | Stores the value with no check. |
| PessoaJuridica.PessoaJuridicaDomain.ValidarAdministradores | backend/domain/marketing/entities/pessoa_juridica.py:150-158 | Changes nothing and passes exactly for one or two administrators. |
| PessoaJuridica.PessoaJuridicaDomain.AdicionarAdministradorId | backend/domain/marketing/entities/pessoa_juridica.py:160-167 | The outcome and new list are those of `AdicionarAdministrador`, and a refusal leaves the list unchanged; the invariant is kept. |
| PessoaJuridica.PessoaJuridicaDomain.RemoverAdministradorId | backend/domain/marketing/entities/pessoa_juridica.py:169-176 | The outcome and new list are those of `RemoverAdministrador`, and a refusal leaves the list unchanged; the invariant is kept. |
| PessoaJuridica.PessoaJuridicaDomain.SetIniciadorId | backend/domain/marketing/entities/pessoa_juridica.py:182-185 | Refuses a falsy initiator and otherwise stores it. |
| PessoaJuridica.PessoaJuridicaDomain.AdicionarEndereco | backend/domain/marketing/entities/pessoa_juridica.py:191-194 | The list becomes its append-if-absent. |
| PessoaJuridica.PessoaJuridicaDomain.RemoverEndereco | backend/domain/marketing/entities/pessoa_juridica.py:196-199 | The list loses the first occurrence of the id, if any. |
| PessoaJuridica.PessoaJuridicaDomain.AdicionarAtividadeEconomica | backend/domain/marketing/entities/pessoa_juridica.py:205-208 | The list becomes its append-if-absent. |
| PessoaJuridica.PessoaJuridicaDomain.RemoverAtividadeEconomica | backend/domain/marketing/entities/pessoa_juridica.py:210-213 | The list loses the first occurrence of the id, if any. |
| PessoaJuridica.PessoaJuridicaDomain.SetWebsite | backend/domain/marketing/entities/pessoa_juridica.py:219-221 | Stores any value, `None` included. |
| PessoaJuridica.PessoaJuridicaDomain.AdicionarRedeSocial | backend/domain/marketing/entities/pessoa_juridica.py:227-230 | The list becomes its append-if-absent. |
| PessoaJuridica.PessoaJuridicaDomain.RemoverRedeSocial | backend/domain/marketing/entities/pessoa_juridica.py:232-235 | The list loses the first occurrence of the id, if any. |
| PessoaJuridica.PessoaJuridicaDomain.SetSituacao | backend/domain/marketing/entities/pessoa_juridica.py:241-247 | Stores only one of the four allowed situations. |
| PessoaJuridica.DescricaoOpensWithRazaoSocial | backend/domain/marketing/entities/pessoa_juridica.py:249-258 | `__str__` opens with "Empresa: " followed by the razão social. |
| PessoaJuridica.DescricaoClosesWithAtividades | backend/domain/marketing/entities/pessoa_juridica.py:256-258 | `__str__` ends with the Python repr of the list of economic activities. |
| Texts.ListRepr | backend/domain/marketing/entities/pessoa_juridica.py:257 | The repr of a list of ints is bracketed, and is `[]` exactly for the empty list. |
| Texts.JoinAppend | backend/domain/marketing/entities/pessoa_juridica.py:257 | Joining with ", ": appending a piece adds ", " and the piece, with no separator before the first. |
| Texts.JoinIntsAppend | backend/domain/marketing/entities/pessoa_juridica.py:257 | Appending an item adds ", " and the item's text after the items already there, with no separator before the first item. |
| Texts.ListReprAppend | backend/domain/marketing/entities/pessoa_juridica.py:257 | `str(xs + [x])` is `str(xs)` with its closing bracket replaced by ", " (nothing for an empty list), the text of `x` and "]": the items appear in order, separated by ", ". |
| Texts.ListReprSingle | backend/domain/marketing/entities/pessoa_juridica.py:257 | A one-item list prints as `[` + the item + `]`. |
| Texts.NatToStringRoundTrip | backend/domain/marketing/entities/atividade_economica.py:69 | The decimal text of a natural number is all digits, with no leading zero, and reads back as the number. |
| Texts.IntToStringSign | backend/domain/marketing/entities/atividade_economica.py:69 | The text of an int is non-empty and starts with '-' exactly for a negative number. |
| PessoaFisica.EmailCheck | backend/domain/marketing/entities/pessoa_fisica.py:134-137 | Passes exactly when the e-mail validator accepts; otherwise raises `InvalidEmailException`. |
| PessoaFisica.DataNascimentoCheck | backend/domain/marketing/entities/pessoa_fisica.py:143-146 | Only a present date is checked; an invalid one raises `InvalidDateException`. |
| PessoaFisica.DataAusenteDispensaValidador | backend/domain/marketing/entities/pessoa_fisica.py:144 | An absent birth date passes, whatever the date validator says. |
| PessoaFisica.CpfCheck | backend/domain/marketing/entities/pessoa_fisica.py:152-155 | Passes exactly when `validar_cpf` accepts, and its refusal is the validator's own `ValidationError`. |
| PessoaFisica.TelefoneCheck | backend/domain/marketing/entities/pessoa_fisica.py:161-164 | Passes exactly when `validar_telefone` accepts, and its refusal is the validator's own `ValidationError`. |
| PessoaFisica.SituacaoProjetoCheck | backend/domain/marketing/entities/pessoa_fisica.py:179-183 | Passes exactly for "ativo" and "sem_projeto". |
| PessoaFisica.ConstructionOutcomePasses | backend/domain/marketing/entities/pessoa_fisica.py:90-107 | With line 100 corrected to store `ultimo_login` through `set_ultimo_login` (see Findings): construction succeeds exactly when both names are non-empty, the e-mail is valid, the date is absent or valid, the CPF and phone are valid, and the project situation is allowed. |
| PessoaFisica.ConstructionOrder | backend/domain/marketing/entities/pessoa_fisica.py:91-96 | An empty first name is reported first. With the names set, a bad e-mail is reported before the rest. With names, e-mail and date passing, a bad CPF is reported with the CPF validator's error, whatever the phone. |
| PessoaFisica.ConstructionAsWrittenNeverSucceeds | backend/domain/marketing/entities/pessoa_fisica.py:90-107 | As written, `__init__` refuses every input. It raises `AttributeError` exactly when the six setter checks of lines 91-96 pass, whatever `situacao_projeto` is; otherwise it reports the same first failure as the corrected constructor. |
| PessoaFisica.ConstructionAsWrittenExemplo | backend/domain/marketing/entities/pessoa_fisica.py:90-107 | For Ana Souza, with an accepted e-mail, CPF 529.982.247-25 and phone 11987654321, the corrected constructor passes and the one as written raises `AttributeError`. With `situacao_projeto` "x", the corrected one raises the situation error. |
| PessoaFisica.PessoaFisicaDomain.CreateAsWritten | backend/domain/marketing/entities/pessoa_fisica.py:46-107 | `PessoaFisicaDomain(...)` as written never returns an object: its error is the first failing setter check, or `AttributeError` from line 100. |
| PessoaFisica.PessoaFisicaDomain.constructor | backend/domain/marketing/entities/pessoa_fisica.py:90-107 | The object the corrected `__init__` builds (see Findings): every attribute as given, the lists defaulting to `[]`, and the age attributes the age service creates absent (`None`). |
| PessoaFisica.PessoaFisicaDomain.Create | backend/domain/marketing/entities/pessoa_fisica.py:46-107 | The corrected constructor (see Findings). Raises exactly the first failing check in `__init__`'s order. Otherwise it returns a fresh object satisfying the invariant, with a valid e-mail and every argument as given (CPF and phone verbatim). |
| PessoaFisica.PessoaFisicaDomain.SetPrimeiroNome | backend/domain/marketing/entities/pessoa_fisica.py:116-119 | Refuses the empty name and otherwise stores it; the invariant is kept. |
| PessoaFisica.PessoaFisicaDomain.SetSobrenome | backend/domain/marketing/entities/pessoa_fisica.py:125-128 | Refuses the empty name and otherwise stores it; the invariant is kept. |
| PessoaFisica.PessoaFisicaDomain.SetEmail | backend/domain/marketing/entities/pessoa_fisica.py:134-137 | Stores the e-mail only if the validator accepts it. |
| PessoaFisica.PessoaFisicaDomain.SetDataNascimento | backend/domain/marketing/entities/pessoa_fisica.py:143-146 | Stores an absent date, or a present one that the validator accepts. |
| PessoaFisica.PessoaFisicaDomain.SetCpf | backend/domain/marketing/entities/pessoa_fisica.py:152-155 | Stores the CPF verbatim only if valid; the invariant is kept. |
| PessoaFisica.PessoaFisicaDomain.SetTelefone | backend/domain/marketing/entities/pessoa_fisica.py:161-164 | Stores the phone verbatim only if valid; the invariant is kept. |
| PessoaFisica.PessoaFisicaDomain.SetUltimoLogin | backend/domain/marketing/entities/pessoa_fisica.py:170-171 | Stores any value. |
| PessoaFisica.PessoaFisicaDomain.SetSituacaoProjeto | backend/domain/marketing/entities/pessoa_fisica.py:179-183 | Stores only an allowed situation; the invariant is kept. |
| PessoaFisica.PessoaFisicaDomain.AtualizarSituacaoProjeto | backend/domain/marketing/entities/pessoa_fisica.py:185-192 | Never raises: sets "ativo" or "sem_projeto" according to the flag, and keeps the invariant. |
| Endereco.CepCheck | backend/domain/marketing/entities/endereco.py:135-138 | Passes exactly for a CEP of 8 characters, of any kind. |
| Endereco.TipoCheck | backend/domain/marketing/entities/endereco.py:153-156 | Passes exactly for residencial, comercial and correspondencia. |
| Endereco.ConstructionOutcomePasses | backend/domain/marketing/entities/endereco.py:70-77 | Construction succeeds exactly when street, number, district, city, state and country are non-empty, the CEP has 8 characters and the type is allowed. |
| Endereco.ConstructionOrder | backend/domain/marketing/entities/endereco.py:70-77 | The first failing setter in the constructor's order is the error reported. |
| Endereco.PadroesAceitos | backend/domain/marketing/entities/endereco.py:52-56 | The default country and type pass their checks. |
| Endereco.CepSemNormalizacao | backend/domain/marketing/entities/endereco.py:135-138 | The CEP is not normalised: "01310-100" is refused and "abcdefgh" is accepted. |
| Endereco.DescricaoLayout | backend/domain/marketing/entities/endereco.py:158-162 | `__str__` starts with the street, ", " and the number, and ends with the country. Its length is the fields plus nine separator characters. |
| Endereco.EnderecoDomain.constructor | backend/domain/marketing/entities/endereco.py:60-82 | Every attribute as given. |
| Endereco.EnderecoDomain.Create | backend/domain/marketing/entities/endereco.py:44-82 | Raises exactly the first failing setter in the constructor's order. Otherwise it returns a fresh valid address with every argument as given; `data_inicio` defaults to the current time. |
| Endereco.EnderecoDomain.SetRua | backend/domain/marketing/entities/endereco.py:90-93 | Refuses an empty street and otherwise stores it; the invariant is kept. |
| Endereco.EnderecoDomain.SetNumero | backend/domain/marketing/entities/endereco.py:99-102 | Refuses an empty number and otherwise stores it; the invariant is kept. |
| Endereco.EnderecoDomain.SetBairro | backend/domain/marketing/entities/endereco.py:108-111 | Refuses an empty district and otherwise stores it; the invariant is kept. |
| Endereco.EnderecoDomain.SetCidade | backend/domain/marketing/entities/endereco.py:117-120 | Refuses an empty city and otherwise stores it; the invariant is kept. |
| Endereco.EnderecoDomain.SetEstado | backend/domain/marketing/entities/endereco.py:126-129 | Refuses an empty state and otherwise stores it; the invariant is kept. |
| Endereco.EnderecoDomain.SetCep | backend/domain/marketing/entities/endereco.py:135-138 | Stores only a CEP of 8 characters; the invariant is kept. |
| Endereco.EnderecoDomain.SetPais | backend/domain/marketing/entities/endereco.py:144-147 | Refuses an empty country and otherwise stores it; the invariant is kept. |
| Endereco.EnderecoDomain.SetTipo | backend/domain/marketing/entities/endereco.py:153-156 | Stores only an allowed type; the invariant is kept. |
| AtividadeEconomica.CodigoCheck | backend/domain/marketing/entities/atividade_economica.py:48-54 | Passes exactly for a 7-character code. An empty code gets the emptiness error, and any other length gets the length error. |
| AtividadeEconomica.CodigoAntesDaDescricao | backend/domain/marketing/entities/atividade_economica.py:33-34 | A bad code is reported before an empty description. |
| AtividadeEconomica.DescricaoLayout | backend/domain/marketing/entities/atividade_economica.py:62-70 | `__str__` opens with the class name and the id (`None` when absent), and closes with the description and ")". |
| AtividadeEconomica.AtividadeEconomicaDomain.Vazia | backend/domain/marketing/entities/atividade_economica.py:30-32 | The object before the setters run. |
| AtividadeEconomica.AtividadeEconomicaDomain.Create | backend/domain/marketing/entities/atividade_economica.py:21-34 | Raises the code error before the description error. Otherwise it returns a valid object holding the arguments. |
| AtividadeEconomica.AtividadeEconomicaDomain.SetCodigo | backend/domain/marketing/entities/atividade_economica.py:48-54 | Stores only a 7-character code; the invariant is kept. |
| AtividadeEconomica.AtividadeEconomicaDomain.SetDescricao | backend/domain/marketing/entities/atividade_economica.py:56-60 | Refuses the empty description; the invariant is kept. |
| Profissao.DescricaoLayout | backend/domain/marketing/entities/profissao.py:56-63 | `__str__` is "Profissão: ", then the code, then the separator, then the description. |
| Profissao.ProfissaoDomain.Vazia | backend/domain/marketing/entities/profissao.py:30 | The object before the setters run. |
| Profissao.ProfissaoDomain.Create | backend/domain/marketing/entities/profissao.py:20-32 | The code is checked before the description. Otherwise it returns a valid object holding the arguments. |
| Profissao.ProfissaoDomain.SetCodigo | backend/domain/marketing/entities/profissao.py:39-43 | Refuses the empty code; the invariant is kept. |
| Profissao.ProfissaoDomain.SetDescricao | backend/domain/marketing/entities/profissao.py:50-54 | Refuses the empty description; the invariant is kept. |
| RedeSocial.DescricaoLayout | backend/domain/shared/resources/entities/rede_social.py:56-63 | `__str__` is "Rede Social: ", then the name, then the separator, then the icon. |
| RedeSocial.RedeSocialDomain.Vazia | backend/domain/shared/resources/entities/rede_social.py:30 | The object before the setters run. |
| RedeSocial.RedeSocialDomain.Create | backend/domain/shared/resources/entities/rede_social.py:21-32 | The name is checked before the icon. Otherwise it returns a valid object holding the arguments. |
| RedeSocial.RedeSocialDomain.SetNome | backend/domain/shared/resources/entities/rede_social.py:39-43 | Refuses the empty name; the invariant is kept. |
| RedeSocial.RedeSocialDomain.SetIcone | backend/domain/shared/resources/entities/rede_social.py:50-54 | Refuses the empty icon; the invariant is kept. |
| UsuarioTipo.DescricaoOuPadrao | backend/domain/marketing/entities/usuario_tipo.py:53 | `descricao or 'Sem descrição'`: `None` and "" give the default text; anything else is itself. |
| UsuarioTipo.DescricaoLayout | backend/domain/marketing/entities/usuario_tipo.py:46-53 | `__str__` shows the label and the name, and ends with the description or with "Sem descrição". |
| UsuarioTipo.UsuarioTipoDomain.Vazia | backend/domain/marketing/entities/usuario_tipo.py:31 | The object before the setter runs. |
| UsuarioTipo.UsuarioTipoDomain.Create | backend/domain/marketing/entities/usuario_tipo.py:22-33 | Raises exactly for an empty name. Otherwise it returns a valid object holding the arguments, with the description unchecked. |
| UsuarioTipo.UsuarioTipoDomain.SetNome | backend/domain/marketing/entities/usuario_tipo.py:40-44 | Refuses the empty name; the invariant is kept. |
| Produto.TipoCheck | backend/domain/marketing/entities/produto.py:47-50 | `if not tipo_produto_id` refuses only a missing UUID. |
| Produto.DescricaoLayout | backend/domain/marketing/entities/produto.py:52-53 | `__str__` shows "Produto: " and the name, and ends with the id and ")". |
| Produto.ProdutoDomain.constructor | backend/domain/marketing/entities/produto.py:17-21 | Stores every argument with no check, an empty name or a missing type included. |
| Produto.ProdutoDomain.SetNome | backend/domain/marketing/entities/produto.py:39-42 | Refuses the empty name and otherwise stores it. |
| Produto.ProdutoDomain.SetDescricao | backend/domain/marketing/entities/produto.py:44-45 | Stores any description. |
| Produto.ProdutoDomain.SetTipoProdutoId | backend/domain/marketing/entities/produto.py:47-50 | Stores only a present type id. |
| Categoria.NovaCategoria | backend/domain/shared/plugins/entities/categoria.py:13-22 | Built exactly from a non-empty string, and holds it, so every built category is `Valida`; the empty string raises `ValueError`. |
| Categoria.IgualPorValor | backend/domain/shared/plugins/entities/categoria.py:33-45 | Not equal to a non-`Categoria`. Two categories are equal exactly when their text is equal. |
| Categoria.IgualEquivalencia | backend/domain/shared/plugins/entities/categoria.py:33-45 | `__eq__` is reflexive, symmetric and transitive. |
| Categoria.NovaCategoriaRoundTrip | backend/domain/shared/plugins/entities/categoria.py:13-56 | A built category prints as its text, and two built ones are equal exactly when built from the same text. |
| AtivarPessoaJuridica.DecidirCasos | backend/domain/marketing/domain_service/ativar_pessoa_juridica.py:33-57 | A missing company raises not-found. An active one answers `ja_ativa` whatever its administrators. An inactive one is activated exactly when it has two administrators, and otherwise raises the business-rule error. |
| AtivarPessoaJuridica.AtivacaoIdempotente | backend/domain/marketing/domain_service/ativar_pessoa_juridica.py:39-47 | After an activation, running the service again answers `ja_ativa`. |
| AtivarPessoaJuridica.Repositorio.GetById | backend/domain/marketing/domain_service/ativar_pessoa_juridica.py:33 | Returns the stored account, or `None` for an unknown id, as the abstract repository contract `PessoaJuridicaContract.get_by_id` promises. |
| AtivarPessoaJuridica.AsWrittenNeverActivates | backend/domain/marketing/domain_service/ativar_pessoa_juridica.py:33-57 | As written, the service never answers `ativada`. It answers only when the object it reads carries an `ativa` attribute set to true, and then it gives `ja_ativa` as `Decidir` does. A false `ativa` reaches line 46, where `count()` with no argument raises `TypeError`. |
| AtivarPessoaJuridica.AsWrittenOnDomain | backend/domain/marketing/domain_service/ativar_pessoa_juridica.py:35-39 | For every `PessoaJuridicaDomain` object that a repository honouring the contract returns, line 39 raises `AttributeError`, because the class has no `ativa` attribute. With administrators [1, 2] the corrected rule activates instead. |
| AtivarPessoaJuridica.ExecutarAsWritten | backend/domain/marketing/domain_service/ativar_pessoa_juridica.py:21-39 | With a repository honouring the contract, `executar()` as written always raises. An unknown id gets not-found, and any `PessoaJuridicaDomain` object returned gets `AttributeError`. It never writes. |
| AtivarPessoaJuridica.Executar | backend/domain/marketing/domain_service/ativar_pessoa_juridica.py:21-57 | The corrected service (see Findings): it reads the activation state of the stored account and counts administrators with `len`. The answer is `Decidir` of that account. Only an activation writes: it sets `ativa` and makes exactly one `save`. Every other outcome leaves the repository untouched. |
| Idade.CalcularIdade | backend/domain/shared/utils/calcular_idade.py:6-28 | `None` gives no age. Otherwise years and months are present, the months are in 0..11, and years×12 + months is the number of calendar months elapsed. |
| Idade.CalcularIdadeDivMod | backend/domain/shared/utils/calcular_idade.py:19-28 | Years and months are the quotient and remainder of the months elapsed divided by 12. |
| Idade.CalcularIdadeIgnoresDay | backend/domain/shared/utils/calcular_idade.py:20-21 | Two birth dates in the same month give the same age. |
| CalcularIdadeTitular.CalcularIdade | backend/domain/marketing/domain_service/calcular_idade_titular.py:12-27 | Returns the same person. Without a birth date nothing changes. Otherwise it records the years and months of `calcular_idade`: months in 0..11 and years×12 + months = months elapsed. |
| IdadeAdmin.IdadeEmAnos | backend/infrastructure/admin/marketing/pessoa_fisica.py:83-92 | `None` without a birth date. The age is one less than the year difference exactly when this year's birthday is still to come, and equals it on the birthday. |
| IdadeAdmin.IdadeEmMeses | backend/infrastructure/admin/marketing/pessoa_fisica.py:94-100 | `None` without a birth date; otherwise the calendar months elapsed, with no correction for the day. |
| IdadeAdmin.IdadeEmAnosFromMeses | backend/infrastructure/admin/marketing/pessoa_fisica.py:83-100 | The admin years are the admin months divided by 12, less one in the birth month before the birthday. |
| IdadeAdmin.AdminAgreesWithCalcularIdade | backend/infrastructure/admin/marketing/pessoa_fisica.py:83-100 | The admin columns agree with `calcular_idade`: the same months elapsed, and the same years except in the birth month before the birthday. |
| SoftDelete.ExcluirMarca | backend/infrastructure/mixins/softdelete.py:72-75 | `delete` marks the record and stamps the time. The user is recorded only when authenticated; otherwise the previous one is kept. |
| SoftDelete.RestaurarDesfazExcluir | backend/infrastructure/mixins/softdelete.py:51-86 | `restore` after `delete` gives back the declared defaults, from any state, and `restore` is idempotent. |
| SoftDelete.SoftDeleteMixin.constructor | backend/infrastructure/mixins/softdelete.py:51-53 | A new record has the declared defaults. |
| SoftDelete.SoftDeleteMixin.Delete | backend/infrastructure/mixins/softdelete.py:63-76 | The fields become the deleted state, and the record is saved exactly once. |
| SoftDelete.SoftDeleteMixin.Restore | backend/infrastructure/mixins/softdelete.py:78-86 | The fields are cleared, and the record is saved exactly once. |
| Inactivate.ReativarDesfazInativar | backend/infrastructure/mixins/inactivate.py:22-39 | `reativar` after `inativar` gives back the defaults, and `reativar` is idempotent. An inactive record carries its inactivation time; a reactivated one is active with no time. |
| Inactivate.InactivateMixin.constructor | backend/infrastructure/mixins/inactivate.py:22-23 | A new record is active and was never inactivated. |
| Inactivate.InactivateMixin.Inativar | backend/infrastructure/mixins/inactivate.py:25-31 | Inactive, with the time, and saved exactly once. |
| Inactivate.InactivateMixin.Reativar | backend/infrastructure/mixins/inactivate.py:33-39 | Active, with no time, and saved exactly once. |
| Audit.RegistrarCasos | backend/infrastructure/mixins/audit.py:54-58 | No user, or an unauthenticated one, changes nothing. A record without a key (`None` or 0) gets the user in both fields; an existing record gets it only in `updated_by`. |
| Audit.AuditMixin.constructor | backend/infrastructure/mixins/audit.py:30-43 | A new record has no author fields and no parent calls. |
| Audit.AuditMixin.Save | backend/infrastructure/mixins/audit.py:45-60 | The author fields follow the rule with the user popped from kwargs, judged on the key before the call. The parent `save` is called exactly once, with the same positional arguments and the keyword arguments minus `user`. A record whose key is `None` gets the key the database assigns, which is nonzero. Any key already set, 0 included, is kept. |
| Audit.CriadorFixado | backend/infrastructure/mixins/audit.py:54-60 | Once a record has a nonzero key, no series of saves changes its `created_by`. |
| Audit.CriadorEhPrimeiroUsuario | backend/infrastructure/mixins/audit.py:54-60 | A record whose key is `None`, first saved by an authenticated user, keeps that user as `created_by` through every later save, whoever makes it. |
| Audit.ChaveZeroSobrescreveCriador | backend/infrastructure/mixins/audit.py:54-60 | A record keyed 0 keeps the key 0, so the rule treats every save as a new record. Its `created_by` after a series of saves is the last authenticated user, or the previous creator when there is none. |
| Audit.UltimoAutenticadoAppend | backend/infrastructure/mixins/audit.py:54-58 | When the last save of a series is authenticated, its user is the creator a record keyed 0 ends with. |
| Audit.ChaveZeroSegundoUsuario | backend/infrastructure/mixins/audit.py:54-60 | Two authenticated saves: a record keyed 0 ends with the second user as `created_by`, while a record keyed `None` keeps the first. |
| SoftDeleteManager.FiltrarMembros | backend/infrastructure/mixins/manager.py:23 | A row is in the filtered queryset exactly when it is in the table with the requested `is_deleted`. |
| SoftDeleteManager.FiltrarConcat | backend/infrastructure/mixins/manager.py:23-30 | Filtering keeps table order: filtering a concatenation is the concatenation of the filtered parts. |
| SoftDeleteManager.Disjuntos | backend/infrastructure/mixins/manager.py:18-30 | `get_queryset` holds only live rows and `deleted` only deleted ones; every row of the table is in exactly one of them. |
| SoftDeleteManager.Particao | backend/infrastructure/mixins/manager.py:18-36 | Together, the two querysets are exactly `with_deleted`, as multisets. |
| SoftDeleteManager.ExcluirMove | backend/infrastructure/mixins/manager.py:18-30 | Deleting a live row moves it from `get_queryset` to `deleted`, at its place, and every other row stays where it was. |
| SoftDeleteManager.RestaurarMove | backend/infrastructure/mixins/manager.py:18-30 | Restoring a deleted row moves it back into `get_queryset`, at its place. |

## Left out

- `validar_email` and `validar_data_nascimento` are not part of this model. `PessoaFisica` takes them as the parameters `emailValido` and `dataValida`.
- The clock (`date.today()`, `datetime.now()`, `now()`) is a parameter: `hoje` or `agora`.
- Django's `save()` is abstracted. The mixins count its calls, the audit mixin logs the arguments of the parent call, and the activation repository logs each `(id, account)` it saves.
- A database query is modelled as a filter of a table held as a sequence of rows. The manager's laziness, ordering clauses and database access are not modelled.
- `PessoaJuridicaDomain` holds its related entities (administrators, addresses, activities, social networks) as lists of integer ids, and the model does the same. `PessoaFisicaDomain` holds objects: `enderecos` is a list of `EnderecoDomain`, `redes_sociais` a list of `RedeSocialDomain` and `localizacao_criacao` a `LocalizacaoDomain`. The model abstracts these to integer ids (`seq<int>`, `Option<int>`).
- Lists are copied by value. In the source, `x or []` stores the caller's own list object, and the getters hand that same object out. Whoever holds it can change the list without the entity's checks, for example by appending a third administrator. The model's bound of one or two administrators therefore holds only against the entity's own methods, and aliasing is not modelled.
- The digit filter keeps ASCII `0`–`9` only. Python's `str.isdigit` also accepts other Unicode digits, which are not modelled.
- `PessoaFisicaDomain.associar_usuario_rede_social`, `remover_usuario_rede_social` and `__str__` are left out. They use `RedeSocialDomain` objects as dictionary keys, which the id-list model does not represent.
- PessoaFisica.PessoaFisicaDomain.Create and Endereco.EnderecoDomain.Create compose the setters' check functions in the constructor's order rather than calling the setter methods one after another; each setter is proved separately against the same check function.
- PessoaJuridica.PessoaJuridicaDomain.Create likewise composes the check functions rather than calling the setter methods.
- AtivarPessoaJuridica.Executar models the corrected service of the Findings row. It reads an `ativa` flag from the stored account and takes the administrator count to be the list length. As written, the service never answers `ja_ativa` or `ativada` for a `PessoaJuridicaDomain` object that a repository honouring the contract returns. Line 39 raises `AttributeError`, and even an object that did carry `ativa = False` would raise `TypeError` at line 46. That behaviour is `ExecutarAsWritten`.
- AtivarPessoaJuridica.Repositorio follows the abstract contract `PessoaJuridicaContract.get_by_id` (`domain/marketing/repositories/pessoa_juridica.py`, lines 29-40): the stored entity, or `None` when not found. The concrete `PessoaJuridicaRepository` differs in two ways.
  - An unknown id makes it raise `EntityNotFoundException` itself, with its own message "Pessoa Jurídica com ID {id} não encontrada." (`infrastructure/repositories/marketing/pessoa_juridica.py`, line 55).
  - A found id makes it raise `TypeError`, because `_model_to_domain` passes `id=` to a constructor whose parameter is `pessoa_juridica_id` (same file, lines 226-227).

  With that repository, `executar()` stops at line 33 and never reaches line 39. Neither behaviour is modelled.
- The `ativa` flag and the administrator list of a stored company are the only parts of the entity the activation service sees; the rest of the entity is not stored in its repository.
- Audit.UsuarioDe: a value under the `user` keyword that is not a user object is read as no user.
- A UUID is modelled by its text; the `UUID` type itself is not modelled.
- The `Produto` getters are the class fields themselves.
- Audit.AuditMixin.Save takes the key the parent `save` assigns to a record whose key is `None` as the parameter `novaChave`. That key is never 0, because a database-assigned automatic key is never 0. A record given the explicit key 0 keeps it, as Django's `save` does. A backend that refuses the key 0 for an automatic field is not modelled. Other effects of the parent `save` (the database write, `save` hooks, failures) are not modelled.
- ConstructionOutcomePasses (`PessoaFisica.ConstructionOutcomePasses`) states the corrected constructor. The constructor as written never succeeds; that behaviour is `ConstructionAsWrittenNeverSucceeds` (see Findings).
- constructor (`PessoaFisica.PessoaFisicaDomain.constructor`) builds the object the corrected `__init__` builds. As written, no object is built: see `CreateAsWritten` under Findings.
- PessoaFisica.PessoaFisicaDomain: `idadeAnos` and `idadeMeses` are declared fields that start at `None`. `PessoaFisicaDomain` declares no such attributes: the age service (`calcular_idade_titular.py`, lines 25-26) creates them on the object, and only when there is a birth date. Until then, reading them in Python raises `AttributeError`, which the model represents as `None`.
- Categoria.IgualPorValor and Categoria.IgualEquivalencia are proved for every `Categoria` value, including `Categoria("")`, which the source cannot build. The values the source builds are those satisfying `Categoria.Valida`, and `NovaCategoria` is proved to yield only those.
- The `created_at` and `updated_at` timestamps of `AuditMixin` are set by the database and are not modelled.
- `MixinBase` and the `Meta` options are not part of this model.

## Findings

| source | as written | input that shows it | evidently intended | confidence | as-written member | corrected member |
|---|---|---|---|---|---|---|
| backend/domain/marketing/entities/pessoa_fisica.py:100 | `self.ultimo_login = ultimo_login` assigns to `ultimo_login`, a property with a getter and no setter (lines 166-168). The assignment raises `AttributeError`, so `__init__` never completes once the six setter checks pass, and the `situacao_projeto` check of line 106 is never reached. | `PessoaFisicaDomain(primeiro_nome="Ana", sobrenome="Souza", email="ana@exemplo.com.br", cpf="529.982.247-25", telefone="11987654321")`, the other arguments at their defaults, with an e-mail the validator accepts | Store the value through `set_ultimo_login` (lines 170-171), so that the constructor holds every argument and reports an invalid `situacao_projeto` | high; not executed | PessoaFisica.ConstructionAsWrittenNeverSucceeds, PessoaFisica.ConstructionAsWrittenExemplo, PessoaFisica.PessoaFisicaDomain.CreateAsWritten | PessoaFisica.ConstructionOutcomePasses, PessoaFisica.PessoaFisicaDomain.Create |
| backend/domain/marketing/domain_service/ativar_pessoa_juridica.py:39 | `pessoa_juridica.ativa` is read from the `PessoaJuridicaDomain` object that `get_by_id` returns (`domain/marketing/repositories/pessoa_juridica.py`, line 29). The class has no `ativa` attribute, so line 39 raises `AttributeError` for every such object a repository honouring that contract returns. Line 46 would next call `administradores.count()` with no argument, which raises `TypeError` on a list. | `executar()` for the id of an inactive company stored with administrators [1, 2] | Read the account's activation state, and count the administrators with `len(pessoa_juridica.administradores)` | medium; not executed | AtivarPessoaJuridica.AsWrittenNeverActivates, AtivarPessoaJuridica.AsWrittenOnDomain, AtivarPessoaJuridica.ExecutarAsWritten | AtivarPessoaJuridica.DecidirCasos, AtivarPessoaJuridica.Executar |
