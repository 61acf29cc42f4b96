# Child support backend: domain, mapper and use cases

This project models the core of a school-support backend for autistic children. The domain has three layers.

- **The child aggregate.** Each child (`Crianca`) has a birth date, an autism (TEA) degree, a support degree, an optional school and a list of guardians. It owns three lists: crisis records (`RegistroCrise`), support requests (`PedidoSuporte`) and interventions (`Intervencao`). The aggregate keeps two invariants:
  1. at most one crisis is unresolved, that is, has its effectiveness unset;
  2. support requests exist only while some crisis is unresolved.
- **The value objects and the other entities.** Crisis intensity, TEA degree, support degree, risk level, profile type and request status are enumerations parsed from strings. The rest are the birth date, e-mail and password, the user, the calendar event, the school environment and a child's sensory personalization.
- **The application layer:**
  - the persistence mapper of the aggregate, in both directions;
  - the SOS button (`SolicitarSuporte`);
  - crisis history keeping (`ManterHistoricoCrise`);
  - creating, viewing, editing and deleting a child, each with its role rules;
  - viewing and updating the sensory personalization;
  - the pure pre-checks of the password hasher and the JWT service.

Entities the source changes in place are Dafny classes whose mutable fields are `var`s. Their methods carry `modifies` clauses. Value objects and users are datatypes. The aggregate is a datatype holding references to its entity objects, so its invariants are predicates over the heap. Repositories are classes holding maps, and use cases are methods over them.

Factories that throw in the source return `Result` or `Outcome` here. The error messages are the source's own.

Wall-clock reads ("now", "today") are parameters. Generated ids come from an oracle object, `GeradorIds`, which never repeats an id.

Every module is in its own file. `base.dfy` holds the shared helpers: options, results, JavaScript's blank-string test, ASCII upper-casing, number rendering and `split`.

## Model

| member | source | states |
|---|---|---|
| ObjetoDeValor.Iguais | src/domain/value-objects/ValueObject.ts:4-12 | value equality is false for a missing argument and otherwise true exactly when the equality components coincide |
| ObjetoDeValor.IguaisReflexiva | src/domain/value-objects/ValueObject.ts:4-12 | every value equals itself |
| ObjetoDeValor.IguaisSimetrica | src/domain/value-objects/ValueObject.ts:4-12 | value equality is symmetric |
| ObjetoDeValor.IguaisTransitiva | src/domain/value-objects/ValueObject.ts:4-12 | value equality is transitive |
| Entidade.IdAtribuido | src/domain/entities/Entity.ts:6-8 | a supplied non-empty id is kept; an absent or empty one is replaced by the generated id |
| Entidade.MesmaEntidade | src/domain/entities/Entity.ts:14-19 | two entities are equal exactly when the other exists and has the same id |
| Entidade.GeradorIds.Novo | src/domain/entities/Entity.ts:7 | each generated id is non-empty and was never issued before |
| Entidade.AtribuirId | src/domain/entities/Entity.ts:6-8 | the entity constructor keeps a supplied non-empty id, and otherwise draws a new id from the oracle |
| Base.ComprimentoUtf16 | src/domain/value-objects/Senha.ts:26 | `length` counts UTF-16 code units: at least one and at most two per character, and zero only for the empty string |
| Base.ComprimentoUtf16Basico | src/infrastructure/security/PasswordHasher.ts:44-48 | a string with no character above U+FFFF has as many code units as characters |
| Base.ComprimentoUtf16Concat | src/infrastructure/security/PasswordHasher.ts:44-48 | the code units of a concatenation are the sum of its parts' |
| Base.MaiusculaAscii | src/domain/value-objects/Intensidade.ts:29-35 | upper-casing one character maps a lower-case ASCII letter to its capital and leaves every other character alone |
| Base.Maiusculas | src/domain/value-objects/Intensidade.ts:29-35 | `toUpperCase` keeps the length and upper-cases each character in place |
| Base.MaiusculasSemMinusculas | src/domain/value-objects/Intensidade.ts:29-35 | a string without lower-case letters is its own upper-case form, so each enumeration's name parses back |
| Base.MaiusculasIdempotente | src/domain/value-objects/Intensidade.ts:29-35 | upper-casing twice is the same as upper-casing once |
| Base.TextoDeInteiro | src/domain/value-objects/DataNascimento.ts:12-29 | the decimal rendering of the age bound in the error message is never empty |
| Base.Dividir | src/infrastructure/security/JwtService.ts:80-86 | `split` on one separator always yields at least one piece |
| Base.JuntarDividir | src/infrastructure/security/JwtService.ts:80-86 | joining the pieces of a split gives the string back, and no piece contains the separator |
| Base.DividirJuntar | src/infrastructure/security/JwtService.ts:80-86 | splitting a join of separator-free pieces gives back those pieces |
| Base.DividirSemSeparador | src/infrastructure/security/JwtService.ts:80-86 | a string without the separator splits into itself alone |
| Base.DividirPrefixo | src/infrastructure/security/JwtService.ts:80-86 | splitting `p + sep + t`, when `p` has no separator, gives `p` followed by the pieces of `t` |
| Enumeracoes.IntensidadeDaCrise.Nome | src/domain/value-objects/Intensidade.ts:3-7 | an intensity's string value is one of the enum's values and has no lower-case letter |
| Enumeracoes.IntensidadeFromString | src/domain/value-objects/Intensidade.ts:29-35 | parsing succeeds exactly when the upper-cased input is BAIXA, MEDIA or ALTA, and yields the value of that name; otherwise it fails with "Intensidade inválida: " and the input |
| Enumeracoes.IntensidadeRoundTrip | src/domain/value-objects/Intensidade.ts:29-35 | parsing an intensity's name gives that intensity back |
| Enumeracoes.IntensidadeEquals | src/domain/value-objects/Intensidade.ts:41-45 | intensities are equal exactly when the other one is present and the same value |
| Enumeracoes.GrauTEA.Nome | src/domain/value-objects/GrauTEA.ts:3-7 | a TEA degree's string value is one of the enum's values and has no lower-case letter |
| Enumeracoes.GrauTEAFromString | src/domain/value-objects/GrauTEA.ts:29-35 | parsing succeeds exactly for LEVE, MODERADO or SEVERO in any case, yielding the value of that name, and otherwise fails with the source's message |
| Enumeracoes.GrauTEARoundTrip | src/domain/value-objects/GrauTEA.ts:29-35 | parsing a degree's name gives that degree back |
| Enumeracoes.GrauTEAEquals | src/domain/value-objects/GrauTEA.ts:41-45 | TEA degrees are equal exactly when the other is present and the same |
| Enumeracoes.GrauSuporte.Nome | src/domain/value-objects/GrauSuporte.ts:3-7 | a support degree's string value is one of the enum's values and has no lower-case letter |
| Enumeracoes.GrauSuporteFromString | src/domain/value-objects/GrauSuporte.ts:29-37 | parsing succeeds exactly for NIVEL_1, NIVEL_2 or NIVEL_3 in any case, and otherwise fails with the message that lists the accepted values |
| Enumeracoes.GrauSuporteRoundTrip | src/domain/value-objects/GrauSuporte.ts:29-37 | parsing a support degree's name gives it back |
| Enumeracoes.GrauSuporteEquals | src/domain/value-objects/GrauSuporte.ts:43-47 | support degrees are equal exactly when the other is present and the same |
| Enumeracoes.NivelRisco.Nome | src/domain/value-objects/NivelRisco.ts:3-7 | a risk level's string value is one of the enum's values and has no lower-case letter |
| Enumeracoes.NivelRiscoFromString | src/domain/value-objects/NivelRisco.ts:29-35 | parsing succeeds exactly for VERDE, AMARELO or VERMELHO in any case, and otherwise fails with the source's message |
| Enumeracoes.NivelRiscoRoundTrip | src/domain/value-objects/NivelRisco.ts:29-35 | parsing a risk level's name gives it back |
| Enumeracoes.NivelRiscoEquals | src/domain/value-objects/NivelRisco.ts:41-45 | risk levels are equal exactly when the other is present and the same |
| Enumeracoes.TipoPerfil.Nome | src/domain/value-objects/TipoPerfil.ts:3-9 | a profile's string value is one of the enum's values, `PAI` being "PAI/RESPONSAVEL", and has no lower-case letter |
| Enumeracoes.TipoPerfilIsAdmin | src/domain/value-objects/TipoPerfil.ts:46-48 | a profile is the administrator profile exactly when it is ADMIN |
| Enumeracoes.TipoPerfilFromString | src/domain/value-objects/TipoPerfil.ts:34-40 | parsing succeeds exactly when the upper-cased input is one of the five profile strings, including "PAI/RESPONSAVEL", and otherwise fails with the source's message |
| Enumeracoes.TipoPerfilRoundTrip | src/domain/value-objects/TipoPerfil.ts:34-40 | parsing a profile's string value gives the profile back |
| Enumeracoes.EquipeEscolarNaoEhPerfil | src/domain/value-objects/TipoPerfil.ts:3-9 | "EQUIPE_ESCOLAR" is not a profile type and does not parse |
| Enumeracoes.TipoPerfilEquals | src/domain/value-objects/TipoPerfil.ts:50-54 | profiles are equal exactly when the other is present and the same |
| Enumeracoes.StatusAtendimento.Nome | src/domain/value-objects/StatusAtendimento.ts:3-7 | a status's string value is one of the enum's values and has no lower-case letter |
| Enumeracoes.StatusAtendimentoFromString | src/domain/value-objects/StatusAtendimento.ts:29-35 | parsing succeeds exactly for PENDENTE, EM_ATENDIMENTO or RESOLVIDO in any case, and otherwise fails with the source's message |
| Enumeracoes.StatusAtendimentoRoundTrip | src/domain/value-objects/StatusAtendimento.ts:29-35 | parsing a status's name gives it back |
| Enumeracoes.PodeTransitarPara | src/domain/value-objects/StatusAtendimento.ts:41-51 | the table allows exactly PENDENTE to EM_ATENDIMENTO and EM_ATENDIMENTO to RESOLVIDO; nothing leaves RESOLVIDO and no status moves to itself |
| Enumeracoes.StatusAtendimentoEquals | src/domain/value-objects/StatusAtendimento.ts:53-57 | statuses are equal exactly when the other is present and the same |
| Enumeracoes.TentativasSoAvancam | src/domain/value-objects/StatusAtendimento.ts:41-51 | whatever updates are attempted, the status only moves forward, one step per accepted update, and at most two steps in all |
| Enumeracoes.CaminhoCompleto | src/domain/value-objects/StatusAtendimento.ts:41-51 | from PENDENTE, EM_ATENDIMENTO then RESOLVIDO are both accepted, and every later attempt is refused |
| Enumeracoes.ResolvidoTerminal | src/domain/value-objects/StatusAtendimento.ts:41-51 | from RESOLVIDO no update is ever accepted |
| Datas.CriarDataNascimento | src/domain/value-objects/DataNascimento.ts:12-29 | a future date is refused first; then a year difference below the minimum, then one above the maximum, each with its message; otherwise the date is kept |
| Datas.CalcularIdade | src/domain/value-objects/DataNascimento.ts:35-47 | the age is the difference of years, minus one exactly while this year's birthday (month, then day) is still ahead |
| Datas.DataAceitaTemIdadeValida | src/domain/value-objects/DataNascimento.ts:12-47 | every birth date accepted with the default bounds gives an age between 0 and 18 |
| Datas.DezoitoAnosAntesDoAniversarioRejeitado | src/domain/value-objects/DataNascimento.ts:12-47 | the converse fails: a child aged 18 whose birthday is still ahead has a year difference of 19 and is refused |
| Datas.DataNascimentoEquals | src/domain/value-objects/DataNascimento.ts:49-53 | birth dates are equal exactly when the other is present and the instant is the same |
| Credenciais.IsValidEmail | src/domain/value-objects/Email.ts:18-21 | no whitespace, exactly one '@' not at the start, and after it a '.' that is neither the first nor the last character of the rest |
| Credenciais.IsValidEmailCasaPadrao | src/domain/value-objects/Email.ts:18-21 | the string test accepts exactly the strings the e-mail regular expression matches |
| Credenciais.CriarEmail | src/domain/value-objects/Email.ts:11-16 | an address is accepted exactly when it matches the pattern, and is kept unchanged; otherwise the error names the address |
| Credenciais.EmailEquals | src/domain/value-objects/Email.ts:27-31 | e-mails are equal exactly when the other is present with the same, case-sensitive address |
| Credenciais.CriarSenha | src/domain/value-objects/Senha.ts:11-28 | a password is accepted exactly when it has at least 8 UTF-16 code units with an upper-case letter, a lower-case letter and a digit, and is kept unchanged |
| Credenciais.SenhaCurtaRejeitada | src/domain/value-objects/Senha.ts:20-28 | no password under 8 code units is accepted |
| Credenciais.SenhaDeSeisCaracteresAceita | src/domain/value-objects/Senha.ts:20-28 | "Aa1" followed by three characters above U+FFFF (six characters, nine code units) is accepted |
| Credenciais.IsStrongPassword | src/domain/value-objects/Senha.ts:20-28 | at least 8 UTF-16 code units, an upper-case ASCII letter, a lower-case ASCII letter and a digit |
| Credenciais.SenhaEquals | src/domain/value-objects/Senha.ts:34-38 | passwords are equal exactly when the other is present and the same |
| Usuarios.Create | src/domain/entities/Usuario.ts:24-34 | a blank name is refused and no id is drawn; otherwise the user has a new id and exactly the given fields |
| Usuarios.Usuario.IsAdmin | src/domain/entities/Usuario.ts:36-38 | a user's `isAdmin` asks the user's profile |
| Usuarios.IsAdminSse | src/domain/entities/Usuario.ts:36-38 | a user is an administrator exactly when the profile is ADMIN |
| Crises.RegistroCrise.constructor | src/domain/entities/RegistroCrise.ts:11-25 | the object holds exactly the given fields |
| Crises.RegistroCrise.EmAberto | src/domain/aggregates/AgregadoCrianca.ts:45-47 | a crisis is unresolved while its effectiveness is unset |
| Crises.RegistroCrise.Create | src/domain/entities/RegistroCrise.ts:27-43 | a timestamp after `agora` is refused; otherwise the crisis is new, open, has a new id and the given fields |
| Crises.RegistroCrise.FromPersistence | src/domain/entities/RegistroCrise.ts:45-63 | fails exactly as intensity parsing fails, and otherwise keeps the stored id (if any), timestamp, texts and effectiveness |
| Crises.RegistroCrise.MarcarEficacia | src/domain/entities/RegistroCrise.ts:69-71 | the effectiveness is set to the given value, so the crisis is resolved, whatever it held before |
| Pedidos.PedidoSuporte.constructor | src/domain/entities/PedidoSuporte.ts:12-24 | the object holds exactly the given fields |
| Pedidos.PedidoSuporte.Create | src/domain/entities/PedidoSuporte.ts:26-48 | a timestamp after `agora` is refused; otherwise the request is PENDENTE and carries a new open crisis with the given intensity and description |
| Pedidos.PedidoSuporte.AtualizarStatus | src/domain/entities/PedidoSuporte.ts:56-63 | the status changes exactly when the transition table allows it; otherwise it stays and the error names both statuses |
| Pedidos.AtenderAteResolver | src/domain/entities/PedidoSuporte.ts:56-63 | a pending request goes to EM_ATENDIMENTO, then to RESOLVIDO, and then refuses any further change |
| Intervencoes.Intervencao.constructor | src/domain/entities/Intervencao.ts:9-21 | the object holds exactly the given fields |
| Intervencoes.Intervencao.Create | src/domain/entities/Intervencao.ts:23-35 | a blank strategy is refused first, then a blank applier; otherwise the intervention is new with no result |
| Intervencoes.Intervencao.FromPersistence | src/domain/entities/Intervencao.ts:37-51 | no validation: every stored field is kept, and the stored id is used when one is given |
| Intervencoes.Intervencao.RegistrarResultado | src/domain/entities/Intervencao.ts:53-55 | the result is overwritten with the given text |
| Criancas.ComResponsavel | src/domain/entities/Crianca.ts:99-103 | a guardian id is appended only when absent; the list only grows and ends up containing the id |
| Criancas.ComResponsavelSemRepeticao | src/domain/entities/Crianca.ts:99-103 | adding a guardian never introduces a repeated id |
| Criancas.ComResponsavelIdempotente | src/domain/entities/Crianca.ts:99-103 | adding the same guardian twice is the same as adding it once |
| Criancas.ComResponsavelConjunto | src/domain/entities/Crianca.ts:99-103 | as a set, the guardians gain exactly the added id |
| Criancas.Crianca.constructor | src/domain/entities/Crianca.ts:15-29 | the object holds the given fields, and a missing guardian list is empty |
| Criancas.Crianca.Create | src/domain/entities/Crianca.ts:31-46 | never fails; the child has a new id, the given fields, and an empty guardian list when none is given |
| Criancas.Crianca.FromPersistence | src/domain/entities/Crianca.ts:48-64 | the birth date is checked against today, then the TEA degree is parsed, then the support degree, and the first failure is the error; otherwise the stored fields are kept |
| Criancas.Crianca.AlterarResponsavel | src/domain/entities/Crianca.ts:99-103 | the guardian list becomes the old list with the id added only when absent |
| Criancas.Crianca.AlterarEscola | src/domain/entities/Crianca.ts:105-107 | the school is overwritten |
| Criancas.Crianca.AlterarGrauTEA | src/domain/entities/Crianca.ts:108-110 | the TEA degree is overwritten |
| Criancas.Crianca.AlterarGrauSuporte | src/domain/entities/Crianca.ts:111-113 | the support degree is overwritten |
| Criancas.Crianca.AlterarDataNascimento | src/domain/entities/Crianca.ts:114-116 | the birth date is overwritten |
| Eventos.Evento.constructor | src/domain/entities/Evento.ts:17-31 | the object holds exactly the given fields |
| Eventos.Evento.Create | src/domain/entities/Evento.ts:33-52 | a blank title is refused first, then an interval that does not start before it ends; otherwise the event is new and starts before it ends |
| Eventos.Evento.Reagendar | src/domain/entities/Evento.ts:59-68 | an interval that does not start before it ends is refused and nothing changes; otherwise both ends are replaced, and a well-formed event stays well-formed |
| Eventos.Evento.DefinirStatus | src/domain/entities/Evento.ts:90-92 | the setter accepts any status, with no transition rule |
| Ambientes.NormalizarMidias | src/domain/entities/AmbienteEscolar.ts:20 | a missing or empty media list is stored as unset, and any other list is kept |
| Ambientes.NormalizarMidiasIdempotente | src/domain/entities/AmbienteEscolar.ts:20 | normalising twice is the same as normalising once |
| Ambientes.AmbienteEscolar.constructor | src/domain/entities/AmbienteEscolar.ts:9-21 | the object holds the given fields with normalised media, and never stores an empty list |
| Ambientes.AmbienteEscolar.Create | src/domain/entities/AmbienteEscolar.ts:23-36 | a blank school id is refused first, then a blank name; otherwise the environment is new |
| Ambientes.AmbienteEscolar.Reconstitute | src/domain/entities/AmbienteEscolar.ts:38-46 | no validation; only the media are normalised |
| Ambientes.AmbienteEscolar.AtualizarDados | src/domain/entities/AmbienteEscolar.ts:64-77 | a given non-empty blank name is refused before anything changes; otherwise only the given fields change, with the media normalised |
| Personalizacoes.TamanhoFonte.Nome | src/domain/entities/PersonalizacaoSensorial.ts:3-7 | each font size's string value is one of PEQUENO, MEDIO and GRANDE |
| Personalizacoes.PersonalizacaoSensorial.constructor | src/domain/entities/PersonalizacaoSensorial.ts:18-36 | the object holds exactly the given settings |
| Personalizacoes.PersonalizacaoSensorial.Create | src/domain/entities/PersonalizacaoSensorial.ts:38-43 | a blank child id is refused; otherwise a new personalization with a medium font and everything else off or unset |
| Personalizacoes.PersonalizacaoSensorial.Reconstitute | src/domain/entities/PersonalizacaoSensorial.ts:45-65 | no validation; a missing switch is off, and every other setting is kept |
| Personalizacoes.PersonalizacaoSensorial.AlterarPaletaCores | src/domain/entities/PersonalizacaoSensorial.ts:67-69 | the palette is overwritten |
| Personalizacoes.PersonalizacaoSensorial.AlterarTamanhoFonte | src/domain/entities/PersonalizacaoSensorial.ts:71-73 | the font size is overwritten |
| Personalizacoes.PersonalizacaoSensorial.AlterarIcones | src/domain/entities/PersonalizacaoSensorial.ts:75-77 | the icon set is overwritten |
| Personalizacoes.PersonalizacaoSensorial.AlterarSons | src/domain/entities/PersonalizacaoSensorial.ts:79-81 | the sound switch is set to the given value |
| Personalizacoes.PersonalizacaoSensorial.AlterarAnimacoes | src/domain/entities/PersonalizacaoSensorial.ts:83-85 | the animation switch is set to the given value |
| Personalizacoes.PersonalizacaoSensorial.AlterarContrasteAlto | src/domain/entities/PersonalizacaoSensorial.ts:87-89 | the high-contrast switch is set to the given value |
| Agregados.NovaCriseUnicaEmAberto | src/domain/aggregates/AgregadoCrianca.ts:44-61 | an open crisis appended to a list with none open is the list's only open crisis and its first |
| Agregados.NaoResolvidas | src/domain/aggregates/AgregadoCrianca.ts:93-108 | the filter of unresolved crises keeps only unresolved crises of the list |
| Agregados.NaoResolvidasPrimeira | src/domain/aggregates/AgregadoCrianca.ts:93-108 | the filter is non-empty exactly when some crisis is open, and then it starts with the first open crisis |
| Agregados.NoMaximoUmaCabeca | src/domain/aggregates/AgregadoCrianca.ts:93-108 | invariant 1 on a non-empty list holds exactly when it holds on the tail and the head is resolved or the tail has no open crisis |
| Agregados.NaoResolvidasNoMaximoUma | src/domain/aggregates/AgregadoCrianca.ts:93-108 | the unresolved count is at most one exactly when invariant 1 holds |
| Agregados.ValidarInvariantes | src/domain/aggregates/AgregadoCrianca.ts:93-108 | passes exactly when both invariants hold; two open crises are reported first, then requests without an open crisis |
| Agregados.Construir | src/domain/aggregates/AgregadoCrianca.ts:13-24 | the lists are kept as given exactly when both invariants hold, and otherwise the check's error is raised |
| Agregados.Criar | src/domain/aggregates/AgregadoCrianca.ts:26-28 | always succeeds, with the child and three empty lists |
| Agregados.FromPersistence | src/domain/aggregates/AgregadoCrianca.ts:30-42 | the given lists, in order, exactly when both invariants hold, and otherwise the invariant's error |
| Agregados.AdicionarCrise | src/domain/aggregates/AgregadoCrianca.ts:44-61 | refused while a crisis is open; otherwise the crisis is appended and nothing else changes; on a valid aggregate an open crisis is always accepted |
| Agregados.AdicionarPedidoSuporte | src/domain/aggregates/AgregadoCrianca.ts:63-80 | refused when no crisis is open, and also when two are; otherwise the request is appended and nothing else changes |
| Agregados.AdicionarIntervencao | src/domain/aggregates/AgregadoCrianca.ts:82-90 | the intervention is appended exactly when the aggregate is valid, and nothing else changes |
| Agregados.AdicionarPreservaValido | src/domain/aggregates/AgregadoCrianca.ts:44-108 | every aggregate an `adicionar*` returns satisfies both invariants |
| Agregados.PedidoSseCriseEmAberto | src/domain/aggregates/AgregadoCrianca.ts:63-80 | on a valid aggregate, a request can be added exactly while a crisis is open |
| Mapeador.PersistirCrianca | src/infrastructure/database/mappers/AgregadoCriancaMapper.ts:98-111 | the stored child has the id, the instant and the degrees' names; the school only when truthy; the guardians only when non-empty, and reading them back gives the list |
| Mapeador.PersistirCrise | src/infrastructure/database/mappers/AgregadoCriancaMapper.ts:115-122 | the stored crisis keeps every field, and its intensity string parses back to the intensity |
| Mapeador.PersistirPedido | src/infrastructure/database/mappers/AgregadoCriancaMapper.ts:123-135 | the stored request's status parses back to the status, and its crisis is stored as crises are |
| Mapeador.PersistirIntervencao | src/infrastructure/database/mappers/AgregadoCriancaMapper.ts:136-142 | the stored intervention keeps every field |
| Mapeador.Serializar | src/infrastructure/database/mappers/AgregadoCriancaMapper.ts:93-144 | the three lists keep their length and order, element by element |
| Mapeador.PrimeiraIntensidadeInvalida | src/infrastructure/database/mappers/AgregadoCriancaMapper.ts:73-75 | none exactly when every stored intensity parses; otherwise the first position whose intensity does not parse |
| Mapeador.PrimeiraIntensidadeInvalidaEm | src/infrastructure/database/mappers/AgregadoCriancaMapper.ts:73-75 | a failing position with only passing positions before it is the one reported |
| Mapeador.DadosDaCrianca | src/infrastructure/database/mappers/AgregadoCriancaMapper.ts:56-69 | the child record handed on keeps every field, and an empty school id becomes unset |
| Mapeador.InvariantesReconstruidas | src/infrastructure/database/mappers/AgregadoCriancaMapper.ts:85-90 | rebuilt crises carry the stored effectiveness, so both invariants read the same on the stored and the rebuilt lists |
| Mapeador.ReconstruirCrises | src/infrastructure/database/mappers/AgregadoCriancaMapper.ts:73-75 | fails with the parser's error at the first invalid intensity; otherwise one new crisis per stored crisis, in order |
| Mapeador.ReconstruirIntervencoes | src/infrastructure/database/mappers/AgregadoCriancaMapper.ts:81-83 | one new intervention per stored intervention, in order |
| Mapeador.ErroDaCrianca | src/infrastructure/database/mappers/AgregadoCriancaMapper.ts:56-69 | the child fails on the birth date first, then the TEA degree, then the support degree |
| Mapeador.ErroDasCrises | src/infrastructure/database/mappers/AgregadoCriancaMapper.ts:73-90 | the crises fail on the first invalid intensity, and otherwise on the invariant check |
| Mapeador.ErroAoDesserializar | src/infrastructure/database/mappers/AgregadoCriancaMapper.ts:53-91 | deserialisation fails on the child before the crises, and succeeds exactly when neither fails |
| Mapeador.ReconstruirCrianca | src/infrastructure/database/mappers/AgregadoCriancaMapper.ts:56-69 | succeeds exactly when the child has no error, and then the child is rebuilt from the stored record |
| Mapeador.MontarAgregado | src/infrastructure/database/mappers/AgregadoCriancaMapper.ts:73-90 | succeeds exactly when the crises have no error, and then the aggregate holds the child, the rebuilt lists and the given requests |
| Mapeador.Desserializar | src/infrastructure/database/mappers/AgregadoCriancaMapper.ts:53-91 | succeeds exactly when there is no error, failing with the first one; missing lists are empty; every stored entity is rebuilt in order |
| Mapeador.SerializadoDesserializavel | src/infrastructure/database/mappers/AgregadoCriancaMapper.ts:53-144 | a serialised aggregate whose birth date is still accepted reads back exactly when the aggregate is valid, and otherwise fails with the invariant that is broken |
| Mapeador.CriancaDeVolta | src/infrastructure/database/mappers/AgregadoCriancaMapper.ts:53-111 | rebuilding a stored child gives back the same child, with an empty school read back as unset |
| Mapeador.CriseDeVolta | src/infrastructure/database/mappers/AgregadoCriancaMapper.ts:73-122 | rebuilding a stored crisis gives back the same crisis |
| Mapeador.IntervencaoDeVolta | src/infrastructure/database/mappers/AgregadoCriancaMapper.ts:81-142 | rebuilding a stored intervention gives back the same intervention |
| Mapeador.AgregadoDeVolta | src/infrastructure/database/mappers/AgregadoCriancaMapper.ts:53-144 | rebuilding a serialised aggregate gives back the same child, crises and interventions, element by element |
| Repositorios.RepositorioCriancas.Salvar | src/domain/repositories/ICriancaRepository.ts:5 | saving files the aggregate under its child's id and changes no other entry |
| Repositorios.RepositorioCriancas.constructor | src/domain/repositories/ICriancaRepository.ts:3-9 | an empty repository that implements the optional `remover` exactly when asked to |
| Repositorios.RepositorioCriancas.Remover | src/domain/repositories/ICriancaRepository.ts:8 | the optional `remover`, callable only where implemented, drops only the given entry |
| Repositorios.ServicoNotificacao.NotificarPedidoSuporte | src/application/services/INotificacaoService.ts:19-21 | the notification is appended to what was sent |
| Repositorios.SeNaoVazio | src/infrastructure/database/PrismaPersonalizacaoSensorialRepository.ts:66-67 | an empty stored palette or icon set reads back as unset, and any other value is kept |
| Repositorios.Linha | src/infrastructure/database/PrismaPersonalizacaoSensorialRepository.ts:24-53 | saving over an existing row keeps its id and takes every setting; a new row also takes the object's id |
| Repositorios.RepositorioPersonalizacoes.BuscarPorCrianca | src/infrastructure/database/PrismaPersonalizacaoSensorialRepository.ts:12-22 | nothing for an unknown child; otherwise a new object rebuilt from the stored row |
| Repositorios.RepositorioPersonalizacoes.Salvar | src/infrastructure/database/PrismaPersonalizacaoSensorialRepository.ts:24-53 | the child's row is updated or created, and no other row changes |
| Permissoes.PermissaoDeAcesso | src/application/use-cases/VisualizarCriancaUseCase.ts:34-45 | access is granted exactly to an ADMIN, a PROFESSOR of the child's school or a RESPONSAVEL listed as guardian; every other case is refused with its message |
| Permissoes.PermissaoDeEdicao | src/application/use-cases/ManterPerfilCriancaUseCase.ts:24-37 | editing is granted to an ADMIN, a PROFESSOR of the child's school, or any other profile listed as guardian |
| Permissoes.PermissaoDeExclusao | src/application/use-cases/ExcluirCriancaUseCase.ts:24-33 | deleting is granted exactly to an ADMIN or a PROFESSOR of the child's school; any other profile gets the admin-or-team message |
| Permissoes.PermissoesEncadeadas | src/application/use-cases/ExcluirCriancaUseCase.ts:24-33 | whoever may delete a child may view it, and whoever may view it may edit it |
| Permissoes.Carregar | src/application/use-cases/VisualizarCriancaUseCase.ts:21-29 | an unknown user is refused first, then an unknown child; otherwise both are loaded |
| VisualizarCrianca.ParaDTO | src/application/use-cases/VisualizarCriancaUseCase.ts:47-57 | the view keeps id, birth date and guardians; the degree names parse back to the child's degrees; the school is present only when truthy |
| VisualizarCrianca.Visualizar | src/application/use-cases/VisualizarCriancaUseCase.ts:20-60 | user, then child, must exist; then the access rule decides, and an allowed user gets the child's view |
| VisualizarCrianca.DaEscola | src/application/use-cases/VisualizarCriancaUseCase.ts:71-85 | exactly the listed children of the given school |
| VisualizarCrianca.DoResponsavel | src/application/use-cases/VisualizarCriancaUseCase.ts:71-85 | exactly the listed children that have the user as a guardian |
| VisualizarCrianca.Selecionados | src/application/use-cases/VisualizarCriancaUseCase.ts:71-85 | ADMIN sees all, PROFESSOR the children of their school (none without one), RESPONSAVEL their own, others none; every child selected passes the access rule |
| VisualizarCrianca.ParaDTOs | src/application/use-cases/VisualizarCriancaUseCase.ts:87-101 | one view per aggregate, in order |
| VisualizarCrianca.ListarPorUsuario | src/application/use-cases/VisualizarCriancaUseCase.ts:62-102 | an unknown user is refused; otherwise the views of exactly the selected children |
| EditarCrianca.Executar | src/application/use-cases/ManterPerfilCriancaUseCase.ts:11-44 | the lookups and the edit rule refuse with their messages and change nothing; an allowed edit sets the school only when a truthy one is given, and leaves the rest |
| ExcluirCrianca.Executar | src/application/use-cases/ExcluirCriancaUseCase.ts:11-36 | the lookups and the delete rule refuse and remove nothing; an allowed deletion succeeds, removing exactly that child when the repository implements `remover` and nothing when it does not |
| ExcluirCrianca.ExecutarComRemocao | src/application/use-cases/ExcluirCriancaUseCase.ts:11-36 | the corrected deletion: it succeeds exactly when allowed and the repository can remove, and then the child is gone; a repository without `remover` makes it fail with nothing changed |
| ContraExemploExclusao.ExcluirSemRemover | src/application/use-cases/ExcluirCriancaUseCase.ts:35 | an ADMIN deleting a stored child from a repository without `remover` gets success and the child is still stored; the corrected deletion refuses |
| CriarCrianca.ResponsaveisInformados | src/application/use-cases/CriarCriancaUseCase.ts:38-44 | a RESPONSAVEL caller is added to the guardians once, and only when absent; other profiles leave the list as given |
| CriarCrianca.ResponsaveisSemRepeticao | src/application/use-cases/CriarCriancaUseCase.ts:38-44 | adding the caller never creates a repeated guardian |
| CriarCrianca.Validar | src/application/use-cases/CriarCriancaUseCase.ts:24-48 | the checks in order: user exists; profile is PROFESSOR or RESPONSAVEL; a PROFESSOR gives a school; then birth date, TEA degree and support degree parse |
| CriarCrianca.SalvarNovaCrianca | src/application/use-cases/CriarCriancaUseCase.ts:50-61 | a new child with a never-issued id is saved in a new aggregate with empty lists, and no other entry changes |
| CriarCrianca.Executar | src/application/use-cases/CriarCriancaUseCase.ts:23-62 | a failed check saves nothing and returns its error; otherwise the new child's id is returned and its aggregate saved |
| SolicitarSuporte.AbrirCriseSos | src/application/use-cases/SolicitarSuporteUseCase.ts:26-37 | with no open crisis, a new open ALTA crisis with the default description is appended and becomes the only open one |
| SolicitarSuporte.CriseAtiva | src/application/use-cases/SolicitarSuporteUseCase.ts:19-38 | the crisis used is the first open one if any, and otherwise a newly opened SOS crisis |
| SolicitarSuporte.PedidoPara | src/application/use-cases/SolicitarSuporteUseCase.ts:40-47 | a new PENDENTE request stamped now whose crisis is replaced by the active one |
| SolicitarSuporte.AnexarPedidoNaCrise | src/application/use-cases/SolicitarSuporteUseCase.ts:40-49 | the request is added exactly when at most one crisis is open, and the result is valid |
| SolicitarSuporte.AnexarPedido | src/application/use-cases/SolicitarSuporteUseCase.ts:17-49 | the request is attached to the active crisis exactly when the loaded aggregate has at most one open crisis; the result is valid |
| SolicitarSuporte.SalvarENotificar | src/application/use-cases/SolicitarSuporteUseCase.ts:50-59 | the new aggregate is saved under the child, then, when a notifier exists, one SOS notification for the request is sent; the request and its crisis are left untouched |
| SolicitarSuporte.SolicitarParaAgregado | src/application/use-cases/SolicitarSuporteUseCase.ts:17-59 | succeeds exactly when the stored aggregate has at most one open crisis; a refusal saves and sends nothing; the new PENDENTE request's crisis is the first open one (crises unchanged) or a new open ALTA SOS crisis (appended); the saved aggregate keeps the child and interventions, ends its requests with the new one, is valid, and is the only repository change; one SOS notification names the request |
| SolicitarSuporte.Execute | src/application/use-cases/SolicitarSuporteUseCase.ts:13-60 | an unknown child is refused with nothing changed; otherwise the request is saved and notified exactly when at most one crisis was open; the saved aggregate keeps the child and interventions, gains at the end one new PENDENTE request stamped now, and its crises are the old ones when one was open (the request's crisis being the first open one) or the old ones plus the request's new open ALTA SOS crisis |
| ManterHistoricoCrise.CriseDaEntrada | src/application/use-cases/equipeEscolar/ManterHistoricoCriseUseCase.ts:37-43 | the intensity is parsed first, then the timestamp is checked, and the crisis holds the input |
| ManterHistoricoCrise.AdicionarESalvarCrise | src/application/use-cases/equipeEscolar/ManterHistoricoCriseUseCase.ts:45-46 | the crisis is added and saved exactly when none was open; otherwise nothing is saved |
| ManterHistoricoCrise.RegistrarCriseNoAgregado | src/application/use-cases/equipeEscolar/ManterHistoricoCriseUseCase.ts:37-46 | a bad intensity, a future timestamp or an open crisis is refused in that order with nothing saved; otherwise the aggregate with the new open crisis is saved |
| ManterHistoricoCrise.RegistrarCrise | src/application/use-cases/equipeEscolar/ManterHistoricoCriseUseCase.ts:31-47 | an unknown child is refused first; then the same outcomes as on the loaded aggregate |
| ManterHistoricoCrise.IntervencaoDaEntrada | src/application/use-cases/equipeEscolar/ManterHistoricoCriseUseCase.ts:57-65 | blank strategy, then blank applier, are refused; otherwise the intervention holds the input and a truthy result |
| ManterHistoricoCrise.AdicionarESalvarIntervencao | src/application/use-cases/equipeEscolar/ManterHistoricoCriseUseCase.ts:67-68 | added and saved exactly when the aggregate is valid; otherwise the invariant's error and nothing saved |
| ManterHistoricoCrise.RegistrarIntervencaoNoAgregado | src/application/use-cases/equipeEscolar/ManterHistoricoCriseUseCase.ts:57-68 | the creation checks, then the invariant check, refuse in order with nothing saved; otherwise the aggregate with the intervention is saved |
| ManterHistoricoCrise.RegistrarIntervencao | src/application/use-cases/equipeEscolar/ManterHistoricoCriseUseCase.ts:49-69 | an unknown child is refused first; then the same outcomes as on the loaded aggregate |
| ManterHistoricoCrise.IndiceDaCrise | src/application/use-cases/equipeEscolar/ManterHistoricoCriseUseCase.ts:79-82 | the first crisis with the given id, or none when no crisis has it |
| ManterHistoricoCrise.MarcarEficaciaNoAgregado | src/application/use-cases/equipeEscolar/ManterHistoricoCriseUseCase.ts:79-85 | as written: an unknown crisis is refused; otherwise only that crisis is marked and the aggregate saved, so marking the only open crisis of an aggregate with requests leaves it invalid |
| ManterHistoricoCrise.MarcarEficaciaCrise | src/application/use-cases/equipeEscolar/ManterHistoricoCriseUseCase.ts:71-86 | as written: unknown child or crisis is refused; otherwise only the target crisis is marked in place |
| ManterHistoricoCrise.MarcarEficaciaNoAgregadoValidado | src/application/use-cases/equipeEscolar/ManterHistoricoCriseUseCase.ts:79-85 | corrected: a marking that would break an invariant is undone and not saved, so a valid aggregate stays valid |
| ManterHistoricoCrise.MarcarEficaciaCriseValidada | src/application/use-cases/equipeEscolar/ManterHistoricoCriseUseCase.ts:71-86 | corrected: the lookups as written; a refusal leaves the crises unchanged, and a valid stored aggregate stays valid |
| ContraExemploEficacia.MarcarUnicaCriseComPedido | src/application/use-cases/equipeEscolar/ManterHistoricoCriseUseCase.ts:84-85 | one open crisis with one request, marked: the call succeeds, the stored aggregate breaks invariant 2, and `Mapeador.Desserializar`, given its one request, refuses it with the request-without-crisis error |
| GerenciarPersonalizacao.VerificarPermissao | src/application/use-cases/GerenciarPersonalizacaoSensorialUseCase.ts:106-139 | unknown user, then unknown child, are refused; otherwise the access rule of the child view decides |
| GerenciarPersonalizacao.DTODaLinha | src/application/use-cases/GerenciarPersonalizacaoSensorialUseCase.ts:46-63 | palette and icons appear only when non-empty; the font name parses back to the stored size; the switches are copied |
| GerenciarPersonalizacao.DTODaLinhaNormalizada | src/application/use-cases/GerenciarPersonalizacaoSensorialUseCase.ts:46-63 | reading a row back first gives the same view |
| GerenciarPersonalizacao.TamanhoFonteDe | src/application/use-cases/GerenciarPersonalizacaoSensorialUseCase.ts:79-83 | a font size is recognised exactly when the upper-cased input is PEQUENO, MEDIO or GRANDE |
| GerenciarPersonalizacao.TamanhoFonteIdaEVolta | src/application/use-cases/GerenciarPersonalizacaoSensorialUseCase.ts:79-83 | each size's name is recognised as that size |
| GerenciarPersonalizacao.Aplicar | src/application/use-cases/GerenciarPersonalizacaoSensorialUseCase.ts:75-101 | only given fields change; "" clears palette and icons; a non-empty font is upper-cased and "" ignored; the switches take the given value, false included |
| GerenciarPersonalizacao.AplicarIdempotente | src/application/use-cases/GerenciarPersonalizacaoSensorialUseCase.ts:75-101 | applying the same update twice is the same as applying it once |
| GerenciarPersonalizacao.AplicarNada | src/application/use-cases/GerenciarPersonalizacaoSensorialUseCase.ts:75-101 | an update that gives no field changes nothing |
| GerenciarPersonalizacao.AplicarEntrada | src/application/use-cases/GerenciarPersonalizacaoSensorialUseCase.ts:75-101 | fails with "Tamanho de fonte inválido" exactly when the given font size is unknown; otherwise the object's new settings are the update applied to the old ones |
| GerenciarPersonalizacao.BuscarOuCriar | src/application/use-cases/GerenciarPersonalizacaoSensorialUseCase.ts:39-44 | a stored row is loaded with its id; otherwise a default one is created, refused only for a blank child id |
| GerenciarPersonalizacao.AplicarESalvar | src/application/use-cases/GerenciarPersonalizacaoSensorialUseCase.ts:75-103 | an unknown font size saves nothing; otherwise exactly the child's row becomes the update applied, saved once |
| GerenciarPersonalizacao.AtualizarPermitido | src/application/use-cases/GerenciarPersonalizacaoSensorialUseCase.ts:69-103 | starts from the stored row or the defaults; an unknown font size or a blank absent child saves nothing; otherwise only the child's row changes |
| GerenciarPersonalizacao.Atualizar | src/application/use-cases/GerenciarPersonalizacaoSensorialUseCase.ts:66-104 | a refused permission changes nothing; otherwise as above |
| GerenciarPersonalizacao.ObterPermitido | src/application/use-cases/GerenciarPersonalizacaoSensorialUseCase.ts:39-63 | a stored row is read back with no write; otherwise a default row is saved first; the view is that row's |
| GerenciarPersonalizacao.Obter | src/application/use-cases/GerenciarPersonalizacaoSensorialUseCase.ts:36-64 | a refused permission changes nothing; otherwise as above |
| Seguranca.Violacoes | src/infrastructure/security/PasswordHasher.ts:44-60 | the rule messages reported from a rule on, in check order, at most one per rule; the length rules count UTF-16 code units |
| Seguranca.ValidatePasswordStrength | src/infrastructure/security/PasswordHasher.ts:33-66 | an empty password reports only "Senha é obrigatória"; any other reports the broken rules in order; valid exactly when nothing is reported |
| Seguranca.ViolacaoReportada | src/infrastructure/security/PasswordHasher.ts:44-60 | a rule's message is reported exactly when the rule is broken |
| Seguranca.NaoReportadaAntes | src/infrastructure/security/PasswordHasher.ts:44-60 | rules before the starting rule are never reported |
| Seguranca.ForcaSse | src/infrastructure/security/PasswordHasher.ts:44-65 | a non-empty password passes exactly when it has 6 to 128 UTF-16 code units, an ASCII letter and a digit |
| Seguranca.NenhumaDesde | src/infrastructure/security/PasswordHasher.ts:44-60 | nothing is reported from a rule on exactly when no rule from there on is broken |
| Seguranca.ComprimentosExclusivos | src/infrastructure/security/PasswordHasher.ts:44-50 | the too-short and too-long messages never appear together |
| Seguranca.SenhaForteEhValida | src/infrastructure/security/PasswordHasher.ts:33-66 | a password the value object accepts as strong, if at most 128 code units, passes the report |
| Seguranca.PreValidarHash | src/infrastructure/security/PasswordHasher.ts:11-17 | `hash` refuses a blank password first, then one under 6 UTF-16 code units, and otherwise lets it through |
| Seguranca.ValidaEhAceitaPeloHash | src/infrastructure/security/PasswordHasher.ts:11-66 | a password the report accepts is never refused by `hash`'s guards |
| Seguranca.ExtractTokenFromHeader | src/infrastructure/security/JwtService.ts:74-86 | a missing or empty header gives nothing; a token comes only from exactly two pieces with "Bearer" first |
| Seguranca.ExtrairTokenSse | src/infrastructure/security/JwtService.ts:80-86 | the token is `t` exactly when the header is "Bearer", one space and `t`, with no space in `t` |
| Seguranca.EsquemaMinusculoRecusado | src/infrastructure/security/JwtService.ts:82 | the scheme is case-sensitive: "bearer x" gives nothing |
| Seguranca.EspacoDuploRecusado | src/infrastructure/security/JwtService.ts:82-84 | two spaces after the scheme make three pieces and give nothing |
| Seguranca.TokenVazio | src/infrastructure/security/JwtService.ts:80-86 | "Bearer " gives the empty token |

## Left out

- Clock reads: the source reads the clock several times in one call, for example in the SOS workflow. The model takes one `agora` instant, or one `hoje` date, per call.
- Date strings: dates are integers (milliseconds) or a calendar `Data` record. The conversion between dates and ISO strings is abstracted, so a birth date's ISO string stands for its instant.
- Lone surrogates: strings are sequences of Unicode scalar values, so a JavaScript string holding an unpaired surrogate has no counterpart. `length` counts a character above U+FFFF as its two code units (`Base.ComprimentoUtf16`).
- Upper-casing: only ASCII letters are upper-cased. Unicode case mapping is not modelled.
- Whitespace: the JavaScript whitespace set used by `trim()` and `\s` is approximated by an explicit list of code points.
- Ids: `uuidv4` is an oracle that returns a new non-empty string; the format of a UUID is not modelled.
- Repositories: they are in-memory maps. Prisma, SQL and row shaping are left out. Whether a child repository implements the optional `remover` is its flag `temRemover`; the database-backed one does not.
- ExcluirCrianca.ExecutarComRemocao: the error text `RemocaoIndisponivel` is the model's own, since the source has no such error.
- Child repository: it stores references, as an in-memory repository would, rather than copies reloaded on every read.
- Child listing: `buscarPorFiltro` and `buscarPorEscola` are replaced by the listing `todos`, a parameter of `VisualizarCrianca.ListarPorUsuario`.
- Mapeador.Desserializar: `PedidoSuporte.fromPersistence` is not part of this model (the entity file does not define it), so the rebuilt support requests are a parameter. The round-trip lemmas cover the child, the crises and the interventions only.
- Security libraries: bcrypt (`hash` and `compare` beyond their guards) and jsonwebtoken (`sign`, `verify`, `decode`) are library calls. Only their pure pre-checks are modelled.
- HTTP: routes, middlewares, server setup and Swagger are transport code. The routes' "EQUIPE_ESCOLAR" role string appears only in `Enumeracoes.EquipeEscolarNaoEhPerfil`.
- Console-only methods: `Crianca.solicitarSuporte`, `Crianca.visualizarCalendario`, `Evento.notificarAlteracao`, `PedidoSuporte.notificarSuporte` and the console logging of `NotificacaoService` only write to the console. Notification is modelled as an appended record.
- `RegistroCrise.exportarDados`: it builds a display string only.
- `Localizacao`: the value object always throws.
- Enumeration factories: `leve()`, `alta()` and the like are the datatype constructors.
- `Usuario.escolaId`: the field is read by the permission rules but missing from the user entity. The user is a record with an optional school.
- `CriarCrianca.Executar`: the caller's guardian list is not modified in place. The model passes the extended list on, which is what the created child sees.
- Other use cases: the auth use cases, the calendar use case and the thin environment, calendar and crisis-history views are not part of this model. They orchestrate libraries, call entity members that do not exist, or only wrap a lookup.

## Findings

| source | as written | input that shows it | evidently intended | confidence | as-written member | corrected member |
|---|---|---|---|---|---|---|
| src/application/use-cases/equipeEscolar/ManterHistoricoCriseUseCase.ts:84-85 | `marcarEficaciaCrise` marks the crisis in place and saves the aggregate without checking the aggregate's invariants | a child with one unresolved crisis and one support request attached to it, whose crisis is then marked effective: the save succeeds, the stored aggregate has a request but no open crisis, and rebuilding it with the model's `Mapeador.Desserializar`, given its one request, fails with the request-without-crisis error (the shipped mapper fails earlier on that record, at its call to the undefined `PedidoSuporte.fromPersistence`) | the marking is checked against the invariants, as every `adicionar*` is, and a marking that breaks them is refused and not saved | not executed | ContraExemploEficacia.MarcarUnicaCriseComPedido | ManterHistoricoCrise.MarcarEficaciaNoAgregadoValidado |
| src/application/use-cases/ExcluirCriancaUseCase.ts:35 | `execute` calls the optional `remover?.(criancaId)`, which the only shipped child repository, `PrismaCriancaRepository`, does not implement, and returns normally either way | an ADMIN deletes a stored child through the database-backed repository: the call succeeds and the child stays stored | a deletion that reports success has removed the child, and one the repository cannot carry out is refused | not executed | ContraExemploExclusao.ExcluirSemRemover | ExcluirCrianca.ExecutarComRemocao |
