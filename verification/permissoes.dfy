/** The role rules the child use cases apply once the user and the child are loaded.
    Each rule branches on the user's profile: ADMIN, PROFESSOR of the child's school,
    and RESPONSAVEL listed among the child's guardians. */
module Permissoes {
  import opened Base
  import opened Enumeracoes
  import opened Usuarios
  import opened Criancas
  import opened Agregados
  import opened Repositorios

  const UsuarioNaoEncontrado := "Usuário não encontrado"
  const ProfessorDeOutraEscola := "Permissão negada: professor não pertence à mesma escola"
  const NaoResponsavel := "Permissão negada: usuário não é responsável pela criança"
  const PermissaoNegada := "Permissão negada"
  const ApenasAdminOuEquipe := "Permissão negada: apenas admin ou equipe escolar podem excluir crianças"

  /** `usuario.escolaId && usuario.escolaId === crianca.escolaId`: the user has a
      non-empty school and it is the child's. */
  predicate MesmaEscola(usuario: Usuario, crianca: Crianca)
    reads crianca
  {
    Preenchido(usuario.escolaId) && usuario.escolaId == crianca.escolaId
  }

  /** The user is listed among the child's guardians. */
  predicate Responsavel(usuario: Usuario, crianca: Crianca)
    reads crianca
  {
    usuario.id in crianca.responsavelIds
  }

  /** The access rule of `VisualizarCriancaUseCase.execute` and of the personalization
      use case's `verificarPermissao`: ADMIN always, PROFESSOR of the same school,
      RESPONSAVEL when listed; every other profile is refused. */
  function PermissaoDeAcesso(usuario: Usuario, crianca: Crianca): (r: Outcome)
    reads crianca
    ensures r.Pass? <==> usuario.tipoPerfil == ADMIN ||
                         (usuario.tipoPerfil == PROFESSOR && MesmaEscola(usuario, crianca)) ||
                         (usuario.tipoPerfil == RESPONSAVEL && Responsavel(usuario, crianca))
    ensures usuario.tipoPerfil == PROFESSOR && !MesmaEscola(usuario, crianca) ==> r == Fail(ProfessorDeOutraEscola)
    ensures usuario.tipoPerfil == RESPONSAVEL && !Responsavel(usuario, crianca) ==> r == Fail(NaoResponsavel)
    ensures usuario.tipoPerfil in {PAI, CRIANCA} ==> r == Fail(PermissaoNegada)
  {
    match usuario.tipoPerfil
    case ADMIN => Pass
    case PROFESSOR => if MesmaEscola(usuario, crianca) then Pass else Fail(ProfessorDeOutraEscola)
    case RESPONSAVEL => if Responsavel(usuario, crianca) then Pass else Fail(NaoResponsavel)
    case _ => Fail(PermissaoNegada)
  }

  /** The rule of `EditarCriancaUseCase.execute`: ADMIN always, PROFESSOR of the same
      school, and any other profile (PAI/RESPONSAVEL and CRIANCA included) when listed
      as a guardian. */
  function PermissaoDeEdicao(usuario: Usuario, crianca: Crianca): (r: Outcome)
    reads crianca
    ensures r.Pass? <==> usuario.tipoPerfil == ADMIN ||
                         (usuario.tipoPerfil == PROFESSOR && MesmaEscola(usuario, crianca)) ||
                         (usuario.tipoPerfil !in {ADMIN, PROFESSOR} && Responsavel(usuario, crianca))
    ensures usuario.tipoPerfil == PROFESSOR && !MesmaEscola(usuario, crianca) ==> r == Fail(ProfessorDeOutraEscola)
    ensures usuario.tipoPerfil !in {ADMIN, PROFESSOR} && !Responsavel(usuario, crianca) ==> r == Fail(NaoResponsavel)
  {
    if usuario.tipoPerfil == ADMIN then Pass
    else if usuario.tipoPerfil == PROFESSOR then
      if MesmaEscola(usuario, crianca) then Pass else Fail(ProfessorDeOutraEscola)
    else if Responsavel(usuario, crianca) then Pass
    else Fail(NaoResponsavel)
  }

  /** The rule of `ExcluirCriancaUseCase.execute`: only ADMIN, or a PROFESSOR of the
      same school. */
  function PermissaoDeExclusao(usuario: Usuario, crianca: Crianca): (r: Outcome)
    reads crianca
    ensures r.Pass? <==> usuario.tipoPerfil == ADMIN || (usuario.tipoPerfil == PROFESSOR && MesmaEscola(usuario, crianca))
    ensures usuario.tipoPerfil !in {ADMIN, PROFESSOR} ==> r == Fail(ApenasAdminOuEquipe)
    ensures usuario.tipoPerfil == PROFESSOR && !MesmaEscola(usuario, crianca) ==> r == Fail(ProfessorDeOutraEscola)
  {
    if usuario.tipoPerfil != ADMIN && usuario.tipoPerfil != PROFESSOR then Fail(ApenasAdminOuEquipe)
    else if usuario.tipoPerfil == PROFESSOR && !MesmaEscola(usuario, crianca) then Fail(ProfessorDeOutraEscola)
    else Pass
  }

  /** Whoever may delete a child may view it, and whoever may view it may edit it. */
  lemma PermissoesEncadeadas(usuario: Usuario, crianca: Crianca)
    ensures PermissaoDeExclusao(usuario, crianca).Pass? ==> PermissaoDeAcesso(usuario, crianca).Pass?
    ensures PermissaoDeAcesso(usuario, crianca).Pass? ==> PermissaoDeEdicao(usuario, crianca).Pass?
  {
  }

  /** The loading every permission-checked use case starts with: the user first, then
      the child, each refused with its own not-found message. */
  function Carregar(usuarios: map<string, Usuario>, agregados: map<string, AgregadoCrianca>,
                    usuarioId: string, criancaId: string): (r: Result<(Usuario, AgregadoCrianca)>)
    ensures usuarioId !in usuarios ==> r == Err(UsuarioNaoEncontrado)
    ensures usuarioId in usuarios && criancaId !in agregados ==> r == Err(CriancaNaoEncontrada)
    ensures r.Ok? <==> usuarioId in usuarios && criancaId in agregados
    ensures r.Ok? ==> r.value == (usuarios[usuarioId], agregados[criancaId])
  {
    if usuarioId !in usuarios then Err(UsuarioNaoEncontrado)
    else if criancaId !in agregados then Err(CriancaNaoEncontrada)
    else Ok((usuarios[usuarioId], agregados[criancaId]))
  }
}
