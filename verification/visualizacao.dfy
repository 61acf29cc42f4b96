/** `VisualizarCriancaUseCase`: a child's profile as a transfer object, for one child
    under the access rule, and for the children a user may list. Nothing is written. */
module VisualizarCrianca {
  import opened Base
  import opened Enumeracoes
  import opened Datas
  import opened Usuarios
  import opened Criancas
  import opened Agregados
  import opened Repositorios
  import opened Permissoes

  /** `CriancaDTO`: the birth date stands for its ISO string, the degrees for their names. */
  datatype CriancaDTO = CriancaDTO(
    id: string,
    dataNascimento: Data,
    grauTEA: string,
    grauSuporte: string,
    escolaId: Option<string>,
    responsavelIds: seq<string>)

  /** The object built for child `c`: the degrees' names parse back to the child's
      degrees, the school appears only when set and non-empty, and the guardian ids
      are copied. */
  function ParaDTO(c: Crianca): (r: CriancaDTO)
    reads c
    ensures r.id == c.id && r.dataNascimento == c.dataNascimento.data
    ensures GrauTEAFromString(r.grauTEA) == Ok(c.grauTEA) && GrauSuporteFromString(r.grauSuporte) == Ok(c.grauSuporte)
    ensures r.escolaId.Some? <==> Preenchido(c.escolaId)
    ensures r.escolaId.Some? ==> r.escolaId == c.escolaId
    ensures r.responsavelIds == c.responsavelIds
  {
    GrauTEARoundTrip(c.grauTEA);
    GrauSuporteRoundTrip(c.grauSuporte);
    CriancaDTO(c.id, c.dataNascimento.data, c.grauTEA.Nome(), c.grauSuporte.Nome(),
      SeNaoVazio(c.escolaId), c.responsavelIds)
  }

  /** `execute`: the user, then the child, must exist; then the access rule decides,
      and an allowed user gets the child's transfer object. */
  function Visualizar(usuarios: map<string, Usuario>, agregados: map<string, AgregadoCrianca>,
                      usuarioId: string, criancaId: string): (r: Result<CriancaDTO>)
    reads if criancaId in agregados then {agregados[criancaId].crianca} else {}
    ensures usuarioId !in usuarios ==> r == Err(UsuarioNaoEncontrado)
    ensures usuarioId in usuarios && criancaId !in agregados ==> r == Err(CriancaNaoEncontrada)
    ensures usuarioId in usuarios && criancaId in agregados ==>
              var permissao := PermissaoDeAcesso(usuarios[usuarioId], agregados[criancaId].crianca);
              (r.Ok? <==> permissao.Pass?) &&
              (r.Err? ==> Fail(r.error) == permissao) &&
              (r.Ok? ==> r.value == ParaDTO(agregados[criancaId].crianca))
  {
    var carregados := Carregar(usuarios, agregados, usuarioId, criancaId);
    if carregados.Err? then Err(carregados.error)
    else
      var (usuario, agregado) := carregados.value;
      var permissao := PermissaoDeAcesso(usuario, agregado.crianca);
      if permissao.Fail? then Err(permissao.error) else Ok(ParaDTO(agregado.crianca))
  }

  /** The children, among `todos`, whose school is `escolaId`, in listing order: a
      subsequence of `todos` holding every such child. */
  function DaEscola(todos: seq<AgregadoCrianca>, escolaId: string): (r: seq<AgregadoCrianca>)
    reads set a | a in todos :: a.crianca
    ensures |r| <= |todos|
    ensures forall k :: 0 <= k < |r| ==> r[k] in todos && r[k].crianca.escolaId == Some(escolaId)
    ensures forall k :: 0 <= k < |todos| && todos[k].crianca.escolaId == Some(escolaId) ==> todos[k] in r
    ensures SubsequenciaDe(r, todos)
  {
    if todos == [] then []
    else
      var resto := DaEscola(todos[1..], escolaId);
      if todos[0].crianca.escolaId == Some(escolaId) then
        assert ([todos[0]] + resto)[1..] == resto;
        [todos[0]] + resto
      else resto
  }

  /** The children, among `todos`, that list `usuarioId` as a guardian, in listing
      order: a subsequence of `todos` holding every such child. */
  function DoResponsavel(todos: seq<AgregadoCrianca>, usuarioId: string): (r: seq<AgregadoCrianca>)
    reads set a | a in todos :: a.crianca
    ensures |r| <= |todos|
    ensures forall k :: 0 <= k < |r| ==> r[k] in todos && usuarioId in r[k].crianca.responsavelIds
    ensures forall k :: 0 <= k < |todos| && usuarioId in todos[k].crianca.responsavelIds ==> todos[k] in r
    ensures SubsequenciaDe(r, todos)
  {
    if todos == [] then []
    else
      var resto := DoResponsavel(todos[1..], usuarioId);
      if usuarioId in todos[0].crianca.responsavelIds then
        assert ([todos[0]] + resto)[1..] == resto;
        [todos[0]] + resto
      else resto
  }

  /** The aggregates `listarPorUsuario` selects from the repository's listing `todos`:
      all for ADMIN, the school's for a PROFESSOR with a school, the listed guardian's
      for RESPONSAVEL, and none otherwise. Every selected child is one the user may
      view. */
  function Selecionados(usuario: Usuario, todos: seq<AgregadoCrianca>): (r: seq<AgregadoCrianca>)
    reads set a | a in todos :: a.crianca
    ensures usuario.tipoPerfil == ADMIN ==> r == todos
    ensures usuario.tipoPerfil == PROFESSOR && !Preenchido(usuario.escolaId) ==> r == []
    ensures usuario.tipoPerfil == PROFESSOR && Preenchido(usuario.escolaId) ==>
              forall k :: 0 <= k < |todos| && todos[k].crianca.escolaId == usuario.escolaId ==> todos[k] in r
    ensures usuario.tipoPerfil == RESPONSAVEL ==>
              forall k :: 0 <= k < |todos| && Responsavel(usuario, todos[k].crianca) ==> todos[k] in r
    ensures usuario.tipoPerfil in {PAI, CRIANCA} ==> r == []
    ensures forall k :: 0 <= k < |r| ==> r[k] in todos && PermissaoDeAcesso(usuario, r[k].crianca).Pass?
  {
    match usuario.tipoPerfil
    case ADMIN => todos
    case PROFESSOR => if Preenchido(usuario.escolaId) then DaEscola(todos, usuario.escolaId.value) else []
    case RESPONSAVEL => DoResponsavel(todos, usuario.id)
    case _ => []
  }

  /** One transfer object per aggregate, in the same order. */
  function ParaDTOs(agregados: seq<AgregadoCrianca>): (r: seq<CriancaDTO>)
    reads set a | a in agregados :: a.crianca
    ensures |r| == |agregados|
    ensures forall k :: 0 <= k < |agregados| ==> r[k] == ParaDTO(agregados[k].crianca)
  {
    if agregados == [] then [] else [ParaDTO(agregados[0].crianca)] + ParaDTOs(agregados[1..])
  }

  /** `listarPorUsuario`: an unknown user is refused; otherwise one transfer object per
      selected aggregate, in listing order. */
  function ListarPorUsuario(usuarios: map<string, Usuario>, todos: seq<AgregadoCrianca>, usuarioId: string)
    : (r: Result<seq<CriancaDTO>>)
    reads set a | a in todos :: a.crianca
    ensures r.Err? <==> usuarioId !in usuarios
    ensures r.Err? ==> r.error == UsuarioNaoEncontrado
    ensures r.Ok? ==>
              var selecionados := Selecionados(usuarios[usuarioId], todos);
              |r.value| == |selecionados| &&
              forall k :: 0 <= k < |selecionados| ==> r.value[k] == ParaDTO(selecionados[k].crianca)
  {
    if usuarioId !in usuarios then Err(UsuarioNaoEncontrado)
    else Ok(ParaDTOs(Selecionados(usuarios[usuarioId], todos)))
  }
}
