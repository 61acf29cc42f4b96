/** `CriarCriancaUseCase`: a PROFESSOR with a school, or a RESPONSAVEL (who is made a
    guardian of the child), registers a child, which is saved as a new aggregate with
    empty lists. */
module CriarCrianca {
  import opened Base
  import opened Enumeracoes
  import opened Datas
  import opened Entidade
  import opened Usuarios
  import opened Criancas
  import opened Agregados
  import opened Repositorios
  import opened Permissoes

  const ApenasEquipeOuResponsaveis := "Permissão negada: apenas equipe escolar ou responsáveis podem cadastrar crianças"
  const EscolaObrigatoria := "escolaId é obrigatório para equipe escolar"

  /** `CriarCriancaInput` */
  datatype EntradaCriacao = EntradaCriacao(
    usuarioId: string,
    dataNascimento: Data,
    grauTEA: string,
    grauSuporte: string,
    escolaId: Option<string>,
    responsavelIds: Option<seq<string>>)

  /** The guardian list passed on to the child: a RESPONSAVEL caller is added once,
      at the end, when not yet listed, and a missing list becomes one holding only the
      caller; for any other profile the input is passed on as given. */
  function ResponsaveisInformados(perfil: TipoPerfil, usuarioId: string, ids: Option<seq<string>>)
    : (r: Option<seq<string>>)
    ensures perfil != RESPONSAVEL ==> r == ids
    ensures perfil == RESPONSAVEL ==> r.Some? && usuarioId in r.value
    ensures perfil == RESPONSAVEL && ids.Some? && usuarioId in ids.value ==> r == ids
    ensures perfil == RESPONSAVEL && ids.Some? && usuarioId !in ids.value ==> r == Some(ids.value + [usuarioId])
    ensures perfil == RESPONSAVEL && ids.None? ==> r == Some([usuarioId])
  {
    if perfil != RESPONSAVEL then ids
    else if ids.None? then Some([usuarioId])
    else Some(ComResponsavel(ids.value, usuarioId))
  }

  /** A RESPONSAVEL's guardian list without repetitions stays without repetitions. */
  lemma ResponsaveisSemRepeticao(perfil: TipoPerfil, usuarioId: string, ids: seq<string>)
    requires SemRepeticao(ids)
    ensures SemRepeticao(ResponsaveisInformados(perfil, usuarioId, Some(ids)).value)
  {
    ComResponsavelSemRepeticao(ids, usuarioId);
  }

  /** What the checks of `execute` produce from `entrada` before anything is created. */
  datatype DadosValidados = DadosValidados(
    dataNascimento: DataNascimento,
    grauTEA: GrauTEA,
    grauSuporte: GrauSuporte,
    responsavelIds: Option<seq<string>>)

  /** The checks of `execute`, in order: the user must exist, its profile must be
      PROFESSOR or RESPONSAVEL, a PROFESSOR must give a school, then the birth date and
      the two degrees are parsed; the first failure is the refusal. On success the
      parsed values and the passed-on guardian list. */
  function Validar(usuarios: map<string, Usuario>, entrada: EntradaCriacao, hoje: Data): (r: Result<DadosValidados>)
    ensures entrada.usuarioId !in usuarios ==> r == Err(UsuarioNaoEncontrado)
    ensures entrada.usuarioId in usuarios && usuarios[entrada.usuarioId].tipoPerfil !in {PROFESSOR, RESPONSAVEL} ==>
              r == Err(ApenasEquipeOuResponsaveis)
    ensures entrada.usuarioId in usuarios && usuarios[entrada.usuarioId].tipoPerfil == PROFESSOR &&
            !Preenchido(entrada.escolaId) ==>
              r == Err(EscolaObrigatoria)
    ensures r.Ok? <==>
              entrada.usuarioId in usuarios && usuarios[entrada.usuarioId].tipoPerfil in {PROFESSOR, RESPONSAVEL} &&
              (usuarios[entrada.usuarioId].tipoPerfil == PROFESSOR ==> Preenchido(entrada.escolaId)) &&
              CriarDataNascimento(entrada.dataNascimento, hoje).Ok? &&
              GrauTEAFromString(entrada.grauTEA).Ok? && GrauSuporteFromString(entrada.grauSuporte).Ok?
    ensures r.Ok? ==>
              Ok(r.value.dataNascimento) == CriarDataNascimento(entrada.dataNascimento, hoje) &&
              Ok(r.value.grauTEA) == GrauTEAFromString(entrada.grauTEA) &&
              Ok(r.value.grauSuporte) == GrauSuporteFromString(entrada.grauSuporte) &&
              r.value.responsavelIds ==
                ResponsaveisInformados(usuarios[entrada.usuarioId].tipoPerfil, entrada.usuarioId, entrada.responsavelIds)
  {
    if entrada.usuarioId !in usuarios then Err(UsuarioNaoEncontrado)
    else
      var perfil := usuarios[entrada.usuarioId].tipoPerfil;
      if perfil != PROFESSOR && perfil != RESPONSAVEL then Err(ApenasEquipeOuResponsaveis)
      else if perfil == PROFESSOR && !Preenchido(entrada.escolaId) then Err(EscolaObrigatoria)
      else
        var responsavelIds := ResponsaveisInformados(perfil, entrada.usuarioId, entrada.responsavelIds);
        var dataNascimento := CriarDataNascimento(entrada.dataNascimento, hoje);
        if dataNascimento.Err? then Err(dataNascimento.error)
        else
          var grauTEA := GrauTEAFromString(entrada.grauTEA);
          if grauTEA.Err? then Err(grauTEA.error)
          else
            var grauSuporte := GrauSuporteFromString(entrada.grauSuporte);
            if grauSuporte.Err? then Err(grauSuporte.error)
            else Ok(DadosValidados(dataNascimento.value, grauTEA.value, grauSuporte.value, responsavelIds))
  }

  /** `a` is the aggregate `execute` saves for the checked data `dados`: a new child
      with those values, the input's school and the passed-on guardians, and no
      crisis, request or intervention. */
  ghost predicate AgregadoCriado(a: AgregadoCrianca, dados: DadosValidados, escolaId: Option<string>)
    reads a.crianca
  {
    a.crises == [] && a.pedidosSuporte == [] && a.intervencoes == [] &&
    a.crianca.dataNascimento == dados.dataNascimento && a.crianca.grauTEA == dados.grauTEA &&
    a.crianca.grauSuporte == dados.grauSuporte && a.crianca.escolaId == escolaId &&
    a.crianca.responsavelIds == (if dados.responsavelIds.Some? then dados.responsavelIds.value else [])
  }

  /** The last step of `execute`: a new child is created from the checked data and
      saved, with empty lists, under its new id, which is returned. */
  method SalvarNovaCrianca(repo: RepositorioCriancas, dados: DadosValidados, escolaId: Option<string>,
                           gerador: GeradorIds) returns (id: string)
    requires repo.Valid() && gerador.Valid()
    modifies repo`agregados, gerador
    ensures repo.Valid() && gerador.Valid()
    ensures id in repo.agregados && id !in old(gerador.emitidos)
    ensures repo.agregados == old(repo.agregados)[id := repo.agregados[id]]
    ensures fresh(repo.agregados[id].crianca) && AgregadoCriado(repo.agregados[id], dados, escolaId)
  {
    var crianca := Crianca.Create(dados.dataNascimento, dados.grauTEA, dados.grauSuporte, escolaId,
                                  dados.responsavelIds, gerador);
    repo.Salvar(Criar(crianca).value);
    id := crianca.id;
  }

  /** `execute`: every refusal saves nothing; on success the new aggregate is saved
      under the new child's id, which is returned. */
  method Executar(usuarios: map<string, Usuario>, repo: RepositorioCriancas, entrada: EntradaCriacao, hoje: Data,
                  gerador: GeradorIds) returns (r: Result<string>)
    requires repo.Valid() && gerador.Valid()
    modifies repo`agregados, gerador
    ensures repo.Valid() && gerador.Valid()
    ensures r.Err? <==> Validar(usuarios, entrada, hoje).Err?
    ensures r.Err? ==> r.error == Validar(usuarios, entrada, hoje).error && repo.agregados == old(repo.agregados)
    ensures r.Ok? ==>
              r.value in repo.agregados && r.value !in old(gerador.emitidos) &&
              repo.agregados == old(repo.agregados)[r.value := repo.agregados[r.value]] &&
              fresh(repo.agregados[r.value].crianca) &&
              AgregadoCriado(repo.agregados[r.value], Validar(usuarios, entrada, hoje).value, entrada.escolaId)
  {
    var dados := Validar(usuarios, entrada, hoje);
    if dados.Err? {
      return Err(dados.error);
    }
    var id := SalvarNovaCrianca(repo, dados.value, entrada.escolaId, gerador);
    r := Ok(id);
  }
}
