/** `GerenciarPersonalizacaoSensorialUseCase`: under the access rule, a child's sensory
    personalization is read (a default one being created and saved on first read) or
    partially updated and saved. */
module GerenciarPersonalizacao {
  import opened Base
  import opened Entidade
  import opened Usuarios
  import opened Criancas
  import opened Agregados
  import opened Personalizacoes
  import opened Repositorios
  import opened Permissoes

  const TamanhoInvalido := "Tamanho de fonte inválido"

  /** `PersonalizacaoDTO` */
  datatype PersonalizacaoDTO = PersonalizacaoDTO(
    id: string,
    criancaId: string,
    paletaCores: Option<string>,
    tamanhoFonte: string,
    icones: Option<string>,
    sons: bool,
    animacoes: bool,
    contrasteAlto: bool)

  /** `AtualizarPersonalizacaoInput`: every setting is optional. */
  datatype EntradaAtualizacao = EntradaAtualizacao(
    usuarioId: string,
    criancaId: string,
    paletaCores: Option<string>,
    tamanhoFonte: Option<string>,
    icones: Option<string>,
    sons: Option<bool>,
    animacoes: Option<bool>,
    contrasteAlto: Option<bool>)

  /** `verificarPermissao`: the user, then the child, must exist, and the access rule
      must allow the user. */
  function VerificarPermissao(usuarios: map<string, Usuario>, agregados: map<string, AgregadoCrianca>,
                              usuarioId: string, criancaId: string): (r: Outcome)
    reads if criancaId in agregados then {agregados[criancaId].crianca} else {}
    ensures usuarioId !in usuarios ==> r == Fail(UsuarioNaoEncontrado)
    ensures usuarioId in usuarios && criancaId !in agregados ==> r == Fail(CriancaNaoEncontrada)
    ensures usuarioId in usuarios && criancaId in agregados ==>
              r == PermissaoDeAcesso(usuarios[usuarioId], agregados[criancaId].crianca)
  {
    var carregados := Carregar(usuarios, agregados, usuarioId, criancaId);
    if carregados.Err? then Fail(carregados.error)
    else PermissaoDeAcesso(carregados.value.0, carregados.value.1.crianca)
  }

  // ---------------------------------------------------------------- rows

  /** The settings of `p` as the row `salvar` would store under the id `id`. */
  function Estado(p: PersonalizacaoSensorial, id: string): PersonalizacaoGuardada
    reads p
  {
    PersonalizacaoGuardada(id, p.criancaId, p.paletaCores, p.tamanhoFonte, p.icones, p.sons, p.animacoes, p.contrasteAlto)
  }

  /** The row of a new, default personalization. */
  function LinhaPadrao(id: string, criancaId: string): PersonalizacaoGuardada {
    PersonalizacaoGuardada(id, criancaId, None, MEDIO, None, false, false, false)
  }

  /** A stored row as a load and a save give it back: an empty palette or icon set
      becomes unset. */
  function Normalizada(g: PersonalizacaoGuardada): PersonalizacaoGuardada {
    g.(paletaCores := SeNaoVazio(g.paletaCores), icones := SeNaoVazio(g.icones))
  }

  /** The object `obter` returns for a personalization whose settings are the row
      `g`: an empty palette or icon set is left out, and the font size is its name. */
  function DTODaLinha(g: PersonalizacaoGuardada, id: string): (r: PersonalizacaoDTO)
    ensures r.id == id && r.criancaId == g.criancaId
    ensures r.paletaCores.Some? <==> Preenchido(g.paletaCores)
    ensures r.icones.Some? <==> Preenchido(g.icones)
    ensures r.paletaCores.Some? ==> r.paletaCores == g.paletaCores
    ensures r.icones.Some? ==> r.icones == g.icones
    ensures TamanhoFonteDe(r.tamanhoFonte) == Some(g.tamanhoFonte)
    ensures r.sons == g.sons && r.animacoes == g.animacoes && r.contrasteAlto == g.contrasteAlto
  {
    TamanhoFonteIdaEVolta(g.tamanhoFonte);
    PersonalizacaoDTO(id, g.criancaId, SeNaoVazio(g.paletaCores), g.tamanhoFonte.Nome(), SeNaoVazio(g.icones),
      g.sons, g.animacoes, g.contrasteAlto)
  }

  /** The transfer object leaves out exactly what the normalisation of a load clears. */
  lemma DTODaLinhaNormalizada(g: PersonalizacaoGuardada, id: string)
    ensures DTODaLinha(Normalizada(g), id) == DTODaLinha(g, id)
  {
  }

  // ---------------------------------------------------------------- font size

  /** `toUpperCase()` followed by membership in the enum's values. */
  function TamanhoFonteDe(valor: string): (r: Option<TamanhoFonte>)
    ensures r.Some? <==> Maiusculas(valor) in {"PEQUENO", "MEDIO", "GRANDE"}
    ensures r.Some? ==> r.value.Nome() == Maiusculas(valor)
  {
    var v := Maiusculas(valor);
    if v == "PEQUENO" then Some(PEQUENO)
    else if v == "MEDIO" then Some(MEDIO)
    else if v == "GRANDE" then Some(GRANDE)
    else None
  }

  /** A size's own name is read back as that size. */
  lemma TamanhoFonteIdaEVolta(t: TamanhoFonte)
    ensures TamanhoFonteDe(t.Nome()) == Some(t)
  {
    assert forall i :: 0 <= i < |t.Nome()| ==> !EhMinuscula(t.Nome()[i]);
    MaiusculasSemMinusculas(t.Nome());
  }

  /** The font size in `e` is absent, empty, or names a size. */
  predicate TamanhoValido(e: EntradaAtualizacao) {
    !Preenchido(e.tamanhoFonte) || TamanhoFonteDe(e.tamanhoFonte.value).Some?
  }

  // ---------------------------------------------------------------- atualizar

  /** The settings after `atualizar` applies `e` to `g`: each setting changes only when
      `e` gives it; an empty palette or icon set clears it, an empty font size is
      ignored, and a switch takes the given value, `false` included. */
  function Aplicar(g: PersonalizacaoGuardada, e: EntradaAtualizacao): (r: PersonalizacaoGuardada)
    requires TamanhoValido(e)
    ensures r.id == g.id && r.criancaId == g.criancaId
    ensures e.paletaCores.None? ==> r.paletaCores == g.paletaCores
    ensures e.paletaCores.Some? ==> (r.paletaCores.Some? <==> e.paletaCores.value != "") && (r.paletaCores.Some? ==> r.paletaCores == e.paletaCores)
    ensures e.icones.None? ==> r.icones == g.icones
    ensures e.icones.Some? ==> (r.icones.Some? <==> e.icones.value != "") && (r.icones.Some? ==> r.icones == e.icones)
    ensures !Preenchido(e.tamanhoFonte) ==> r.tamanhoFonte == g.tamanhoFonte
    ensures Preenchido(e.tamanhoFonte) ==> r.tamanhoFonte.Nome() == Maiusculas(e.tamanhoFonte.value)
    ensures r.sons == (if e.sons.Some? then e.sons.value else g.sons)
    ensures r.animacoes == (if e.animacoes.Some? then e.animacoes.value else g.animacoes)
    ensures r.contrasteAlto == (if e.contrasteAlto.Some? then e.contrasteAlto.value else g.contrasteAlto)
  {
    g.(paletaCores := if e.paletaCores.Some? then SeNaoVazio(e.paletaCores) else g.paletaCores,
       tamanhoFonte := if Preenchido(e.tamanhoFonte) then TamanhoFonteDe(e.tamanhoFonte.value).value else g.tamanhoFonte,
       icones := if e.icones.Some? then SeNaoVazio(e.icones) else g.icones,
       sons := if e.sons.Some? then e.sons.value else g.sons,
       animacoes := if e.animacoes.Some? then e.animacoes.value else g.animacoes,
       contrasteAlto := if e.contrasteAlto.Some? then e.contrasteAlto.value else g.contrasteAlto)
  }

  /** Applying the same update twice is applying it once. */
  lemma AplicarIdempotente(g: PersonalizacaoGuardada, e: EntradaAtualizacao)
    requires TamanhoValido(e)
    ensures Aplicar(Aplicar(g, e), e) == Aplicar(g, e)
  {
  }

  /** An update that gives no setting changes nothing. */
  lemma AplicarNada(g: PersonalizacaoGuardada, usuarioId: string, criancaId: string)
    ensures Aplicar(g, EntradaAtualizacao(usuarioId, criancaId, None, None, None, None, None, None)) == g
  {
  }

  /** The setter calls of `atualizar`, in order, on `p`: a font size that names no size
      is refused (after the palette has been set), otherwise every given setting is
      applied as `Aplicar` says. */
  method AplicarEntrada(p: PersonalizacaoSensorial, e: EntradaAtualizacao) returns (r: Outcome)
    modifies p`paletaCores, p`tamanhoFonte, p`icones, p`sons, p`animacoes, p`contrasteAlto
    ensures r.Fail? <==> !TamanhoValido(e)
    ensures r.Fail? ==> r.error == TamanhoInvalido
    ensures r.Pass? ==> Estado(p, p.id) == Aplicar(old(Estado(p, p.id)), e)
  {
    if e.paletaCores.Some? {
      p.AlterarPaletaCores(SeNaoVazio(e.paletaCores));
    }
    if Preenchido(e.tamanhoFonte) {
      var tamanho := TamanhoFonteDe(e.tamanhoFonte.value);
      if tamanho.None? {
        return Fail(TamanhoInvalido);
      }
      p.AlterarTamanhoFonte(tamanho.value);
    }
    if e.icones.Some? {
      p.AlterarIcones(SeNaoVazio(e.icones));
    }
    if e.sons.Some? {
      p.AlterarSons(e.sons.value);
    }
    if e.animacoes.Some? {
      p.AlterarAnimacoes(e.animacoes.value);
    }
    if e.contrasteAlto.Some? {
      p.AlterarContrasteAlto(e.contrasteAlto.value);
    }
    r := Pass;
  }

  /** The personalization both operations start from: the child's stored one, rebuilt,
      or else a new default one, which a blank child id makes `create` refuse. */
  method BuscarOuCriar(repo: RepositorioPersonalizacoes, criancaId: string, gerador: GeradorIds)
    returns (r: Result<PersonalizacaoSensorial>)
    requires repo.Valid() && gerador.Valid()
    modifies gerador
    ensures gerador.Valid()
    ensures criancaId in repo.guardadas ==>
              r.Ok? && Estado(r.value, repo.guardadas[criancaId].id) == Normalizada(repo.guardadas[criancaId]) &&
              (repo.guardadas[criancaId].id != "" ==> r.value.id == repo.guardadas[criancaId].id)
    ensures criancaId !in repo.guardadas ==>
              (r.Err? <==> EmBranco(criancaId)) && (r.Err? ==> r.error == CriancaObrigatoria) &&
              (r.Ok? ==> Estado(r.value, r.value.id) == LinhaPadrao(r.value.id, criancaId))
    ensures r.Ok? ==> fresh(r.value)
  {
    var carregada := repo.BuscarPorCrianca(criancaId, gerador);
    if carregada.Some? {
      return Ok(carregada.value);
    }
    r := PersonalizacaoSensorial.Create(criancaId, gerador);
  }

  /** The row `atualizar` starts from: the stored one as a load gives it back, or the
      default row of a new personalization with id `novoId`. */
  function LinhaInicial(guardadas: map<string, PersonalizacaoGuardada>, criancaId: string, novoId: string): PersonalizacaoGuardada {
    if criancaId in guardadas then Normalizada(guardadas[criancaId]) else LinhaPadrao(novoId, criancaId)
  }

  /** The id the saved row of `p` keeps: the stored row's, or else `p`'s own. */
  function IdGuardado(guardadas: map<string, PersonalizacaoGuardada>, p: PersonalizacaoSensorial): string
    reads p
  {
    if p.criancaId in guardadas then guardadas[p.criancaId].id else p.id
  }

  /** The settings of `e` applied to `p`, then `p` saved; a font size that names no size
      saves nothing. */
  method AplicarESalvar(repo: RepositorioPersonalizacoes, p: PersonalizacaoSensorial, e: EntradaAtualizacao)
    returns (r: Outcome)
    requires repo.Valid()
    modifies repo`guardadas, p`paletaCores, p`tamanhoFonte, p`icones, p`sons, p`animacoes, p`contrasteAlto
    ensures repo.Valid()
    ensures r.Fail? <==> !TamanhoValido(e)
    ensures r.Fail? ==> r == Fail(TamanhoInvalido) && repo.guardadas == old(repo.guardadas)
    ensures r.Pass? ==>
              TamanhoValido(e) &&
              repo.guardadas == old(repo.guardadas)[p.criancaId :=
                Aplicar(old(Estado(p, IdGuardado(repo.guardadas, p))), e)]
  {
    r := AplicarEntrada(p, e);
    if r.Fail? {
      return;
    }
    repo.Salvar(p);
  }

  /** The part of `atualizar` after the permission check: the stored or a new default
      personalization gets the given settings and is saved once, at the end; a refused
      creation or font size saves nothing. */
  method AtualizarPermitido(repo: RepositorioPersonalizacoes, e: EntradaAtualizacao, gerador: GeradorIds)
    returns (r: Outcome)
    requires repo.Valid() && gerador.Valid()
    modifies repo`guardadas, gerador
    ensures repo.Valid() && gerador.Valid()
    ensures e.criancaId !in old(repo.guardadas) && EmBranco(e.criancaId) ==> r == Fail(CriancaObrigatoria)
    ensures e.criancaId in old(repo.guardadas) || !EmBranco(e.criancaId) ==>
              (r.Pass? <==> TamanhoValido(e)) && (r.Fail? ==> r == Fail(TamanhoInvalido))
    ensures r.Fail? ==> repo.guardadas == old(repo.guardadas)
    ensures r.Pass? ==>
              e.criancaId in repo.guardadas && TamanhoValido(e) &&
              repo.guardadas == old(repo.guardadas)[e.criancaId :=
                Aplicar(LinhaInicial(old(repo.guardadas), e.criancaId, repo.guardadas[e.criancaId].id), e)]
  {
    var p := BuscarOuCriar(repo, e.criancaId, gerador);
    if p.Err? {
      return Fail(p.error);
    }
    r := AplicarESalvar(repo, p.value, e);
  }

  /** `atualizar`: the permission check, then the update. */
  method Atualizar(usuarios: map<string, Usuario>, repoCriancas: RepositorioCriancas, repo: RepositorioPersonalizacoes,
                   e: EntradaAtualizacao, gerador: GeradorIds) returns (r: Outcome)
    requires repo.Valid() && gerador.Valid()
    modifies repo`guardadas, gerador
    ensures repo.Valid() && gerador.Valid()
    ensures old(VerificarPermissao(usuarios, repoCriancas.agregados, e.usuarioId, e.criancaId)).Fail? ==>
              r == old(VerificarPermissao(usuarios, repoCriancas.agregados, e.usuarioId, e.criancaId)) &&
              repo.guardadas == old(repo.guardadas)
    ensures old(VerificarPermissao(usuarios, repoCriancas.agregados, e.usuarioId, e.criancaId)).Pass? ==>
              (e.criancaId !in old(repo.guardadas) && EmBranco(e.criancaId) ==> r == Fail(CriancaObrigatoria)) &&
              (e.criancaId in old(repo.guardadas) || !EmBranco(e.criancaId) ==>
                 (r.Pass? <==> TamanhoValido(e)) && (r.Fail? ==> r == Fail(TamanhoInvalido)))
    ensures r.Fail? ==> repo.guardadas == old(repo.guardadas)
    ensures r.Pass? ==>
              e.criancaId in repo.guardadas && TamanhoValido(e) &&
              repo.guardadas == old(repo.guardadas)[e.criancaId :=
                Aplicar(LinhaInicial(old(repo.guardadas), e.criancaId, repo.guardadas[e.criancaId].id), e)]
  {
    r := VerificarPermissao(usuarios, repoCriancas.agregados, e.usuarioId, e.criancaId);
    if r.Fail? {
      return;
    }
    r := AtualizarPermitido(repo, e, gerador);
  }

  // ---------------------------------------------------------------- obter

  /** The part of `obter` after the permission check: the transfer object of the
      child's stored personalization, or of a new default one, created and saved first;
      a refused creation saves nothing. */
  method ObterPermitido(repo: RepositorioPersonalizacoes, criancaId: string, gerador: GeradorIds)
    returns (r: Result<PersonalizacaoDTO>)
    requires repo.Valid() && gerador.Valid()
    modifies repo`guardadas, gerador
    ensures repo.Valid() && gerador.Valid()
    ensures (r.Ok? <==> criancaId in old(repo.guardadas) || !EmBranco(criancaId)) &&
            (r.Err? ==> r.error == CriancaObrigatoria)
    ensures criancaId in old(repo.guardadas) || r.Err? ==> repo.guardadas == old(repo.guardadas)
    ensures criancaId !in old(repo.guardadas) && r.Ok? ==>
              repo.guardadas == old(repo.guardadas)[criancaId := LinhaPadrao(r.value.id, criancaId)]
    ensures r.Ok? ==>
              criancaId in repo.guardadas && r.value == DTODaLinha(repo.guardadas[criancaId], r.value.id) &&
              (repo.guardadas[criancaId].id != "" ==> r.value.id == repo.guardadas[criancaId].id)
  {
    var existia := criancaId in repo.guardadas;
    var p := BuscarOuCriar(repo, criancaId, gerador);
    if p.Err? {
      return Err(p.error);
    }
    if !existia {
      repo.Salvar(p.value);
    }
    DTODaLinhaNormalizada(repo.guardadas[criancaId], p.value.id);
    r := Ok(DTODaLinha(Estado(p.value, p.value.id), p.value.id));
  }

  /** `obter`: the permission check, then the read. */
  method Obter(usuarios: map<string, Usuario>, repoCriancas: RepositorioCriancas, repo: RepositorioPersonalizacoes,
               usuarioId: string, criancaId: string, gerador: GeradorIds) returns (r: Result<PersonalizacaoDTO>)
    requires repo.Valid() && gerador.Valid()
    modifies repo`guardadas, gerador
    ensures repo.Valid() && gerador.Valid()
    ensures old(VerificarPermissao(usuarios, repoCriancas.agregados, usuarioId, criancaId)).Fail? ==>
              r == Err(old(VerificarPermissao(usuarios, repoCriancas.agregados, usuarioId, criancaId)).error) &&
              repo.guardadas == old(repo.guardadas)
    ensures old(VerificarPermissao(usuarios, repoCriancas.agregados, usuarioId, criancaId)).Pass? ==>
              (r.Ok? <==> criancaId in old(repo.guardadas) || !EmBranco(criancaId)) &&
              (r.Err? ==> r.error == CriancaObrigatoria)
    ensures criancaId in old(repo.guardadas) || r.Err? ==> repo.guardadas == old(repo.guardadas)
    ensures criancaId !in old(repo.guardadas) && r.Ok? ==>
              repo.guardadas == old(repo.guardadas)[criancaId := LinhaPadrao(r.value.id, criancaId)]
    ensures r.Ok? ==>
              criancaId in repo.guardadas && r.value == DTODaLinha(repo.guardadas[criancaId], r.value.id) &&
              (repo.guardadas[criancaId].id != "" ==> r.value.id == repo.guardadas[criancaId].id)
  {
    var permissao := VerificarPermissao(usuarios, repoCriancas.agregados, usuarioId, criancaId);
    if permissao.Fail? {
      return Err(permissao.error);
    }
    r := ObterPermitido(repo, criancaId, gerador);
  }
}
