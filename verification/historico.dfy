/** `ManterHistoricoCriseUseCase`: the school team records crises and interventions
    for a child and marks how a crisis ended. Each operation loads the child's
    aggregate, refuses an unknown child, and saves what it produced. */
module ManterHistoricoCrise {
  import opened Base
  import opened Enumeracoes
  import opened Entidade
  import opened Crises
  import opened Intervencoes
  import opened Agregados
  import opened Repositorios

  const CriseNaoEncontrada := "Crise não encontrada no histórico da criança"

  // ---------------------------------------------------------------- registrarCrise

  /** `c` is an open crisis holding exactly the given fields. */
  ghost predicate CriseRegistrada(c: RegistroCrise, dataHora: int, intensidade: IntensidadeDaCrise,
                                  descricao: Option<string>, gatilhoIdentificado: Option<string>)
    reads c
  {
    c.dataHora == dataHora && c.intensidade == intensidade && c.descricao == descricao &&
    c.gatilhoIdentificado == gatilhoIdentificado && c.EmAberto()
  }

  /** The crisis `registrarCrise` builds from its input: the intensity is parsed
      first, then the crisis is created, which is refused when later than `agora`. */
  method CriseDaEntrada(dataHora: int, intensidade: string, descricao: Option<string>,
                        gatilhoIdentificado: Option<string>, agora: int, gerador: GeradorIds)
    returns (r: Result<RegistroCrise>)
    requires gerador.Valid()
    modifies gerador
    ensures gerador.Valid()
    ensures IntensidadeFromString(intensidade).Err? ==> r == Err(IntensidadeFromString(intensidade).error)
    ensures IntensidadeFromString(intensidade).Ok? ==>
              (r.Err? <==> dataHora > agora) && (r.Err? ==> r.error == DataHoraFutura)
    ensures r.Ok? ==>
              fresh(r.value) &&
              CriseRegistrada(r.value, dataHora, IntensidadeFromString(intensidade).value, descricao, gatilhoIdentificado)
  {
    var lida := IntensidadeFromString(intensidade);
    if lida.Err? {
      return Err(lida.error);
    }
    r := RegistroCrise.Create(dataHora, lida.value, descricao, gatilhoIdentificado, agora, gerador);
  }

  /** The second half of `registrarCrise`: the open crisis `crise` is added to
      `agregado`, which is refused while one of its crises is unresolved, and the
      result is saved under the child's id; a refusal saves nothing. */
  method AdicionarESalvarCrise(repo: RepositorioCriancas, criancaId: string, agregado: AgregadoCrianca,
                               crise: RegistroCrise) returns (r: Outcome)
    requires repo.Valid() && agregado.crianca.id == criancaId && crise.EmAberto()
    modifies repo`agregados
    ensures repo.Valid()
    ensures r.Pass? <==> old(!AlgumaEmAberto(agregado.crises))
    ensures r.Fail? ==> r.error == JaExisteEmAndamento && repo.agregados == old(repo.agregados)
    ensures r.Pass? ==>
              repo.agregados == old(repo.agregados)[criancaId := agregado.(crises := agregado.crises + [crise])] &&
              Valido(repo.agregados[criancaId])
  {
    if !AlgumaEmAberto(agregado.crises) {
      NovaCriseUnicaEmAberto(agregado.crises, crise);
    }
    var atualizado := AdicionarCrise(agregado, crise);
    if atualizado.Err? {
      return Fail(atualizado.error);
    }
    repo.Salvar(atualizado.value);
    r := Pass;
  }

  /** `registrarCrise` on the loaded aggregate `agregado`: the crisis is built from the
      input, then added and saved; any refusal saves nothing. On success the saved
      aggregate is `agregado` with the new open crisis at the end of its crises, and
      it satisfies both invariants. */
  method RegistrarCriseNoAgregado(repo: RepositorioCriancas, criancaId: string, agregado: AgregadoCrianca,
                                  dataHora: int, intensidade: string, descricao: Option<string>,
                                  gatilhoIdentificado: Option<string>, agora: int, gerador: GeradorIds)
    returns (r: Outcome, crise: Option<RegistroCrise>)
    requires repo.Valid() && gerador.Valid() && agregado.crianca.id == criancaId
    modifies repo`agregados, gerador
    ensures repo.Valid() && gerador.Valid()
    ensures IntensidadeFromString(intensidade).Err? ==> r == Fail(IntensidadeFromString(intensidade).error)
    ensures IntensidadeFromString(intensidade).Ok? && dataHora > agora ==> r == Fail(DataHoraFutura)
    ensures IntensidadeFromString(intensidade).Ok? && dataHora <= agora ==>
              (r.Pass? <==> !old(AlgumaEmAberto(agregado.crises))) && (r.Fail? ==> r.error == JaExisteEmAndamento)
    ensures r.Fail? ==> repo.agregados == old(repo.agregados)
    ensures r.Pass? ==>
              crise.Some? && fresh(crise.value) &&
              CriseRegistrada(crise.value, dataHora, IntensidadeFromString(intensidade).value, descricao, gatilhoIdentificado) &&
              repo.agregados == old(repo.agregados)[criancaId := agregado.(crises := agregado.crises + [crise.value])] &&
              Valido(repo.agregados[criancaId])
  {
    ghost var havia := AlgumaEmAberto(agregado.crises);
    var criada := CriseDaEntrada(dataHora, intensidade, descricao, gatilhoIdentificado, agora, gerador);
    if criada.Err? {
      return Fail(criada.error), None;
    }
    assert AlgumaEmAberto(agregado.crises) == havia;
    r := AdicionarESalvarCrise(repo, criancaId, agregado, criada.value);
    crise := if r.Pass? then Some(criada.value) else None;
  }

  /** `registrarCrise`: an unknown child is refused and nothing is saved; otherwise
      as `RegistrarCriseNoAgregado` on the child's stored aggregate. */
  method RegistrarCrise(repo: RepositorioCriancas, criancaId: string, dataHora: int, intensidade: string,
                        descricao: Option<string>, gatilhoIdentificado: Option<string>, agora: int,
                        gerador: GeradorIds)
    returns (r: Outcome, crise: Option<RegistroCrise>)
    requires repo.Valid() && gerador.Valid()
    modifies repo`agregados, gerador
    ensures repo.Valid() && gerador.Valid()
    ensures criancaId !in old(repo.agregados) ==> r == Fail(CriancaNaoEncontrada)
    ensures criancaId in old(repo.agregados) && IntensidadeFromString(intensidade).Err? ==>
              r == Fail(IntensidadeFromString(intensidade).error)
    ensures criancaId in old(repo.agregados) && IntensidadeFromString(intensidade).Ok? && dataHora > agora ==>
              r == Fail(DataHoraFutura)
    ensures criancaId in old(repo.agregados) && IntensidadeFromString(intensidade).Ok? && dataHora <= agora ==>
              (r.Pass? <==> old(!AlgumaEmAberto(repo.agregados[criancaId].crises))) &&
              (r.Fail? ==> r.error == JaExisteEmAndamento)
    ensures r.Fail? ==> repo.agregados == old(repo.agregados)
    ensures r.Pass? ==>
              criancaId in old(repo.agregados) && crise.Some? && fresh(crise.value) &&
              CriseRegistrada(crise.value, dataHora, IntensidadeFromString(intensidade).value, descricao, gatilhoIdentificado) &&
              repo.agregados == old(repo.agregados)[criancaId := old(repo.agregados[criancaId]).(crises := old(repo.agregados[criancaId]).crises + [crise.value])] &&
              Valido(repo.agregados[criancaId])
  {
    if criancaId !in repo.agregados {
      return Fail(CriancaNaoEncontrada), None;
    }
    r, crise := RegistrarCriseNoAgregado(repo, criancaId, repo.agregados[criancaId], dataHora, intensidade,
                                         descricao, gatilhoIdentificado, agora, gerador);
  }

  // ---------------------------------------------------------------- registrarIntervencao

  /** `i` holds exactly the given fields. */
  ghost predicate IntervencaoRegistrada(i: Intervencao, dataHora: int, estrategia: string, aplicadaPor: string,
                                        resultado: Option<string>)
    reads i
  {
    i.dataHora == dataHora && i.estrategia == estrategia && i.aplicadaPor == aplicadaPor && i.resultado == resultado
  }

  /** The intervention `registrarIntervencao` builds: created from the input, which is
      refused on a blank strategy or author, and given the outcome only when one is
      supplied and non-empty. */
  method IntervencaoDaEntrada(dataHora: int, estrategia: string, aplicadaPor: string, resultado: Option<string>,
                              gerador: GeradorIds) returns (r: Result<Intervencao>)
    requires gerador.Valid()
    modifies gerador
    ensures gerador.Valid()
    ensures r.Err? <==> EmBranco(estrategia) || EmBranco(aplicadaPor)
    ensures EmBranco(estrategia) ==> r == Err(EstrategiaObrigatoria)
    ensures !EmBranco(estrategia) && EmBranco(aplicadaPor) ==> r == Err(AplicadorObrigatorio)
    ensures r.Ok? ==>
              fresh(r.value) &&
              IntervencaoRegistrada(r.value, dataHora, estrategia, aplicadaPor, if Preenchido(resultado) then resultado else None)
  {
    r := Intervencao.Create(dataHora, estrategia, aplicadaPor, gerador);
    if r.Ok? && Preenchido(resultado) {
      r.value.RegistrarResultado(resultado.value);
    }
  }

  /** The second half of `registrarIntervencao`: the intervention is added to
      `agregado`, which is refused exactly when `agregado` breaks an invariant, and the
      result is saved under the child's id; a refusal saves nothing. */
  method AdicionarESalvarIntervencao(repo: RepositorioCriancas, criancaId: string, agregado: AgregadoCrianca,
                                     intervencao: Intervencao) returns (r: Outcome)
    requires repo.Valid() && agregado.crianca.id == criancaId
    modifies repo`agregados
    ensures repo.Valid()
    ensures r.Pass? <==> old(Valido(agregado))
    ensures r.Fail? ==> r == old(ValidarInvariantes(agregado.crises, agregado.pedidosSuporte)) &&
                        repo.agregados == old(repo.agregados)
    ensures r.Pass? ==>
              repo.agregados == old(repo.agregados)[criancaId := agregado.(intervencoes := agregado.intervencoes + [intervencao])] &&
              Valido(repo.agregados[criancaId])
  {
    var atualizado := AdicionarIntervencao(agregado, intervencao);
    if atualizado.Err? {
      return ValidarInvariantes(agregado.crises, agregado.pedidosSuporte);
    }
    repo.Salvar(atualizado.value);
    r := Pass;
  }

  /** `registrarIntervencao` on the loaded aggregate `agregado`: the intervention is
      built from the input, then added and saved; any refusal saves nothing. */
  method RegistrarIntervencaoNoAgregado(repo: RepositorioCriancas, criancaId: string, agregado: AgregadoCrianca,
                                        dataHora: int, estrategia: string, aplicadaPor: string,
                                        resultado: Option<string>, gerador: GeradorIds)
    returns (r: Outcome, intervencao: Option<Intervencao>)
    requires repo.Valid() && gerador.Valid() && agregado.crianca.id == criancaId
    modifies repo`agregados, gerador
    ensures repo.Valid() && gerador.Valid()
    ensures EmBranco(estrategia) ==> r == Fail(EstrategiaObrigatoria)
    ensures !EmBranco(estrategia) && EmBranco(aplicadaPor) ==> r == Fail(AplicadorObrigatorio)
    ensures !EmBranco(estrategia) && !EmBranco(aplicadaPor) ==>
              (r.Pass? <==> old(Valido(agregado))) &&
              (r.Fail? ==> r == old(ValidarInvariantes(agregado.crises, agregado.pedidosSuporte)))
    ensures r.Fail? ==> repo.agregados == old(repo.agregados)
    ensures r.Pass? ==>
              intervencao.Some? && fresh(intervencao.value) &&
              IntervencaoRegistrada(intervencao.value, dataHora, estrategia, aplicadaPor,
                                    if Preenchido(resultado) then resultado else None) &&
              repo.agregados == old(repo.agregados)[criancaId := agregado.(intervencoes := agregado.intervencoes + [intervencao.value])] &&
              Valido(repo.agregados[criancaId])
  {
    ghost var valido := Valido(agregado);
    ghost var verificacao := ValidarInvariantes(agregado.crises, agregado.pedidosSuporte);
    var criada := IntervencaoDaEntrada(dataHora, estrategia, aplicadaPor, resultado, gerador);
    if criada.Err? {
      return Fail(criada.error), None;
    }
    assert Valido(agregado) == valido && ValidarInvariantes(agregado.crises, agregado.pedidosSuporte) == verificacao;
    r := AdicionarESalvarIntervencao(repo, criancaId, agregado, criada.value);
    intervencao := if r.Pass? then Some(criada.value) else None;
  }

  /** `registrarIntervencao`: an unknown child is refused and nothing is saved;
      otherwise as `RegistrarIntervencaoNoAgregado` on the child's stored aggregate. */
  method RegistrarIntervencao(repo: RepositorioCriancas, criancaId: string, dataHora: int, estrategia: string,
                              aplicadaPor: string, resultado: Option<string>, gerador: GeradorIds)
    returns (r: Outcome, intervencao: Option<Intervencao>)
    requires repo.Valid() && gerador.Valid()
    modifies repo`agregados, gerador
    ensures repo.Valid() && gerador.Valid()
    ensures criancaId !in old(repo.agregados) ==> r == Fail(CriancaNaoEncontrada)
    ensures criancaId in old(repo.agregados) && EmBranco(estrategia) ==> r == Fail(EstrategiaObrigatoria)
    ensures criancaId in old(repo.agregados) && !EmBranco(estrategia) && EmBranco(aplicadaPor) ==>
              r == Fail(AplicadorObrigatorio)
    ensures criancaId in old(repo.agregados) && !EmBranco(estrategia) && !EmBranco(aplicadaPor) ==>
              (r.Pass? <==> old(Valido(repo.agregados[criancaId])))
    ensures r.Fail? ==> repo.agregados == old(repo.agregados)
    ensures r.Pass? ==>
              criancaId in old(repo.agregados) && intervencao.Some? && fresh(intervencao.value) &&
              IntervencaoRegistrada(intervencao.value, dataHora, estrategia, aplicadaPor,
                                    if Preenchido(resultado) then resultado else None) &&
              repo.agregados == old(repo.agregados)[criancaId := old(repo.agregados[criancaId]).(intervencoes := old(repo.agregados[criancaId]).intervencoes + [intervencao.value])] &&
              Valido(repo.agregados[criancaId])
  {
    if criancaId !in repo.agregados {
      return Fail(CriancaNaoEncontrada), None;
    }
    r, intervencao := RegistrarIntervencaoNoAgregado(repo, criancaId, repo.agregados[criancaId], dataHora,
                                                     estrategia, aplicadaPor, resultado, gerador);
  }

  // ---------------------------------------------------------------- marcarEficaciaCrise

  /** `crises.find(c => c.id === criseId)`, as a position: the first crisis with that
      id, or none when no crisis has it. */
  function IndiceDaCrise(crises: seq<RegistroCrise>, criseId: string): (r: Option<nat>)
    ensures r.Some? ==> r.value < |crises| && crises[r.value].id == criseId
    ensures r.Some? ==> forall k :: 0 <= k < r.value ==> crises[k].id != criseId
    ensures r.None? ==> forall k :: 0 <= k < |crises| ==> crises[k].id != criseId
  {
    if crises == [] then None
    else if crises[0].id == criseId then Some(0)
    else
      var resto := IndiceDaCrise(crises[1..], criseId);
      if resto.None? then None else Some(resto.value + 1)
  }

  /** Since the previous state, the crisis at position `i` has been marked `eficaz`
      and no other crisis of the list has changed its outcome. */
  twostate predicate SoAlvoMarcado(crises: seq<RegistroCrise>, i: nat, eficaz: bool)
    reads crises
  {
    i < |crises| && crises[i].foiEficaz == Some(eficaz) &&
    forall k :: 0 <= k < |crises| && crises[k] != crises[i] ==> crises[k].foiEficaz == old(crises[k].foiEficaz)
  }

  /** `marcarEficaciaCrise` on the loaded aggregate `agregado`, as written: an unknown
      crisis id is refused and nothing changes; otherwise the first crisis with that id
      is marked in place and `agregado` is saved again, with no invariant check. When
      that crisis was the only unresolved one and support requests exist, what is
      saved breaks the second invariant. */
  method MarcarEficaciaNoAgregado(repo: RepositorioCriancas, criancaId: string, agregado: AgregadoCrianca,
                                  criseId: string, eficaz: bool) returns (r: Outcome)
    requires repo.Valid() && agregado.crianca.id == criancaId
    modifies repo`agregados, agregado.crises`foiEficaz
    ensures repo.Valid()
    ensures IndiceDaCrise(agregado.crises, criseId).None? ==>
              r == Fail(CriseNaoEncontrada) && repo.agregados == old(repo.agregados) && unchanged(agregado.crises)
    ensures IndiceDaCrise(agregado.crises, criseId).Some? ==>
              r.Pass? && repo.agregados == old(repo.agregados)[criancaId := agregado] &&
              SoAlvoMarcado(agregado.crises, IndiceDaCrise(agregado.crises, criseId).value, eficaz)
    ensures IndiceDaCrise(agregado.crises, criseId).Some? && old(NoMaximoUmaEmAberto(agregado.crises)) &&
            old(agregado.crises[IndiceDaCrise(agregado.crises, criseId).value].EmAberto()) &&
            |agregado.pedidosSuporte| > 0 ==>
              !Valido(agregado)
  {
    var indice := IndiceDaCrise(agregado.crises, criseId);
    if indice.None? {
      return Fail(CriseNaoEncontrada);
    }
    agregado.crises[indice.value].MarcarEficacia(eficaz);
    repo.Salvar(agregado);
    r := Pass;
  }

  /** `marcarEficaciaCrise`, as written: an unknown child is refused and nothing
      changes; otherwise as `MarcarEficaciaNoAgregado` on the stored aggregate, whose
      entry the save leaves as it was. */
  method MarcarEficaciaCrise(repo: RepositorioCriancas, criancaId: string, criseId: string, eficaz: bool)
    returns (r: Outcome)
    requires repo.Valid()
    modifies repo`agregados, (if criancaId in repo.agregados then repo.agregados[criancaId].crises else [])`foiEficaz
    ensures repo.Valid() && repo.agregados == old(repo.agregados)
    ensures criancaId !in repo.agregados ==> r == Fail(CriancaNaoEncontrada)
    ensures criancaId in repo.agregados && IndiceDaCrise(repo.agregados[criancaId].crises, criseId).None? ==>
              r == Fail(CriseNaoEncontrada) && unchanged(repo.agregados[criancaId].crises)
    ensures criancaId in repo.agregados && IndiceDaCrise(repo.agregados[criancaId].crises, criseId).Some? ==>
              r.Pass? &&
              SoAlvoMarcado(repo.agregados[criancaId].crises, IndiceDaCrise(repo.agregados[criancaId].crises, criseId).value, eficaz)
  {
    if criancaId !in repo.agregados {
      return Fail(CriancaNaoEncontrada);
    }
    r := MarcarEficaciaNoAgregado(repo, criancaId, repo.agregados[criancaId], criseId, eficaz);
  }

  /** `marcarEficaciaCrise` with the aggregate's invariants checked, as the other
      aggregate operations do: the crisis is marked, then the lists are checked, and on
      a violation the mark is undone and nothing is saved. On an aggregate satisfying
      both invariants the refusal happens exactly when the marked crisis was the only
      unresolved one and support requests exist. */
  method MarcarEficaciaNoAgregadoValidado(repo: RepositorioCriancas, criancaId: string, agregado: AgregadoCrianca,
                                          criseId: string, eficaz: bool) returns (r: Outcome)
    requires repo.Valid() && agregado.crianca.id == criancaId
    modifies repo`agregados, agregado.crises`foiEficaz
    ensures repo.Valid()
    ensures IndiceDaCrise(agregado.crises, criseId).None? ==> r == Fail(CriseNaoEncontrada)
    ensures r.Fail? ==> repo.agregados == old(repo.agregados) && unchanged(agregado.crises)
    ensures r.Pass? ==>
              IndiceDaCrise(agregado.crises, criseId).Some? &&
              repo.agregados == old(repo.agregados)[criancaId := agregado] &&
              SoAlvoMarcado(agregado.crises, IndiceDaCrise(agregado.crises, criseId).value, eficaz) &&
              Valido(agregado)
    ensures IndiceDaCrise(agregado.crises, criseId).Some? && old(Valido(agregado)) ==>
              (r.Fail? <==> |agregado.pedidosSuporte| > 0 &&
                            old(agregado.crises[IndiceDaCrise(agregado.crises, criseId).value].EmAberto())) &&
              (r.Fail? ==> r == Fail(PedidosSemCrise))
  {
    var indice := IndiceDaCrise(agregado.crises, criseId);
    if indice.None? {
      return Fail(CriseNaoEncontrada);
    }
    var alvo := agregado.crises[indice.value];
    var anterior := alvo.foiEficaz;
    alvo.MarcarEficacia(eficaz);
    r := ValidarInvariantes(agregado.crises, agregado.pedidosSuporte);
    if r.Fail? {
      alvo.foiEficaz := anterior;
      return;
    }
    repo.Salvar(agregado);
  }

  /** `marcarEficaciaCrise` with the invariant check: an unknown child is refused and
      nothing changes; otherwise as `MarcarEficaciaNoAgregadoValidado` on the stored
      aggregate, so what stays stored satisfies both invariants whenever it did. */
  method MarcarEficaciaCriseValidada(repo: RepositorioCriancas, criancaId: string, criseId: string, eficaz: bool)
    returns (r: Outcome)
    requires repo.Valid()
    modifies repo`agregados, (if criancaId in repo.agregados then repo.agregados[criancaId].crises else [])`foiEficaz
    ensures repo.Valid() && repo.agregados == old(repo.agregados)
    ensures criancaId !in repo.agregados ==> r == Fail(CriancaNaoEncontrada)
    ensures criancaId in repo.agregados && IndiceDaCrise(repo.agregados[criancaId].crises, criseId).None? ==>
              r == Fail(CriseNaoEncontrada)
    ensures r.Fail? && criancaId in repo.agregados ==> unchanged(repo.agregados[criancaId].crises)
    ensures r.Pass? ==>
              criancaId in repo.agregados && IndiceDaCrise(repo.agregados[criancaId].crises, criseId).Some? &&
              SoAlvoMarcado(repo.agregados[criancaId].crises, IndiceDaCrise(repo.agregados[criancaId].crises, criseId).value, eficaz) &&
              Valido(repo.agregados[criancaId])
    ensures criancaId in repo.agregados && IndiceDaCrise(repo.agregados[criancaId].crises, criseId).Some? &&
            old(Valido(repo.agregados[criancaId])) ==>
              (r.Fail? <==> |repo.agregados[criancaId].pedidosSuporte| > 0 &&
                            old(repo.agregados[criancaId].crises[IndiceDaCrise(repo.agregados[criancaId].crises, criseId).value].EmAberto()))
  {
    if criancaId !in repo.agregados {
      return Fail(CriancaNaoEncontrada);
    }
    r := MarcarEficaciaNoAgregadoValidado(repo, criancaId, repo.agregados[criancaId], criseId, eficaz);
  }
}
