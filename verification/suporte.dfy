/** The SOS button (`SolicitarSuporteUseCase.execute`): a support request is attached
    to the child's first unresolved crisis, or to a new high-intensity crisis opened
    for it, the aggregate is saved, and the optional notification service is told.
    The three readings of the clock in the source are one instant, `agora`. */
module SolicitarSuporte {
  import opened Base
  import opened Enumeracoes
  import opened Entidade
  import opened Crises
  import opened Pedidos
  import opened Agregados
  import opened Repositorios

  const DescricaoPadrao := "Botão de ajuda acionado"
  const TipoSos := "SOS"

  /** A crisis as the SOS opens it: unresolved, of intensity ALTA, stamped `agora`,
      described as the help button and with no trigger. */
  ghost predicate CriseDoSos(crise: RegistroCrise, agora: int)
    reads crise
  {
    crise.EmAberto() && crise.intensidade == ALTA && crise.descricao == Some(DescricaoPadrao) &&
    crise.dataHora == agora && crise.gatilhoIdentificado == None
  }

  /** The crisis an SOS opens when `a` has no unresolved crisis: a new open ALTA
      crisis stamped `agora` and described as the help button, appended to `a`'s
      crises, where it is the only and first unresolved one. */
  method AbrirCriseSos(a: AgregadoCrianca, agora: int, gerador: GeradorIds) returns (r: AgregadoCrianca, crise: RegistroCrise)
    requires gerador.Valid() && !AlgumaEmAberto(a.crises)
    modifies gerador
    ensures gerador.Valid()
    ensures r == a.(crises := a.crises + [crise])
    ensures fresh(crise) && crise.intensidade == ALTA && crise.descricao == Some(DescricaoPadrao) &&
            crise.dataHora == agora && crise.gatilhoIdentificado == None
    ensures PrimeiraEmAberto(r.crises, crise) && AlgumaEmAberto(r.crises) && NoMaximoUmaEmAberto(r.crises)
  {
    var nova := RegistroCrise.Create(agora, ALTA, Some(DescricaoPadrao), None, agora, gerador);
    crise := nova.value;
    NovaCriseUnicaEmAberto(a.crises, crise);
    var comCrise := AdicionarCrise(a, crise);
    r := comCrise.value;
  }

  /** The crisis an SOS attaches to: the first unresolved crisis of `a`, which is
      then unchanged, or else the crisis `AbrirCriseSos` opens. Either way the crisis
      is the first unresolved one of the returned aggregate, which has an unresolved
      crisis and satisfies invariant 1 exactly when `a` did. */
  method CriseAtiva(a: AgregadoCrianca, agora: int, gerador: GeradorIds) returns (r: AgregadoCrianca, crise: RegistroCrise)
    requires gerador.Valid()
    modifies gerador
    ensures gerador.Valid()
    ensures r.crianca == a.crianca && r.pedidosSuporte == a.pedidosSuporte && r.intervencoes == a.intervencoes
    ensures PrimeiraEmAberto(r.crises, crise) && AlgumaEmAberto(r.crises)
    ensures NoMaximoUmaEmAberto(r.crises) <==> old(NoMaximoUmaEmAberto(a.crises))
    ensures old(AlgumaEmAberto(a.crises)) ==> r.crises == a.crises && !fresh(crise) && old(PrimeiraEmAberto(a.crises, crise))
    ensures !old(AlgumaEmAberto(a.crises)) ==>
              r.crises == a.crises + [crise] && fresh(crise) && crise.intensidade == ALTA &&
              crise.descricao == Some(DescricaoPadrao) && crise.dataHora == agora && crise.gatilhoIdentificado == None
  {
    NaoResolvidasPrimeira(a.crises);
    var naoResolvidas := NaoResolvidas(a.crises);
    if |naoResolvidas| > 0 {
      return a, naoResolvidas[0];
    }
    r, crise := AbrirCriseSos(a, agora, gerador);
  }

  /** The request of an SOS: a new PENDENTE request stamped `agora` whose crisis is
      overwritten by `crise`, the crisis it is for. */
  method PedidoPara(crise: RegistroCrise, agora: int, gerador: GeradorIds) returns (pedido: PedidoSuporte)
    requires gerador.Valid()
    modifies gerador
    ensures gerador.Valid()
    ensures fresh(pedido) && pedido.status == PENDENTE && pedido.dataHora == agora && pedido.registroCrise == crise
  {
    var descricaoPedido := if crise.descricao.Some? then crise.descricao else Some(DescricaoPadrao);
    var criado := PedidoSuporte.Create(agora, crise.intensidade, descricaoPedido, agora, gerador);
    pedido := criado.value;
    pedido.registroCrise := crise;
  }

  /** The request made for `crise`, the first unresolved crisis of `agregado`, added to
      the aggregate: this goes through exactly when `agregado` satisfied invariant 1,
      and the new aggregate then satisfies both invariants with `crise` still its first
      unresolved crisis. */
  method AnexarPedidoNaCrise(agregado: AgregadoCrianca, crise: RegistroCrise, agora: int, gerador: GeradorIds)
    returns (r: Result<AgregadoCrianca>, pedido: PedidoSuporte)
    requires gerador.Valid()
    requires PrimeiraEmAberto(agregado.crises, crise)
    modifies gerador
    ensures gerador.Valid()
    ensures r.Ok? <==> old(NoMaximoUmaEmAberto(agregado.crises))
    ensures r.Err? ==> r.error == MultiplasEmAberto
    ensures fresh(pedido) && pedido.status == PENDENTE && pedido.dataHora == agora && pedido.registroCrise == crise
    ensures r.Ok? ==> r.value == agregado.(pedidosSuporte := agregado.pedidosSuporte + [pedido])
    ensures r.Ok? ==> Valido(r.value) && PrimeiraEmAberto(r.value.crises, crise)
  {
    pedido := PedidoPara(crise, agora, gerador);
    r := AdicionarPedidoSuporte(agregado, pedido);
  }

  /** The heart of `execute` once the aggregate `a` is loaded. It goes through
      exactly when `a`'s crises had at most one unresolved (always, for an aggregate
      that satisfies invariant 1); otherwise the aggregate's check reports multiple
      unresolved crises. The result is `a` with the crises of `CriseAtiva` and the
      new PENDENTE request `pedido` at the end of its requests; the request embeds
      the active crisis itself, and the result satisfies both invariants. */
  method AnexarPedido(a: AgregadoCrianca, agora: int, gerador: GeradorIds)
    returns (r: Result<AgregadoCrianca>, crise: RegistroCrise, pedido: PedidoSuporte)
    requires gerador.Valid()
    modifies gerador
    ensures gerador.Valid()
    ensures r.Ok? <==> old(NoMaximoUmaEmAberto(a.crises))
    ensures r.Err? ==> r.error == MultiplasEmAberto
    ensures fresh(pedido) && pedido.status == PENDENTE && pedido.dataHora == agora && pedido.registroCrise == crise
    ensures old(AlgumaEmAberto(a.crises)) ==> !fresh(crise) && old(PrimeiraEmAberto(a.crises, crise))
    ensures !old(AlgumaEmAberto(a.crises)) ==> fresh(crise) && CriseDoSos(crise, agora)
    ensures r.Ok? ==> r.value.crianca == a.crianca && r.value.intervencoes == a.intervencoes &&
                      r.value.pedidosSuporte == a.pedidosSuporte + [pedido] &&
                      r.value.crises == (if old(AlgumaEmAberto(a.crises)) then a.crises else a.crises + [crise])
    ensures r.Ok? ==> Valido(r.value) && PrimeiraEmAberto(r.value.crises, crise)
  {
    var agregado;
    agregado, crise := CriseAtiva(a, agora, gerador);
    r, pedido := AnexarPedidoNaCrise(agregado, crise, agora, gerador);
  }

  /** What `execute` does with an accepted aggregate `novo` holding the new request
      `pedido`: it is saved under the child's id, which nothing else in the
      repository changes, and then the configured notification service, if any, is
      sent one SOS notification for the request. */
  method SalvarENotificar(repo: RepositorioCriancas, notificador: Option<ServicoNotificacao>, criancaId: string,
                          novo: AgregadoCrianca, pedido: PedidoSuporte, agora: int)
    requires repo.Valid() && novo.crianca.id == criancaId && Valido(novo)
    modifies repo`agregados, if notificador.Some? then {notificador.value} else {}
    ensures repo.Valid() && Valido(novo)
    ensures repo.agregados == old(repo.agregados)[criancaId := novo]
    ensures unchanged(pedido, pedido.registroCrise)
    ensures notificador.Some? ==>
              notificador.value.enviadas ==
                old(notificador.value.enviadas) + [NotificacaoPedidoSuporte(criancaId, Some(pedido.id), TipoSos, agora)]
  {
    repo.Salvar(novo);
    if notificador.Some? {
      notificador.value.NotificarPedidoSuporte(NotificacaoPedidoSuporte(criancaId, Some(pedido.id), TipoSos, agora));
    }
  }

  /** `execute` once the child's aggregate `agregado` has been found in `repo`: the
      request goes through exactly when the aggregate satisfied invariant 1; then the
      aggregate with the new request, valid and otherwise unchanged, replaces it in
      the repository and the notification names that request. The request's crisis
      `crise` is the aggregate's first unresolved crisis, or else a new SOS crisis
      appended to its crises. A refused request saves and sends nothing. */
  method SolicitarParaAgregado(repo: RepositorioCriancas, notificador: Option<ServicoNotificacao>, criancaId: string,
                               agregado: AgregadoCrianca, agora: int, gerador: GeradorIds)
    returns (r: Outcome, novo: AgregadoCrianca, crise: RegistroCrise, pedido: PedidoSuporte)
    requires repo.Valid() && gerador.Valid()
    requires criancaId in repo.agregados && repo.agregados[criancaId] == agregado
    modifies repo, gerador, if notificador.Some? then {notificador.value} else {}
    ensures repo.Valid() && gerador.Valid()
    ensures r.Pass? <==> old(NoMaximoUmaEmAberto(agregado.crises))
    ensures r.Fail? ==> r.error == MultiplasEmAberto && repo.agregados == old(repo.agregados)
    ensures r.Fail? && notificador.Some? ==> notificador.value.enviadas == old(notificador.value.enviadas)
    ensures fresh(pedido) && pedido.status == PENDENTE && pedido.dataHora == agora && pedido.registroCrise == crise
    ensures old(AlgumaEmAberto(agregado.crises)) ==> !fresh(crise) && old(PrimeiraEmAberto(agregado.crises, crise))
    ensures !old(AlgumaEmAberto(agregado.crises)) ==> fresh(crise) && CriseDoSos(crise, agora)
    ensures r.Pass? ==>
              repo.agregados == old(repo.agregados)[criancaId := novo] &&
              novo.crianca == agregado.crianca && novo.intervencoes == agregado.intervencoes &&
              novo.pedidosSuporte == agregado.pedidosSuporte + [pedido] &&
              novo.crises == (if old(AlgumaEmAberto(agregado.crises)) then agregado.crises else agregado.crises + [crise]) &&
              Valido(novo) &&
              (notificador.Some? ==>
                 notificador.value.enviadas ==
                   old(notificador.value.enviadas) + [NotificacaoPedidoSuporte(criancaId, Some(pedido.id), TipoSos, agora)])
  {
    var atualizado;
    atualizado, crise, pedido := AnexarPedido(agregado, agora, gerador);
    if atualizado.Err? {
      return Fail(atualizado.error), agregado, crise, pedido;
    }
    novo := atualizado.value;
    SalvarENotificar(repo, notificador, criancaId, novo, pedido, agora);
    r := Pass;
  }

  /** `execute`: an unknown child is refused before anything changes; otherwise the
      aggregate built by `AnexarPedido`, ending with a new PENDENTE request stamped
      `agora`, is saved under the child's id and then, when a notification service is
      configured, it is told about the new request. A refused request saves and sends
      nothing. */
  method Execute(repo: RepositorioCriancas, notificador: Option<ServicoNotificacao>, criancaId: string,
                 agora: int, gerador: GeradorIds) returns (r: Outcome)
    requires repo.Valid() && gerador.Valid()
    modifies repo, gerador, if notificador.Some? then {notificador.value} else {}
    ensures repo.Valid() && gerador.Valid()
    ensures criancaId !in old(repo.agregados) ==> r == Fail(CriancaNaoEncontrada)
    ensures criancaId in old(repo.agregados) ==> (r.Pass? <==> old(NoMaximoUmaEmAberto(repo.agregados[criancaId].crises)))
    ensures r.Fail? ==> repo.agregados == old(repo.agregados)
    ensures r.Fail? && notificador.Some? ==> notificador.value.enviadas == old(notificador.value.enviadas)
    ensures r.Pass? ==> criancaId in old(repo.agregados) && criancaId in repo.agregados
    ensures r.Pass? ==>
              var novo := repo.agregados[criancaId];
              var n := |old(repo.agregados[criancaId]).pedidosSuporte|;
              repo.agregados == old(repo.agregados)[criancaId := novo] &&
              |novo.pedidosSuporte| == n + 1 && novo.pedidosSuporte[..n] == old(repo.agregados[criancaId]).pedidosSuporte &&
              Valido(novo) &&
              (notificador.Some? ==>
                 notificador.value.enviadas ==
                   old(notificador.value.enviadas) + [NotificacaoPedidoSuporte(criancaId, Some(novo.pedidosSuporte[n].id), TipoSos, agora)])
    ensures r.Pass? ==>
              var novo := repo.agregados[criancaId];
              var n := |old(repo.agregados[criancaId]).pedidosSuporte|;
              fresh(novo.pedidosSuporte[n]) && novo.pedidosSuporte[n].status == PENDENTE &&
              novo.pedidosSuporte[n].dataHora == agora
    ensures r.Pass? ==>
              var antigo := old(repo.agregados[criancaId]);
              var novo := repo.agregados[criancaId];
              var crise := novo.pedidosSuporte[|antigo.pedidosSuporte|].registroCrise;
              novo.crianca == antigo.crianca && novo.intervencoes == antigo.intervencoes &&
              (old(AlgumaEmAberto(antigo.crises)) ==>
                 novo.crises == antigo.crises && !fresh(crise) && old(PrimeiraEmAberto(antigo.crises, crise))) &&
              (!old(AlgumaEmAberto(antigo.crises)) ==>
                 novo.crises == antigo.crises + [crise] && fresh(crise) && CriseDoSos(crise, agora))
  {
    if criancaId !in repo.agregados {
      return Fail(CriancaNaoEncontrada);
    }
    var novo, crise, pedido;
    r, novo, crise, pedido := SolicitarParaAgregado(repo, notificador, criancaId, repo.agregados[criancaId], agora, gerador);
  }
}
