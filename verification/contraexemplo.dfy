/** A concrete run of `marcarEficaciaCrise` as written that leaves a stored child
    aggregate breaking its second invariant, which this model's `Desserializar`
    (given the rebuilt support requests) then refuses. The mapper as shipped fails
    earlier on such a record, at its call to `PedidoSuporte.fromPersistence`, which
    the entity does not define. */
module ContraExemploEficacia {
  import opened Base
  import opened Enumeracoes
  import opened Datas
  import opened Criancas
  import opened Crises
  import opened Pedidos
  import opened Agregados
  import opened Mapeador
  import opened Repositorios
  import opened ManterHistoricoCrise

  /** A child with one unresolved crisis and one support request attached to it is
      stored; marking that crisis effective succeeds and saves an aggregate with a
      support request and no unresolved crisis. Rebuilding the saved record with
      `Desserializar` and its one request fails with the second invariant's message. */
  method MarcarUnicaCriseComPedido() returns (repo: RepositorioCriancas, antes: bool, r: Outcome)
    ensures antes && r.Pass? && repo.Valid() && "crianca-1" in repo.agregados
    ensures !Valido(repo.agregados["crianca-1"])
    ensures ErroAoDesserializar(Serializar(repo.agregados["crianca-1"]), 1, Data(2024, 6, 1, 0)) == Some(PedidosSemCrise)
  {
    var crianca := new Crianca("crianca-1", DataNascimento(Data(2018, 3, 10, 0)), LEVE, NIVEL_1, Some("escola-1"), None);
    var crise := new RegistroCrise("crise-1", 1000, ALTA, None, None, None);
    var pedido := new PedidoSuporte("pedido-1", 2000, PENDENTE, crise);
    var agregado := AgregadoCrianca(crianca, [crise], [pedido], []);
    assert agregado.crises[0].EmAberto();
    antes := Valido(agregado);
    repo := new RepositorioCriancas(false);
    repo.Salvar(agregado);
    r := MarcarEficaciaCrise(repo, "crianca-1", "crise-1", true);
    SerializadoDesserializavel(repo.agregados["crianca-1"], Data(2024, 6, 1, 0));
  }
}

/** A concrete run of `ExcluirCriancaUseCase.execute` as written on a repository that,
    like the database-backed one, does not implement `remover`: an administrator's
    deletion reports success and the child stays stored. */
module ContraExemploExclusao {
  import opened Base
  import opened Enumeracoes
  import opened Datas
  import opened Credenciais
  import opened Usuarios
  import opened Criancas
  import opened Agregados
  import opened Repositorios
  import opened ExcluirCrianca

  /** An ADMIN deletes a stored child from a repository without `remover`: the
      deletion succeeds and the child is still there; the corrected deletion refuses. */
  method ExcluirSemRemover() returns (repo: RepositorioCriancas, r: Outcome, corrigido: Outcome)
    ensures r.Pass? && "crianca-1" in repo.agregados
    ensures corrigido == Fail(RemocaoIndisponivel)
  {
    var crianca := new Crianca("crianca-1", DataNascimento(Data(2018, 3, 10, 0)), LEVE, NIVEL_1, None, None);
    var admin := Usuario("admin-1", "Ana", Email("ana@escola.br"), ADMIN, "hash", None);
    var usuarios := map["admin-1" := admin];
    repo := new RepositorioCriancas(false);
    repo.Salvar(AgregadoCrianca(crianca, [], [], []));
    r := Executar(usuarios, repo, "admin-1", "crianca-1");
    corrigido := ExecutarComRemocao(usuarios, repo, "admin-1", "crianca-1");
  }
}
