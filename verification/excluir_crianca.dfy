/** `ExcluirCriancaUseCase`: an ADMIN, or a PROFESSOR of the child's school, asks the
    repository to remove the child's aggregate, through the optional `remover`. */
module ExcluirCrianca {
  import opened Base
  import opened Usuarios
  import opened Criancas
  import opened Agregados
  import opened Repositorios
  import opened Permissoes

  /** `execute` as written: the user, then the child, must exist, and the delete rule
      must allow the user; then `remover?.(criancaId)` removes only that child's entry
      when the repository implements `remover`, and does nothing, still reporting
      success, when it does not. Any refusal removes nothing. */
  method Executar(usuarios: map<string, Usuario>, repo: RepositorioCriancas, usuarioId: string, criancaId: string)
    returns (r: Outcome)
    requires repo.Valid()
    modifies repo`agregados
    ensures repo.Valid()
    ensures Carregar(usuarios, old(repo.agregados), usuarioId, criancaId).Err? ==>
              r == Fail(Carregar(usuarios, old(repo.agregados), usuarioId, criancaId).error)
    ensures usuarioId in usuarios && criancaId in old(repo.agregados) ==>
              r == PermissaoDeExclusao(usuarios[usuarioId], old(repo.agregados)[criancaId].crianca)
    ensures r.Fail? ==> repo.agregados == old(repo.agregados)
    ensures r.Pass? ==> criancaId in old(repo.agregados)
    ensures r.Pass? && repo.temRemover ==> repo.agregados == old(repo.agregados) - {criancaId}
    ensures r.Pass? && !repo.temRemover ==> repo.agregados == old(repo.agregados)
  {
    var carregados := Carregar(usuarios, repo.agregados, usuarioId, criancaId);
    if carregados.Err? {
      return Fail(carregados.error);
    }
    var (usuario, agregado) := carregados.value;
    r := PermissaoDeExclusao(usuario, agregado.crianca);
    if r.Fail? {
      return;
    }
    if repo.temRemover {
      repo.Remover(criancaId);
    }
  }

  /** The error of the corrected deletion when the repository cannot remove. */
  const RemocaoIndisponivel := "Repositório não suporta remoção de crianças"

  /** `execute` as evidently intended: a deletion that goes through has removed the
      child. A repository without `remover` makes an otherwise allowed deletion fail,
      with nothing changed, instead of reporting a success that deleted nothing. */
  method ExecutarComRemocao(usuarios: map<string, Usuario>, repo: RepositorioCriancas, usuarioId: string, criancaId: string)
    returns (r: Outcome)
    requires repo.Valid()
    modifies repo`agregados
    ensures repo.Valid()
    ensures Carregar(usuarios, old(repo.agregados), usuarioId, criancaId).Err? ==>
              r == Fail(Carregar(usuarios, old(repo.agregados), usuarioId, criancaId).error)
    ensures usuarioId in usuarios && criancaId in old(repo.agregados) ==>
              (r.Pass? <==> PermissaoDeExclusao(usuarios[usuarioId], old(repo.agregados)[criancaId].crianca).Pass? &&
                            repo.temRemover)
    ensures usuarioId in usuarios && criancaId in old(repo.agregados) && !repo.temRemover &&
            PermissaoDeExclusao(usuarios[usuarioId], old(repo.agregados)[criancaId].crianca).Pass? ==>
              r == Fail(RemocaoIndisponivel)
    ensures r.Fail? ==> repo.agregados == old(repo.agregados)
    ensures r.Pass? ==> criancaId in old(repo.agregados) && criancaId !in repo.agregados &&
                        repo.agregados == old(repo.agregados) - {criancaId}
  {
    var carregados := Carregar(usuarios, repo.agregados, usuarioId, criancaId);
    if carregados.Err? {
      return Fail(carregados.error);
    }
    var (usuario, agregado) := carregados.value;
    r := PermissaoDeExclusao(usuario, agregado.crianca);
    if r.Fail? {
      return;
    }
    if !repo.temRemover {
      return Fail(RemocaoIndisponivel);
    }
    repo.Remover(criancaId);
  }
}
