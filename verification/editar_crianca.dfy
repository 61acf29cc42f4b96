/** `EditarCriancaUseCase` (in `ManterPerfilCriancaUseCase.ts`): a user allowed to edit
    a child may move it to another school; nothing else in the edit data is applied. */
module EditarCrianca {
  import opened Base
  import opened Datas
  import opened Usuarios
  import opened Criancas
  import opened Agregados
  import opened Repositorios
  import opened Permissoes

  /** The edit data as typed: only `escolaId` is read. */
  datatype DadosEdicao = DadosEdicao(
    escolaId: Option<string>,
    nome: Option<string>,
    dataNascimento: Option<Data>,
    grauTEA: Option<int>,
    grauSuporte: int,
    responsavelIds: seq<string>)

  /** `execute`: the user, then the child, must exist, and the edit rule must allow the
      user; then a non-empty `escolaId` replaces the child's school, in place, and the
      same aggregate is saved again. No other field of the child can change, and on any
      refusal nothing does. */
  method Executar(usuarios: map<string, Usuario>, repo: RepositorioCriancas, usuarioId: string, criancaId: string,
                  dados: DadosEdicao) returns (r: Outcome)
    requires repo.Valid()
    modifies repo`agregados, (if criancaId in repo.agregados then {repo.agregados[criancaId].crianca} else {})`escolaId
    ensures repo.Valid() && repo.agregados == old(repo.agregados)
    ensures Carregar(usuarios, repo.agregados, usuarioId, criancaId).Err? ==>
              r == Fail(Carregar(usuarios, repo.agregados, usuarioId, criancaId).error)
    ensures usuarioId in usuarios && criancaId in repo.agregados ==>
              r == old(PermissaoDeEdicao(usuarios[usuarioId], repo.agregados[criancaId].crianca)) &&
              repo.agregados[criancaId].crianca.escolaId ==
                (if r.Pass? && Preenchido(dados.escolaId) then dados.escolaId else old(repo.agregados[criancaId].crianca.escolaId))
  {
    var carregados := Carregar(usuarios, repo.agregados, usuarioId, criancaId);
    if carregados.Err? {
      return Fail(carregados.error);
    }
    var (usuario, agregado) := carregados.value;
    r := PermissaoDeEdicao(usuario, agregado.crianca);
    if r.Fail? {
      return;
    }
    if Preenchido(dados.escolaId) {
      agregado.crianca.AlterarEscola(dados.escolaId);
    }
    repo.Salvar(agregado);
  }
}
