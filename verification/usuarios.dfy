/** The user: name, e-mail, profile and password hash, none of which changes after
    creation, plus the optional school the permission rules read. */
module Usuarios {
  import opened Base
  import opened Enumeracoes
  import opened Entidade
  import Credenciais

  datatype Usuario = Usuario(
    id: string,
    nome: string,
    email: Credenciais.Email,
    tipoPerfil: TipoPerfil,
    senhaHash: string,
    escolaId: Option<string>)
  {
    /** `isAdmin` delegates to the profile. */
    predicate IsAdmin() {
      TipoPerfilIsAdmin(tipoPerfil)
    }
  }

  const NomeObrigatorio := "Nome é obrigatório"

  /** `create`: a blank name is refused; otherwise a user with a new id and the given
      data exactly. The four-argument factory sets no school. */
  method Create(nome: string, email: Credenciais.Email, tipoPerfil: TipoPerfil, senhaHash: string, gerador: GeradorIds)
    returns (r: Result<Usuario>)
    requires gerador.Valid()
    modifies gerador
    ensures gerador.Valid()
    ensures r.Err? <==> EmBranco(nome)
    ensures r.Err? ==> r.error == NomeObrigatorio && gerador.emitidos == old(gerador.emitidos)
    ensures r.Ok? ==> IdConcedido(r.value.id, None, old(gerador.emitidos), gerador.emitidos)
    ensures r.Ok? ==> r.value.nome == nome && r.value.email == email && r.value.tipoPerfil == tipoPerfil &&
                      r.value.senhaHash == senhaHash && r.value.escolaId == None
  {
    if EmBranco(nome) {
      return Err(NomeObrigatorio);
    }
    var id := AtribuirId(None, gerador);
    r := Ok(Usuario(id, nome, email, tipoPerfil, senhaHash, None));
  }

  /** A user is an administrator exactly when the profile is ADMIN. */
  lemma IsAdminSse(u: Usuario)
    ensures u.IsAdmin() <==> u.tipoPerfil == ADMIN
  {
  }
}
