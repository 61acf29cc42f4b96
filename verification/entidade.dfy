/** The entity base class: identity by id, with a freshly generated id when none is
    supplied. Identifier generation (`uuidv4`) is modelled by an oracle object that
    never hands out the same id twice. */
module Entidade {
  import opened Base

  /** `id || uuidv4()`: a supplied non-empty id is kept, anything else is replaced
      by the generated one. */
  function IdAtribuido(id: Option<string>, gerado: string): (r: string)
    ensures Preenchido(id) ==> r == id.value
    ensures !Preenchido(id) ==> r == gerado
  {
    match id
    case Some(s) => if s != "" then s else gerado
    case None => gerado
  }

  /** `equals(other)`: false for a missing argument, otherwise equality of ids. */
  function MesmaEntidade(meuId: string, outroId: Option<string>): (r: bool)
    ensures r <==> outroId == Some(meuId)
  {
    match outroId
    case None => false
    case Some(o) => o == meuId
  }

  /** The identifier oracle: every id it returns is non-empty and new. */
  class GeradorIds {
    ghost var emitidos: set<string>
    var contador: nat

    ghost predicate Valid()
      reads this
    {
      forall s :: s in emitidos ==> 0 < |s| <= contador
    }

    constructor ()
      ensures Valid() && emitidos == {}
    {
      emitidos := {};
      contador := 0;
    }

    method Novo() returns (id: string)
      requires Valid()
      modifies this
      ensures Valid()
      ensures id != "" && id !in old(emitidos)
      ensures emitidos == old(emitidos) + {id}
    {
      contador := contador + 1;
      id := seq(contador, _ => 'u');
      emitidos := emitidos + {id};
    }
  }

  /** What the entity constructor promises about the id `r` it assigns when asked for
      `id`, given the oracle's ids before and after: a supplied non-empty id is kept
      and nothing is drawn; otherwise exactly one new, non-empty id is drawn. Either
      way the id is non-empty. */
  ghost predicate IdConcedido(r: string, id: Option<string>, antes: set<string>, depois: set<string>) {
    r != "" &&
    (Preenchido(id) ==> r == id.value && depois == antes) &&
    (!Preenchido(id) ==> r !in antes && depois == antes + {r})
  }

  /** The entity constructor's id assignment: keep a supplied non-empty id, otherwise
      draw a new one from the oracle. */
  method AtribuirId(id: Option<string>, gerador: GeradorIds) returns (r: string)
    requires gerador.Valid()
    modifies gerador
    ensures gerador.Valid()
    ensures IdConcedido(r, id, old(gerador.emitidos), gerador.emitidos)
  {
    if Preenchido(id) {
      r := id.value;
    } else {
      r := gerador.Novo();
    }
  }
}
