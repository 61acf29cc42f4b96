/** In-memory stand-ins for the repository and notification interfaces the use cases
    depend on. Child aggregates are kept by reference, filed under their child's id;
    sensory personalizations are kept as stored rows and rebuilt on every load, as the
    database-backed repository does; users are looked up in a map the use cases only
    read. */
module Repositorios {
  import opened Base
  import opened Entidade
  import opened Agregados
  import opened Personalizacoes

  /** The error every use case raises when `buscarPorId` finds no child. */
  const CriancaNaoEncontrada := "Criança não encontrada"

  /** `ICriancaRepository`: `buscarPorId` is membership and lookup in `agregados`,
      `salvar` files an aggregate under its child's id, and the optional `remover`,
      present exactly when `temRemover` holds, drops an entry. The database-backed
      repository does not implement `remover`. */
  class RepositorioCriancas {
    var agregados: map<string, AgregadoCrianca>
    /** Whether the repository implements the optional `remover`. */
    const temRemover: bool

    /** Every aggregate is filed under its own child's id. */
    predicate Valid()
      reads this
    {
      forall k :: k in agregados ==> agregados[k].crianca.id == k
    }

    constructor (temRemover: bool)
      ensures Valid() && agregados == map[] && this.temRemover == temRemover
    {
      agregados := map[];
      this.temRemover := temRemover;
    }

    /** `salvar`: an upsert keyed by the child's id. */
    method Salvar(agregado: AgregadoCrianca)
      requires Valid()
      modifies this`agregados
      ensures Valid()
      ensures Valido(agregado) <==> old(Valido(agregado))
      ensures agregados == old(agregados)[agregado.crianca.id := agregado]
    {
      agregados := agregados[agregado.crianca.id := agregado];
    }

    /** `remover`, where implemented: only the given entry goes. */
    method Remover(id: string)
      requires Valid() && temRemover
      modifies this`agregados
      ensures Valid()
      ensures agregados == old(agregados) - {id}
    {
      agregados := agregados - {id};
    }
  }

  /** `NotificacaoPedidoSuportePayload` */
  datatype NotificacaoPedidoSuporte = NotificacaoPedidoSuporte(
    criancaId: string,
    pedidoSuporteId: Option<string>,
    tipo: string,
    dataHora: int)

  /** `INotificacaoService`, recording what it is asked to send. */
  class ServicoNotificacao {
    var enviadas: seq<NotificacaoPedidoSuporte>

    constructor ()
      ensures enviadas == []
    {
      enviadas := [];
    }

    method NotificarPedidoSuporte(notificacao: NotificacaoPedidoSuporte)
      modifies this`enviadas
      ensures enviadas == old(enviadas) + [notificacao]
    {
      enviadas := enviadas + [notificacao];
    }
  }

  /** A stored personalization row. */
  datatype PersonalizacaoGuardada = PersonalizacaoGuardada(
    id: string,
    criancaId: string,
    paletaCores: Option<string>,
    tamanhoFonte: TamanhoFonte,
    icones: Option<string>,
    sons: bool,
    animacoes: bool,
    contrasteAlto: bool)

  /** `v || undefined`: the empty string reads back as unset. */
  function SeNaoVazio(v: Option<string>): (r: Option<string>)
    ensures r.Some? <==> Preenchido(v)
    ensures r.Some? ==> r == v
  {
    if Preenchido(v) then v else None
  }

  /** The row `salvar` leaves for `p`: an existing row keeps its id and takes every
      setting of `p`; otherwise a new row takes `p`'s id as well. */
  function Linha(p: PersonalizacaoSensorial, existente: Option<PersonalizacaoGuardada>): (r: PersonalizacaoGuardada)
    reads p
    ensures r.id == (if existente.Some? then existente.value.id else p.id) && r.criancaId == p.criancaId
    ensures r.paletaCores == p.paletaCores && r.tamanhoFonte == p.tamanhoFonte && r.icones == p.icones
    ensures r.sons == p.sons && r.animacoes == p.animacoes && r.contrasteAlto == p.contrasteAlto
  {
    PersonalizacaoGuardada(if existente.Some? then existente.value.id else p.id, p.criancaId,
      p.paletaCores, p.tamanhoFonte, p.icones, p.sons, p.animacoes, p.contrasteAlto)
  }

  /** A personalization rebuilt from row `g`: the row's id when it is non-empty, the
      settings as stored, and an empty palette or icon set read back as unset. */
  ghost predicate Carregada(p: PersonalizacaoSensorial, g: PersonalizacaoGuardada)
    reads p
  {
    p.id != "" && (g.id != "" ==> p.id == g.id) && p.criancaId == g.criancaId &&
    p.tamanhoFonte == g.tamanhoFonte && p.paletaCores == SeNaoVazio(g.paletaCores) &&
    p.icones == SeNaoVazio(g.icones) &&
    p.sons == g.sons && p.animacoes == g.animacoes && p.contrasteAlto == g.contrasteAlto
  }

  /** `IPersonalizacaoSensorialRepository`, keyed by child id. */
  class RepositorioPersonalizacoes {
    var guardadas: map<string, PersonalizacaoGuardada>

    /** Every row is filed under its own child's id. */
    predicate Valid()
      reads this
    {
      forall k :: k in guardadas ==> guardadas[k].criancaId == k
    }

    constructor ()
      ensures Valid() && guardadas == map[]
    {
      guardadas := map[];
    }

    /** `buscarPorCrianca`: nothing for an unknown child; otherwise a new object
        rebuilt from the row through `reconstitute`. */
    method BuscarPorCrianca(criancaId: string, gerador: GeradorIds) returns (r: Option<PersonalizacaoSensorial>)
      requires gerador.Valid()
      modifies gerador
      ensures gerador.Valid()
      ensures r.Some? <==> criancaId in guardadas
      ensures r.Some? ==> fresh(r.value) && Carregada(r.value, guardadas[criancaId])
    {
      if criancaId !in guardadas {
        return None;
      }
      var g := guardadas[criancaId];
      var p := PersonalizacaoSensorial.Reconstitute(g.id, g.criancaId, g.tamanhoFonte,
        SeNaoVazio(g.paletaCores), SeNaoVazio(g.icones), Some(g.sons), Some(g.animacoes), Some(g.contrasteAlto), gerador);
      r := Some(p);
    }

    /** `salvar`: update the child's row, or create it. */
    method Salvar(p: PersonalizacaoSensorial)
      requires Valid()
      modifies this`guardadas
      ensures Valid()
      ensures guardadas == old(guardadas)[p.criancaId := Linha(p, if p.criancaId in old(guardadas) then Some(old(guardadas)[p.criancaId]) else None)]
    {
      var existente := if p.criancaId in guardadas then Some(guardadas[p.criancaId]) else None;
      guardadas := guardadas[p.criancaId := Linha(p, existente)];
    }
  }
}
