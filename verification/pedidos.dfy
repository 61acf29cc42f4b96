/** The support request: a timestamped call for help that carries the crisis it is
    about and moves through the attendance states PENDENTE, EM_ATENDIMENTO, RESOLVIDO. */
module Pedidos {
  import opened Base
  import opened Enumeracoes
  import opened Entidade
  import opened Crises

  const MensagemTransicaoInvalida := "Transição inválida de "

  class PedidoSuporte {
    const id: string
    const dataHora: int
    var status: StatusAtendimento
    /** Declared read-only, but the SOS workflow overwrites it through a cast, so it is
        a variable here; nothing else assigns it. */
    var registroCrise: RegistroCrise

    constructor (id: string, dataHora: int, status: StatusAtendimento, registroCrise: RegistroCrise)
      ensures this.id == id && this.dataHora == dataHora
      ensures this.status == status && this.registroCrise == registroCrise
    {
      this.id := id;
      this.dataHora := dataHora;
      this.status := status;
      this.registroCrise := registroCrise;
    }

    /** `create`: refuses a timestamp after `agora`; otherwise a PENDENTE request that
        embeds a new open crisis of the same instant, intensity and description. The
        crisis draws its id before the request does. */
    static method Create(dataHora: int, intensidade: IntensidadeDaCrise, descricaoCrise: Option<string>,
                         agora: int, gerador: GeradorIds)
      returns (r: Result<PedidoSuporte>)
      requires gerador.Valid()
      modifies gerador
      ensures gerador.Valid()
      ensures r.Err? <==> dataHora > agora
      ensures r.Err? ==> r.error == DataHoraFutura && gerador.emitidos == old(gerador.emitidos)
      ensures r.Ok? ==> fresh(r.value) && fresh(r.value.registroCrise)
      ensures r.Ok? ==> r.value.dataHora == dataHora && r.value.status == PENDENTE
      ensures r.Ok? ==> var c := r.value.registroCrise;
                        c.dataHora == dataHora && c.intensidade == intensidade && c.descricao == descricaoCrise &&
                        c.gatilhoIdentificado == None && c.foiEficaz == None
      ensures r.Ok? ==> var c := r.value.registroCrise;
                        c.id != "" && r.value.id != "" && c.id != r.value.id &&
                        c.id !in old(gerador.emitidos) && r.value.id !in old(gerador.emitidos) &&
                        gerador.emitidos == old(gerador.emitidos) + {c.id, r.value.id}
    {
      if dataHora > agora {
        return Err(DataHoraFutura);
      }
      var crise := RegistroCrise.Create(dataHora, intensidade, descricaoCrise, None, agora, gerador);
      var id := AtribuirId(None, gerador);
      var p := new PedidoSuporte(id, dataHora, PENDENTE, crise.value);
      r := Ok(p);
    }

    /** `atualizarStatus`: moves to `novoStatus` when the transition table allows it;
        otherwise fails naming both states and keeps the current one. */
    method AtualizarStatus(novoStatus: StatusAtendimento) returns (r: Outcome)
      modifies this`status
      ensures r.Pass? <==> PodeTransitarPara(old(status), novoStatus)
      ensures r.Pass? ==> status == novoStatus
      ensures r.Fail? ==> status == old(status) &&
                          r.error == MensagemTransicaoInvalida + old(status).Nome() + " para " + novoStatus.Nome()
    {
      if !PodeTransitarPara(status, novoStatus) {
        return Fail(MensagemTransicaoInvalida + status.Nome() + " para " + novoStatus.Nome());
      }
      status := novoStatus;
      r := Pass;
    }
  }

  /** From a pending request the full path succeeds step by step, and once resolved
      every further update fails. */
  method AtenderAteResolver(p: PedidoSuporte, depois: StatusAtendimento)
    returns (primeiro: Outcome, segundo: Outcome, terceiro: Outcome)
    requires p.status == PENDENTE
    modifies p
    ensures primeiro == Pass && segundo == Pass && terceiro.Fail?
    ensures p.status == RESOLVIDO && p.registroCrise == old(p.registroCrise)
  {
    primeiro := p.AtualizarStatus(EM_ATENDIMENTO);
    segundo := p.AtualizarStatus(RESOLVIDO);
    terceiro := p.AtualizarStatus(depois);
  }
}
