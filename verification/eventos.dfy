/** The calendar event: a titled interval with a risk level and a confirmation status. */
module Eventos {
  import opened Base
  import Enumeracoes
  import opened Entidade

  datatype StatusEvento = PENDENTE | CONFIRMADO | CANCELADO

  const TituloObrigatorio := "Título é obrigatório"
  const InicioAntesDoFim := "Data de início deve ser anterior à data de fim"
  const NovoInicioAntesDoNovoFim := "Nova data de início deve ser anterior à nova data de fim"

  class Evento {
    const id: string
    var titulo: string
    var dataHoraInicio: int
    var dataHoraFim: int
    var nivelRisco: Enumeracoes.NivelRisco
    var status: StatusEvento

    /** Every event built by `create` and kept by `reagendar` starts before it ends. */
    predicate Valid()
      reads this
    {
      dataHoraInicio < dataHoraFim
    }

    constructor (id: string, titulo: string, dataHoraInicio: int, dataHoraFim: int, nivelRisco: Enumeracoes.NivelRisco,
                 status: StatusEvento)
      ensures this.id == id && this.titulo == titulo && this.dataHoraInicio == dataHoraInicio
      ensures this.dataHoraFim == dataHoraFim && this.nivelRisco == nivelRisco && this.status == status
    {
      this.id := id;
      this.titulo := titulo;
      this.dataHoraInicio := dataHoraInicio;
      this.dataHoraFim := dataHoraFim;
      this.nivelRisco := nivelRisco;
      this.status := status;
    }

    /** `create`: a blank title is refused first, then an interval that does not start
        before it ends; otherwise a PENDENTE event with a new id. */
    static method Create(titulo: string, dataHoraInicio: int, dataHoraFim: int, nivelRisco: Enumeracoes.NivelRisco,
                         gerador: GeradorIds)
      returns (r: Result<Evento>)
      requires gerador.Valid()
      modifies gerador
      ensures gerador.Valid()
      ensures r.Err? <==> EmBranco(titulo) || dataHoraInicio >= dataHoraFim
      ensures EmBranco(titulo) ==> r == Err(TituloObrigatorio)
      ensures !EmBranco(titulo) && dataHoraInicio >= dataHoraFim ==> r == Err(InicioAntesDoFim)
      ensures r.Err? ==> gerador.emitidos == old(gerador.emitidos)
      ensures r.Ok? ==> fresh(r.value) && r.value.Valid() &&
                        IdConcedido(r.value.id, None, old(gerador.emitidos), gerador.emitidos)
      ensures r.Ok? ==> r.value.titulo == titulo && r.value.dataHoraInicio == dataHoraInicio &&
                        r.value.dataHoraFim == dataHoraFim && r.value.nivelRisco == nivelRisco &&
                        r.value.status == PENDENTE
    {
      if EmBranco(titulo) {
        return Err(TituloObrigatorio);
      }
      if dataHoraInicio >= dataHoraFim {
        return Err(InicioAntesDoFim);
      }
      var id := AtribuirId(None, gerador);
      var e := new Evento(id, titulo, dataHoraInicio, dataHoraFim, nivelRisco, PENDENTE);
      r := Ok(e);
    }

    /** `reagendar`: an interval that does not start before it ends is refused and the
        dates stay; otherwise both dates are replaced. Nothing else changes. */
    method Reagendar(novaDataInicio: int, novaDataFim: int) returns (r: Outcome)
      modifies this`dataHoraInicio, this`dataHoraFim
      ensures r.Fail? <==> novaDataInicio >= novaDataFim
      ensures r.Fail? ==> r.error == NovoInicioAntesDoNovoFim &&
                          dataHoraInicio == old(dataHoraInicio) && dataHoraFim == old(dataHoraFim)
      ensures r.Pass? ==> dataHoraInicio == novaDataInicio && dataHoraFim == novaDataFim
      ensures old(Valid()) || r.Pass? ==> Valid()
    {
      if novaDataInicio >= novaDataFim {
        return Fail(NovoInicioAntesDoNovoFim);
      }
      dataHoraInicio := novaDataInicio;
      dataHoraFim := novaDataFim;
      r := Pass;
    }

    /** The `status` setter: any status, with no transition rule. */
    method DefinirStatus(valor: StatusEvento)
      modifies this`status
      ensures status == valor
    {
      status := valor;
    }
  }
}
