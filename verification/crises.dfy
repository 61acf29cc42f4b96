/** The crisis record: a timestamped crisis of some intensity whose effectiveness is
    unknown (the crisis is still open) until someone marks it. */
module Crises {
  import opened Base
  import opened Enumeracoes
  import opened Entidade

  /** The stored shape of a crisis record; the timestamp is the instant its ISO string
      denotes. */
  datatype CrisePersistida = CrisePersistida(
    id: Option<string>,
    dataHora: int,
    intensidade: string,
    descricao: Option<string>,
    gatilhoIdentificado: Option<string>,
    foiEficaz: Option<bool>)

  const DataHoraFutura := "Data/hora não pode ser futura"

  class RegistroCrise {
    const id: string
    const dataHora: int
    const intensidade: IntensidadeDaCrise
    const descricao: Option<string>
    const gatilhoIdentificado: Option<string>
    /** Unset while the crisis is open; the tri-state of the source. */
    var foiEficaz: Option<bool>

    constructor (id: string, dataHora: int, intensidade: IntensidadeDaCrise,
                 descricao: Option<string>, gatilhoIdentificado: Option<string>, foiEficaz: Option<bool>)
      ensures this.id == id && this.dataHora == dataHora && this.intensidade == intensidade
      ensures this.descricao == descricao && this.gatilhoIdentificado == gatilhoIdentificado
      ensures this.foiEficaz == foiEficaz
    {
      this.id := id;
      this.dataHora := dataHora;
      this.intensidade := intensidade;
      this.descricao := descricao;
      this.gatilhoIdentificado := gatilhoIdentificado;
      this.foiEficaz := foiEficaz;
    }

    /** A crisis is unresolved while its effectiveness is unset. */
    predicate EmAberto()
      reads this
    {
      foiEficaz.None?
    }

    /** `create`: refuses a timestamp after `agora`; otherwise a new, open crisis with a
        new id and the given data. */
    static method Create(dataHora: int, intensidade: IntensidadeDaCrise, descricao: Option<string>,
                         gatilhoIdentificado: Option<string>, agora: int, gerador: GeradorIds)
      returns (r: Result<RegistroCrise>)
      requires gerador.Valid()
      modifies gerador
      ensures gerador.Valid()
      ensures r.Err? <==> dataHora > agora
      ensures r.Err? ==> r.error == DataHoraFutura && gerador.emitidos == old(gerador.emitidos)
      ensures r.Ok? ==> fresh(r.value) && IdConcedido(r.value.id, None, old(gerador.emitidos), gerador.emitidos)
      ensures r.Ok? ==> r.value.dataHora == dataHora && r.value.intensidade == intensidade &&
                        r.value.descricao == descricao && r.value.gatilhoIdentificado == gatilhoIdentificado
      ensures r.Ok? ==> r.value.foiEficaz == None
    {
      if dataHora > agora {
        return Err(DataHoraFutura);
      }
      var id := AtribuirId(None, gerador);
      var c := new RegistroCrise(id, dataHora, intensidade, descricao, gatilhoIdentificado, None);
      r := Ok(c);
    }

    /** `fromPersistence`: parses the intensity, failing as the parser does, and keeps
        every other field, an unset effectiveness included; no date check is made. */
    static method FromPersistence(entrada: CrisePersistida, gerador: GeradorIds) returns (r: Result<RegistroCrise>)
      requires gerador.Valid()
      modifies gerador
      ensures gerador.Valid()
      ensures r.Err? <==> IntensidadeFromString(entrada.intensidade).Err?
      ensures r.Err? ==> r.error == IntensidadeFromString(entrada.intensidade).error &&
                         gerador.emitidos == old(gerador.emitidos)
      ensures r.Ok? ==> fresh(r.value) && IdConcedido(r.value.id, entrada.id, old(gerador.emitidos), gerador.emitidos)
      ensures r.Ok? ==> Ok(r.value.intensidade) == IntensidadeFromString(entrada.intensidade)
      ensures r.Ok? ==> r.value.dataHora == entrada.dataHora && r.value.descricao == entrada.descricao &&
                        r.value.gatilhoIdentificado == entrada.gatilhoIdentificado &&
                        r.value.foiEficaz == entrada.foiEficaz
    {
      var intensidade := IntensidadeFromString(entrada.intensidade);
      if intensidade.Err? {
        return Err(intensidade.error);
      }
      var id := AtribuirId(entrada.id, gerador);
      var c := new RegistroCrise(id, entrada.dataHora, intensidade.value, entrada.descricao,
                                 entrada.gatilhoIdentificado, entrada.foiEficaz);
      r := Ok(c);
    }

    /** `marcarEficacia`: records the effectiveness, whatever was recorded before. */
    method MarcarEficacia(eficaz: bool)
      modifies this`foiEficaz
      ensures foiEficaz == Some(eficaz)
      ensures !EmAberto()
    {
      foiEficaz := Some(eficaz);
    }
  }
}
