/** The intervention: a strategy someone applied to a child at some instant, with the
    result recorded when it is known. */
module Intervencoes {
  import opened Base
  import opened Entidade

  /** The stored shape of an intervention. */
  datatype IntervencaoPersistida = IntervencaoPersistida(
    id: Option<string>,
    dataHora: int,
    estrategia: string,
    aplicadaPor: string,
    resultado: Option<string>)

  const EstrategiaObrigatoria := "Estratégia é obrigatória"
  const AplicadorObrigatorio := "Aplicador é obrigatório"

  class Intervencao {
    const id: string
    const dataHora: int
    const estrategia: string
    const aplicadaPor: string
    var resultado: Option<string>

    constructor (id: string, dataHora: int, estrategia: string, aplicadaPor: string, resultado: Option<string>)
      ensures this.id == id && this.dataHora == dataHora && this.estrategia == estrategia
      ensures this.aplicadaPor == aplicadaPor && this.resultado == resultado
    {
      this.id := id;
      this.dataHora := dataHora;
      this.estrategia := estrategia;
      this.aplicadaPor := aplicadaPor;
      this.resultado := resultado;
    }

    /** `create`: a blank strategy is refused first, then a blank applier; otherwise a
        new intervention with a new id and no result. */
    static method Create(dataHora: int, estrategia: string, aplicadaPor: string, gerador: GeradorIds)
      returns (r: Result<Intervencao>)
      requires gerador.Valid()
      modifies gerador
      ensures gerador.Valid()
      ensures r.Err? <==> EmBranco(estrategia) || EmBranco(aplicadaPor)
      ensures EmBranco(estrategia) ==> r == Err(EstrategiaObrigatoria)
      ensures !EmBranco(estrategia) && EmBranco(aplicadaPor) ==> r == Err(AplicadorObrigatorio)
      ensures r.Err? ==> gerador.emitidos == old(gerador.emitidos)
      ensures r.Ok? ==> fresh(r.value) && IdConcedido(r.value.id, None, old(gerador.emitidos), gerador.emitidos)
      ensures r.Ok? ==> r.value.dataHora == dataHora && r.value.estrategia == estrategia &&
                        r.value.aplicadaPor == aplicadaPor && r.value.resultado == None
    {
      if EmBranco(estrategia) {
        return Err(EstrategiaObrigatoria);
      }
      if EmBranco(aplicadaPor) {
        return Err(AplicadorObrigatorio);
      }
      var id := AtribuirId(None, gerador);
      var i := new Intervencao(id, dataHora, estrategia, aplicadaPor, None);
      r := Ok(i);
    }

    /** `fromPersistence`: no validation; every field is kept. */
    static method FromPersistence(entrada: IntervencaoPersistida, gerador: GeradorIds) returns (i: Intervencao)
      requires gerador.Valid()
      modifies gerador
      ensures gerador.Valid()
      ensures fresh(i) && IdConcedido(i.id, entrada.id, old(gerador.emitidos), gerador.emitidos)
      ensures i.dataHora == entrada.dataHora && i.estrategia == entrada.estrategia &&
              i.aplicadaPor == entrada.aplicadaPor && i.resultado == entrada.resultado
    {
      var id := AtribuirId(entrada.id, gerador);
      i := new Intervencao(id, entrada.dataHora, entrada.estrategia, entrada.aplicadaPor, entrada.resultado);
    }

    /** `registrarResultado`: overwrites the result. */
    method RegistrarResultado(resultado: string)
      modifies this`resultado
      ensures this.resultado == Some(resultado)
    {
      this.resultado := Some(resultado);
    }
  }
}
