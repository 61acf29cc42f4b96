/** The school environment: a named place of a school with an optional description
    and an optional list of media URLs for a virtual tour. */
module Ambientes {
  import opened Base
  import opened Entidade

  const EscolaObrigatoria := "escolaId é obrigatório para AmbienteEscolar"
  const NomeObrigatorio := "Nome do ambiente é obrigatório"
  const NomeVazio := "Nome do ambiente não pode ser vazio"

  /** Media normalisation: a missing or empty list is unset, any other is kept. */
  function NormalizarMidias(midias: Option<seq<string>>): (r: Option<seq<string>>)
    ensures r.Some? <==> midias.Some? && |midias.value| > 0
    ensures r.Some? ==> r.value == midias.value
    ensures r != Some([])
  {
    if midias.Some? && |midias.value| > 0 then midias else None
  }

  /** Normalising twice is normalising once. */
  lemma NormalizarMidiasIdempotente(midias: Option<seq<string>>)
    ensures NormalizarMidias(NormalizarMidias(midias)) == NormalizarMidias(midias)
  {
  }

  class AmbienteEscolar {
    const id: string
    const escolaId: string
    var nome: string
    var descricao: Option<string>
    var midias: Option<seq<string>>

    /** The stored media list is never the empty list. */
    predicate Valid()
      reads this
    {
      midias != Some([])
    }

    constructor (id: string, escolaId: string, nome: string, descricao: Option<string>, midias: Option<seq<string>>)
      ensures this.id == id && this.escolaId == escolaId && this.nome == nome && this.descricao == descricao
      ensures this.midias == NormalizarMidias(midias) && Valid()
    {
      this.id := id;
      this.escolaId := escolaId;
      this.nome := nome;
      this.descricao := descricao;
      this.midias := NormalizarMidias(midias);
    }

    /** `create`: a blank school id is refused first, then a blank name; otherwise an
        environment with a new id and normalised media. */
    static method Create(escolaId: string, nome: string, descricao: Option<string>, midias: Option<seq<string>>,
                         gerador: GeradorIds)
      returns (r: Result<AmbienteEscolar>)
      requires gerador.Valid()
      modifies gerador
      ensures gerador.Valid()
      ensures r.Err? <==> EmBranco(escolaId) || EmBranco(nome)
      ensures EmBranco(escolaId) ==> r == Err(EscolaObrigatoria)
      ensures !EmBranco(escolaId) && EmBranco(nome) ==> r == Err(NomeObrigatorio)
      ensures r.Err? ==> gerador.emitidos == old(gerador.emitidos)
      ensures r.Ok? ==> fresh(r.value) && r.value.Valid() &&
                        IdConcedido(r.value.id, None, old(gerador.emitidos), gerador.emitidos)
      ensures r.Ok? ==> r.value.escolaId == escolaId && r.value.nome == nome && r.value.descricao == descricao &&
                        r.value.midias == NormalizarMidias(midias)
    {
      if EmBranco(escolaId) {
        return Err(EscolaObrigatoria);
      }
      if EmBranco(nome) {
        return Err(NomeObrigatorio);
      }
      var id := AtribuirId(None, gerador);
      var a := new AmbienteEscolar(id, escolaId, nome, descricao, midias);
      r := Ok(a);
    }

    /** `reconstitute`: no validation; only the media are normalised. */
    static method Reconstitute(id: string, escolaId: string, nome: string, descricao: Option<string>,
                               midias: Option<seq<string>>, gerador: GeradorIds)
      returns (a: AmbienteEscolar)
      requires gerador.Valid()
      modifies gerador
      ensures gerador.Valid()
      ensures fresh(a) && a.Valid() && IdConcedido(a.id, Some(id), old(gerador.emitidos), gerador.emitidos)
      ensures a.escolaId == escolaId && a.nome == nome && a.descricao == descricao && a.midias == NormalizarMidias(midias)
    {
      var novoId := AtribuirId(Some(id), gerador);
      a := new AmbienteEscolar(novoId, escolaId, nome, descricao, midias);
    }

    /** `atualizarDados`: a non-empty blank name is refused before anything changes;
        otherwise the name changes only for a non-empty argument, and the description
        and the (normalised) media only when given. */
    method AtualizarDados(nome: Option<string>, descricao: Option<string>, midias: Option<seq<string>>)
      returns (r: Outcome)
      modifies this`nome, this`descricao, this`midias
      ensures r.Fail? <==> Preenchido(nome) && EmBranco(nome.value)
      ensures r.Fail? ==> r.error == NomeVazio &&
                          this.nome == old(this.nome) && this.descricao == old(this.descricao) &&
                          this.midias == old(this.midias)
      ensures r.Pass? ==> this.nome == (if Preenchido(nome) then nome.value else old(this.nome))
      ensures r.Pass? ==> this.descricao == (if descricao.Some? then descricao else old(this.descricao))
      ensures r.Pass? ==> this.midias == (if midias.Some? then NormalizarMidias(midias) else old(this.midias))
      ensures old(Valid()) ==> Valid()
    {
      if Preenchido(nome) && EmBranco(nome.value) {
        return Fail(NomeVazio);
      }
      if Preenchido(nome) {
        this.nome := nome.value;
      }
      if descricao.Some? {
        this.descricao := descricao;
      }
      if midias.Some? {
        this.midias := NormalizarMidias(midias);
      }
      r := Pass;
    }
  }
}
