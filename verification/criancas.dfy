/** The child: birth date, autism (TEA) degree, support degree, optional school and
    the ids of the guardians, all of which can be changed after creation. */
module Criancas {
  import opened Base
  import opened Enumeracoes
  import opened Datas
  import opened Entidade

  /** The stored shape of a child; the birth date is the instant its ISO string denotes. */
  datatype CriancaPersistida = CriancaPersistida(
    id: Option<string>,
    dataNascimento: Data,
    grauTEA: string,
    grauSuporte: string,
    escolaId: Option<string>,
    responsavelIds: Option<seq<string>>)

  /** No id occurs twice. */
  predicate SemRepeticao(ids: seq<string>) {
    forall i, j :: 0 <= i < j < |ids| ==> ids[i] != ids[j]
  }

  /** The guardian list after `alterarResponsavel(id)`: `id` is appended only when absent. */
  function ComResponsavel(ids: seq<string>, id: string): (r: seq<string>)
    ensures id in r && ids <= r
    ensures id in ids ==> r == ids
    ensures id !in ids ==> r == ids + [id]
  {
    if id in ids then ids else ids + [id]
  }

  /** Adding a guardian never introduces a repetition. */
  lemma ComResponsavelSemRepeticao(ids: seq<string>, id: string)
    requires SemRepeticao(ids)
    ensures SemRepeticao(ComResponsavel(ids, id))
  {
  }

  /** Adding the same guardian twice is adding it once. */
  lemma ComResponsavelIdempotente(ids: seq<string>, id: string)
    ensures ComResponsavel(ComResponsavel(ids, id), id) == ComResponsavel(ids, id)
  {
  }

  /** As a set, the guardians gain exactly `id`. */
  lemma ComResponsavelConjunto(ids: seq<string>, id: string)
    ensures forall x :: x in ComResponsavel(ids, id) <==> x in ids || x == id
  {
  }

  class Crianca {
    const id: string
    var dataNascimento: DataNascimento
    var grauTEA: GrauTEA
    var grauSuporte: GrauSuporte
    var escolaId: Option<string>
    var responsavelIds: seq<string>

    constructor (id: string, dataNascimento: DataNascimento, grauTEA: GrauTEA, grauSuporte: GrauSuporte,
                 escolaId: Option<string>, responsavelIds: Option<seq<string>>)
      ensures this.id == id && this.dataNascimento == dataNascimento
      ensures this.grauTEA == grauTEA && this.grauSuporte == grauSuporte && this.escolaId == escolaId
      ensures this.responsavelIds == if responsavelIds.Some? then responsavelIds.value else []
    {
      this.id := id;
      this.dataNascimento := dataNascimento;
      this.grauTEA := grauTEA;
      this.grauSuporte := grauSuporte;
      this.escolaId := escolaId;
      this.responsavelIds := if responsavelIds.Some? then responsavelIds.value else [];
    }

    /** `create`: never fails; the child gets a new id, and an omitted guardian list
        becomes the empty list. */
    static method Create(dataNascimento: DataNascimento, grauTEA: GrauTEA, grauSuporte: GrauSuporte,
                         escolaId: Option<string>, responsavelIds: Option<seq<string>>, gerador: GeradorIds)
      returns (c: Crianca)
      requires gerador.Valid()
      modifies gerador
      ensures gerador.Valid()
      ensures fresh(c) && IdConcedido(c.id, None, old(gerador.emitidos), gerador.emitidos)
      ensures c.dataNascimento == dataNascimento && c.grauTEA == grauTEA && c.grauSuporte == grauSuporte
      ensures c.escolaId == escolaId
      ensures c.responsavelIds == if responsavelIds.Some? then responsavelIds.value else []
    {
      var id := AtribuirId(None, gerador);
      c := new Crianca(id, dataNascimento, grauTEA, grauSuporte, escolaId, responsavelIds);
    }

    /** `fromPersistence`: re-runs the birth-date check against `hoje`, then parses the
        TEA degree, then the support degree, failing at the first that fails; the
        other fields are kept. */
    static method FromPersistence(entrada: CriancaPersistida, hoje: Data, gerador: GeradorIds)
      returns (r: Result<Crianca>)
      requires gerador.Valid()
      modifies gerador
      ensures gerador.Valid()
      ensures var d := CriarDataNascimento(entrada.dataNascimento, hoje);
              var g := GrauTEAFromString(entrada.grauTEA);
              var s := GrauSuporteFromString(entrada.grauSuporte);
              (r.Ok? <==> d.Ok? && g.Ok? && s.Ok?) &&
              (d.Err? ==> r == Err(d.error)) &&
              (d.Ok? && g.Err? ==> r == Err(g.error)) &&
              (d.Ok? && g.Ok? && s.Err? ==> r == Err(s.error)) &&
              (r.Ok? ==> r.value.dataNascimento == d.value && r.value.grauTEA == g.value && r.value.grauSuporte == s.value)
      ensures r.Err? ==> gerador.emitidos == old(gerador.emitidos)
      ensures r.Ok? ==> fresh(r.value) && IdConcedido(r.value.id, entrada.id, old(gerador.emitidos), gerador.emitidos)
      ensures r.Ok? ==> r.value.escolaId == entrada.escolaId &&
                        r.value.responsavelIds == if entrada.responsavelIds.Some? then entrada.responsavelIds.value else []
    {
      var d := CriarDataNascimento(entrada.dataNascimento, hoje);
      if d.Err? {
        return Err(d.error);
      }
      var g := GrauTEAFromString(entrada.grauTEA);
      if g.Err? {
        return Err(g.error);
      }
      var s := GrauSuporteFromString(entrada.grauSuporte);
      if s.Err? {
        return Err(s.error);
      }
      var id := AtribuirId(entrada.id, gerador);
      var c := new Crianca(id, d.value, g.value, s.value, entrada.escolaId, entrada.responsavelIds);
      r := Ok(c);
    }

    /** `alterarResponsavel`: appends the id only when it is not yet listed. */
    method AlterarResponsavel(responsavelId: string)
      modifies this`responsavelIds
      ensures responsavelIds == ComResponsavel(old(responsavelIds), responsavelId)
    {
      if responsavelId !in responsavelIds {
        responsavelIds := responsavelIds + [responsavelId];
      }
    }

    method AlterarEscola(escolaId: Option<string>)
      modifies this`escolaId
      ensures this.escolaId == escolaId
    {
      this.escolaId := escolaId;
    }

    method AlterarGrauTEA(grauTEA: GrauTEA)
      modifies this`grauTEA
      ensures this.grauTEA == grauTEA
    {
      this.grauTEA := grauTEA;
    }

    method AlterarGrauSuporte(grauSuporte: GrauSuporte)
      modifies this`grauSuporte
      ensures this.grauSuporte == grauSuporte
    {
      this.grauSuporte := grauSuporte;
    }

    method AlterarDataNascimento(dataNascimento: DataNascimento)
      modifies this`dataNascimento
      ensures this.dataNascimento == dataNascimento
    {
      this.dataNascimento := dataNascimento;
    }
  }
}
