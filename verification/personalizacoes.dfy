/** The sensory personalization of a child: font size, colour palette, icon set and
    three on/off switches, one record per child. */
module Personalizacoes {
  import opened Base
  import opened Entidade

  datatype TamanhoFonte = PEQUENO | MEDIO | GRANDE {
    /** The enum's string value, one of the three the font-size parser accepts. */
    function Nome(): (r: string)
      ensures r in {"PEQUENO", "MEDIO", "GRANDE"}
    {
      match this
      case PEQUENO => "PEQUENO"
      case MEDIO => "MEDIO"
      case GRANDE => "GRANDE"
    }
  }

  const CriancaObrigatoria := "criancaId é obrigatório"

  class PersonalizacaoSensorial {
    const id: string
    const criancaId: string
    var paletaCores: Option<string>
    var tamanhoFonte: TamanhoFonte
    var icones: Option<string>
    var sons: bool
    var animacoes: bool
    var contrasteAlto: bool

    constructor (id: string, criancaId: string, tamanhoFonte: TamanhoFonte, paletaCores: Option<string>,
                 icones: Option<string>, sons: bool, animacoes: bool, contrasteAlto: bool)
      ensures this.id == id && this.criancaId == criancaId && this.tamanhoFonte == tamanhoFonte
      ensures this.paletaCores == paletaCores && this.icones == icones
      ensures this.sons == sons && this.animacoes == animacoes && this.contrasteAlto == contrasteAlto
    {
      this.id := id;
      this.criancaId := criancaId;
      this.paletaCores := paletaCores;
      this.tamanhoFonte := tamanhoFonte;
      this.icones := icones;
      this.sons := sons;
      this.animacoes := animacoes;
      this.contrasteAlto := contrasteAlto;
    }

    /** The settings of a new personalization: medium font, everything else off or unset. */
    predicate Padrao()
      reads this
    {
      tamanhoFonte == MEDIO && paletaCores == None && icones == None && !sons && !animacoes && !contrasteAlto
    }

    /** `create`: a blank child id is refused; otherwise a default personalization with
        a new id. */
    static method Create(criancaId: string, gerador: GeradorIds) returns (r: Result<PersonalizacaoSensorial>)
      requires gerador.Valid()
      modifies gerador
      ensures gerador.Valid()
      ensures r.Err? <==> EmBranco(criancaId)
      ensures r.Err? ==> r.error == CriancaObrigatoria && gerador.emitidos == old(gerador.emitidos)
      ensures r.Ok? ==> fresh(r.value) && IdConcedido(r.value.id, None, old(gerador.emitidos), gerador.emitidos)
      ensures r.Ok? ==> r.value.criancaId == criancaId && r.value.Padrao()
    {
      if EmBranco(criancaId) {
        return Err(CriancaObrigatoria);
      }
      var id := AtribuirId(None, gerador);
      var p := new PersonalizacaoSensorial(id, criancaId, MEDIO, None, None, false, false, false);
      r := Ok(p);
    }

    /** `reconstitute`: no validation; a missing switch is off. */
    static method Reconstitute(id: string, criancaId: string, tamanhoFonte: TamanhoFonte,
                               paletaCores: Option<string>, icones: Option<string>,
                               sons: Option<bool>, animacoes: Option<bool>, contrasteAlto: Option<bool>,
                               gerador: GeradorIds)
      returns (p: PersonalizacaoSensorial)
      requires gerador.Valid()
      modifies gerador
      ensures gerador.Valid()
      ensures fresh(p) && IdConcedido(p.id, Some(id), old(gerador.emitidos), gerador.emitidos)
      ensures p.criancaId == criancaId && p.tamanhoFonte == tamanhoFonte
      ensures p.paletaCores == paletaCores && p.icones == icones
      ensures p.sons == (sons == Some(true)) && p.animacoes == (animacoes == Some(true))
      ensures p.contrasteAlto == (contrasteAlto == Some(true))
    {
      var novoId := AtribuirId(Some(id), gerador);
      p := new PersonalizacaoSensorial(novoId, criancaId, tamanhoFonte, paletaCores, icones,
        if sons.Some? then sons.value else false,
        if animacoes.Some? then animacoes.value else false,
        if contrasteAlto.Some? then contrasteAlto.value else false);
    }

    method AlterarPaletaCores(paletaCores: Option<string>)
      modifies this`paletaCores
      ensures this.paletaCores == paletaCores
    {
      this.paletaCores := paletaCores;
    }

    method AlterarTamanhoFonte(tamanhoFonte: TamanhoFonte)
      modifies this`tamanhoFonte
      ensures this.tamanhoFonte == tamanhoFonte
    {
      this.tamanhoFonte := tamanhoFonte;
    }

    method AlterarIcones(icones: Option<string>)
      modifies this`icones
      ensures this.icones == icones
    {
      this.icones := icones;
    }

    method AlterarSons(ativado: bool)
      modifies this`sons
      ensures sons == ativado
    {
      sons := ativado;
    }

    method AlterarAnimacoes(ativado: bool)
      modifies this`animacoes
      ensures animacoes == ativado
    {
      animacoes := ativado;
    }

    method AlterarContrasteAlto(ativado: bool)
      modifies this`contrasteAlto
      ensures contrasteAlto == ativado
    {
      contrasteAlto := ativado;
    }
  }
}
