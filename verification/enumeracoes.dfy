/** The enumerated value objects: crisis intensity, autism (TEA) degree, support
    degree, risk level, profile type and support-request status. Each is a closed
    variant; its factories are the datatype's constructors, `Nome()` is the enum's
    string value, `...FromString` is the case-insensitive parser and `...Equals`
    is value equality through the equality components. */
module Enumeracoes {
  import opened Base
  import opened ObjetoDeValor

  /** No character of `s` is a lower-case ASCII letter. */
  predicate SemMinusculas(s: string) {
    forall i :: 0 <= i < |s| ==> !EhMinuscula(s[i])
  }

  // ---------------------------------------------------------------- Intensidade

  datatype IntensidadeDaCrise = BAIXA | MEDIA | ALTA {
    /** The enum's string value: one of the values the parser accepts, with no
        lower-case letter, so that `toUpperCase` leaves it as it is. */
    function Nome(): (r: string)
      ensures r in NomesIntensidade && SemMinusculas(r)
    {
      match this
      case BAIXA => "BAIXA"
      case MEDIA => "MEDIA"
      case ALTA => "ALTA"
    }
  }

  const NomesIntensidade: set<string> := {"BAIXA", "MEDIA", "ALTA"}

  /** `IntensidadeDaCrise.fromString`: accepted exactly when the upper-cased input is
      one of the enum values, which is then the value held. */
  function IntensidadeFromString(valor: string): (r: Result<IntensidadeDaCrise>)
    ensures r.Ok? <==> Maiusculas(valor) in NomesIntensidade
    ensures r.Ok? ==> r.value.Nome() == Maiusculas(valor)
    ensures r.Err? ==> r.error == "Intensidade inválida: " + valor
  {
    var v := Maiusculas(valor);
    if v == "BAIXA" then Ok(BAIXA)
    else if v == "MEDIA" then Ok(MEDIA)
    else if v == "ALTA" then Ok(ALTA)
    else Err("Intensidade inválida: " + valor)
  }

  /** Parsing a value's own name gives that value back. */
  lemma IntensidadeRoundTrip(i: IntensidadeDaCrise)
    ensures IntensidadeFromString(i.Nome()) == Ok(i)
  {
    MaiusculasSemMinusculas(i.Nome());
  }

  function ComponentesIntensidade(i: IntensidadeDaCrise): Componentes {
    [("intensidade", Texto(i.Nome()))]
  }

  /** Equality is by enum value; a missing argument is never equal. */
  function IntensidadeEquals(a: IntensidadeDaCrise, outro: Option<IntensidadeDaCrise>): (r: bool)
    ensures r <==> outro == Some(a)
  {
    Iguais(ComponentesIntensidade(a), if outro.Some? then Some(ComponentesIntensidade(outro.value)) else None)
  }

  // ---------------------------------------------------------------- GrauTEA

  datatype GrauTEA = LEVE | MODERADO | SEVERO {
    /** The enum's string value: one of the values the parser accepts, with no
        lower-case letter, so that `toUpperCase` leaves it as it is. */
    function Nome(): (r: string)
      ensures r in NomesGrauTEA && SemMinusculas(r)
    {
      match this
      case LEVE => "LEVE"
      case MODERADO => "MODERADO"
      case SEVERO => "SEVERO"
    }
  }

  const NomesGrauTEA: set<string> := {"LEVE", "MODERADO", "SEVERO"}

  /** `GrauTEA.fromString` */
  function GrauTEAFromString(valor: string): (r: Result<GrauTEA>)
    ensures r.Ok? <==> Maiusculas(valor) in NomesGrauTEA
    ensures r.Ok? ==> r.value.Nome() == Maiusculas(valor)
    ensures r.Err? ==> r.error == "Grau TEA inválido: " + valor
  {
    var v := Maiusculas(valor);
    if v == "LEVE" then Ok(LEVE)
    else if v == "MODERADO" then Ok(MODERADO)
    else if v == "SEVERO" then Ok(SEVERO)
    else Err("Grau TEA inválido: " + valor)
  }

  lemma GrauTEARoundTrip(g: GrauTEA)
    ensures GrauTEAFromString(g.Nome()) == Ok(g)
  {
    MaiusculasSemMinusculas(g.Nome());
  }

  function ComponentesGrauTEA(g: GrauTEA): Componentes {
    [("grau", Texto(g.Nome()))]
  }

  function GrauTEAEquals(a: GrauTEA, outro: Option<GrauTEA>): (r: bool)
    ensures r <==> outro == Some(a)
  {
    Iguais(ComponentesGrauTEA(a), if outro.Some? then Some(ComponentesGrauTEA(outro.value)) else None)
  }

  // ---------------------------------------------------------------- GrauSuporte

  datatype GrauSuporte = NIVEL_1 | NIVEL_2 | NIVEL_3 {
    /** The enum's string value: one of the values the parser accepts, with no
        lower-case letter, so that `toUpperCase` leaves it as it is. */
    function Nome(): (r: string)
      ensures r in NomesGrauSuporte && SemMinusculas(r)
    {
      match this
      case NIVEL_1 => "NIVEL_1"
      case NIVEL_2 => "NIVEL_2"
      case NIVEL_3 => "NIVEL_3"
    }
  }

  const NomesGrauSuporte: set<string> := {"NIVEL_1", "NIVEL_2", "NIVEL_3"}

  /** `GrauSuporte.fromString`; its error message also lists the accepted values. */
  function GrauSuporteFromString(valor: string): (r: Result<GrauSuporte>)
    ensures r.Ok? <==> Maiusculas(valor) in NomesGrauSuporte
    ensures r.Ok? ==> r.value.Nome() == Maiusculas(valor)
    ensures r.Err? ==> r.error == "Grau de suporte inválido: " + valor + ". Use NIVEL_1, NIVEL_2 ou NIVEL_3."
  {
    var v := Maiusculas(valor);
    if v == "NIVEL_1" then Ok(NIVEL_1)
    else if v == "NIVEL_2" then Ok(NIVEL_2)
    else if v == "NIVEL_3" then Ok(NIVEL_3)
    else Err("Grau de suporte inválido: " + valor + ". Use NIVEL_1, NIVEL_2 ou NIVEL_3.")
  }

  lemma GrauSuporteRoundTrip(g: GrauSuporte)
    ensures GrauSuporteFromString(g.Nome()) == Ok(g)
  {
    MaiusculasSemMinusculas(g.Nome());
  }

  function ComponentesGrauSuporte(g: GrauSuporte): Componentes {
    [("grau", Texto(g.Nome()))]
  }

  function GrauSuporteEquals(a: GrauSuporte, outro: Option<GrauSuporte>): (r: bool)
    ensures r <==> outro == Some(a)
  {
    Iguais(ComponentesGrauSuporte(a), if outro.Some? then Some(ComponentesGrauSuporte(outro.value)) else None)
  }

  // ---------------------------------------------------------------- NivelRisco

  datatype NivelRisco = VERDE | AMARELO | VERMELHO {
    /** The enum's string value: one of the values the parser accepts, with no
        lower-case letter, so that `toUpperCase` leaves it as it is. */
    function Nome(): (r: string)
      ensures r in NomesNivelRisco && SemMinusculas(r)
    {
      match this
      case VERDE => "VERDE"
      case AMARELO => "AMARELO"
      case VERMELHO => "VERMELHO"
    }
  }

  const NomesNivelRisco: set<string> := {"VERDE", "AMARELO", "VERMELHO"}

  /** `NivelRisco.fromString` */
  function NivelRiscoFromString(valor: string): (r: Result<NivelRisco>)
    ensures r.Ok? <==> Maiusculas(valor) in NomesNivelRisco
    ensures r.Ok? ==> r.value.Nome() == Maiusculas(valor)
    ensures r.Err? ==> r.error == "Nível de risco inválido: " + valor
  {
    var v := Maiusculas(valor);
    if v == "VERDE" then Ok(VERDE)
    else if v == "AMARELO" then Ok(AMARELO)
    else if v == "VERMELHO" then Ok(VERMELHO)
    else Err("Nível de risco inválido: " + valor)
  }

  lemma NivelRiscoRoundTrip(n: NivelRisco)
    ensures NivelRiscoFromString(n.Nome()) == Ok(n)
  {
    MaiusculasSemMinusculas(n.Nome());
  }

  function ComponentesNivelRisco(n: NivelRisco): Componentes {
    [("nivel", Texto(n.Nome()))]
  }

  function NivelRiscoEquals(a: NivelRisco, outro: Option<NivelRisco>): (r: bool)
    ensures r <==> outro == Some(a)
  {
    Iguais(ComponentesNivelRisco(a), if outro.Some? then Some(ComponentesNivelRisco(outro.value)) else None)
  }

  // ---------------------------------------------------------------- TipoPerfil

  /** The profile types; `PAI` carries the string value "PAI/RESPONSAVEL". */
  datatype TipoPerfil = PROFESSOR | PAI | RESPONSAVEL | ADMIN | CRIANCA {
    /** The enum's string value: one of the values the parser accepts, with no
        lower-case letter, so that `toUpperCase` leaves it as it is. */
    function Nome(): (r: string)
      ensures r in NomesTipoPerfil && SemMinusculas(r)
    {
      match this
      case PROFESSOR => "PROFESSOR"
      case PAI => "PAI/RESPONSAVEL"
      case RESPONSAVEL => "RESPONSAVEL"
      case ADMIN => "ADMIN"
      case CRIANCA => "CRIANCA"
    }
  }

  const NomesTipoPerfil: set<string> := {"PROFESSOR", "PAI/RESPONSAVEL", "RESPONSAVEL", "ADMIN", "CRIANCA"}

  /** `TipoPerfil.fromString` */
  function TipoPerfilFromString(valor: string): (r: Result<TipoPerfil>)
    ensures r.Ok? <==> Maiusculas(valor) in NomesTipoPerfil
    ensures r.Ok? ==> r.value.Nome() == Maiusculas(valor)
    ensures r.Err? ==> r.error == "Tipo de perfil inválido: " + valor
  {
    var v := Maiusculas(valor);
    if v == "PROFESSOR" then Ok(PROFESSOR)
    else if v == "PAI/RESPONSAVEL" then Ok(PAI)
    else if v == "RESPONSAVEL" then Ok(RESPONSAVEL)
    else if v == "ADMIN" then Ok(ADMIN)
    else if v == "CRIANCA" then Ok(CRIANCA)
    else Err("Tipo de perfil inválido: " + valor)
  }

  lemma TipoPerfilRoundTrip(t: TipoPerfil)
    ensures TipoPerfilFromString(t.Nome()) == Ok(t)
  {
    MaiusculasSemMinusculas(t.Nome());
  }

  /** The role name used by the HTTP routes is not a profile type. */
  lemma EquipeEscolarNaoEhPerfil()
    ensures TipoPerfilFromString("EQUIPE_ESCOLAR").Err?
  {
    MaiusculasSemMinusculas("EQUIPE_ESCOLAR");
  }

  /** `isAdmin()` */
  predicate TipoPerfilIsAdmin(t: TipoPerfil) {
    t == ADMIN
  }

  function ComponentesTipoPerfil(t: TipoPerfil): Componentes {
    [("tipo", Texto(t.Nome()))]
  }

  function TipoPerfilEquals(a: TipoPerfil, outro: Option<TipoPerfil>): (r: bool)
    ensures r <==> outro == Some(a)
  {
    Iguais(ComponentesTipoPerfil(a), if outro.Some? then Some(ComponentesTipoPerfil(outro.value)) else None)
  }

  // ---------------------------------------------------------------- StatusAtendimento

  datatype StatusAtendimento = PENDENTE | EM_ATENDIMENTO | RESOLVIDO {
    /** The enum's string value: one of the values the parser accepts, with no
        lower-case letter, so that `toUpperCase` leaves it as it is. */
    function Nome(): (r: string)
      ensures r in NomesStatusAtendimento && SemMinusculas(r)
    {
      match this
      case PENDENTE => "PENDENTE"
      case EM_ATENDIMENTO => "EM_ATENDIMENTO"
      case RESOLVIDO => "RESOLVIDO"
    }
  }

  const NomesStatusAtendimento: set<string> := {"PENDENTE", "EM_ATENDIMENTO", "RESOLVIDO"}

  /** `StatusAtendimento.fromString` */
  function StatusAtendimentoFromString(valor: string): (r: Result<StatusAtendimento>)
    ensures r.Ok? <==> Maiusculas(valor) in NomesStatusAtendimento
    ensures r.Ok? ==> r.value.Nome() == Maiusculas(valor)
    ensures r.Err? ==> r.error == "Status de atendimento inválido: " + valor
  {
    var v := Maiusculas(valor);
    if v == "PENDENTE" then Ok(PENDENTE)
    else if v == "EM_ATENDIMENTO" then Ok(EM_ATENDIMENTO)
    else if v == "RESOLVIDO" then Ok(RESOLVIDO)
    else Err("Status de atendimento inválido: " + valor)
  }

  lemma StatusAtendimentoRoundTrip(s: StatusAtendimento)
    ensures StatusAtendimentoFromString(s.Nome()) == Ok(s)
  {
    MaiusculasSemMinusculas(s.Nome());
  }

  /** The transition table `transicoesValidas`. */
  function TransicoesValidas(s: StatusAtendimento): seq<StatusAtendimento> {
    match s
    case PENDENTE => [EM_ATENDIMENTO]
    case EM_ATENDIMENTO => [RESOLVIDO]
    case RESOLVIDO => []
  }

  /** `podeTransitarPara`: a membership test in the table, which allows exactly the two
      steps of the path PENDENTE -> EM_ATENDIMENTO -> RESOLVIDO. */
  function PodeTransitarPara(de: StatusAtendimento, para: StatusAtendimento): (r: bool)
    ensures r <==> (de == PENDENTE && para == EM_ATENDIMENTO) || (de == EM_ATENDIMENTO && para == RESOLVIDO)
    ensures de == RESOLVIDO ==> !r
    ensures de == para ==> !r
  {
    para in TransicoesValidas(de)
  }

  function ComponentesStatusAtendimento(s: StatusAtendimento): Componentes {
    [("status", Texto(s.Nome()))]
  }

  function StatusAtendimentoEquals(a: StatusAtendimento, outro: Option<StatusAtendimento>): (r: bool)
    ensures r <==> outro == Some(a)
  {
    Iguais(ComponentesStatusAtendimento(a), if outro.Some? then Some(ComponentesStatusAtendimento(outro.value)) else None)
  }

  /** How far along the path PENDENTE -> EM_ATENDIMENTO -> RESOLVIDO a status is. */
  function Etapa(s: StatusAtendimento): nat {
    match s
    case PENDENTE => 0
    case EM_ATENDIMENTO => 1
    case RESOLVIDO => 2
  }

  /** The status after calling `atualizarStatus` once with each of `tentativas` in turn
      (a rejected call throws and keeps the status), with the number of accepted calls. */
  function AplicarTentativas(s: StatusAtendimento, tentativas: seq<StatusAtendimento>): (StatusAtendimento, nat)
    decreases |tentativas|
  {
    if tentativas == [] then (s, 0)
    else if PodeTransitarPara(s, tentativas[0]) then
      var (f, n) := AplicarTentativas(tentativas[0], tentativas[1..]);
      (f, n + 1)
    else AplicarTentativas(s, tentativas[1..])
  }

  /** Whatever sequence of updates is attempted, the status only moves forward, one
      step per accepted update, so a request changes status at most twice in its life. */
  lemma {:induction false} TentativasSoAvancam(s: StatusAtendimento, tentativas: seq<StatusAtendimento>)
    ensures Etapa(AplicarTentativas(s, tentativas).0) == Etapa(s) + AplicarTentativas(s, tentativas).1
    ensures AplicarTentativas(s, tentativas).1 <= 2 - Etapa(s)
    decreases |tentativas|
  {
    if tentativas != [] {
      if PodeTransitarPara(s, tentativas[0]) {
        TentativasSoAvancam(tentativas[0], tentativas[1..]);
      } else {
        TentativasSoAvancam(s, tentativas[1..]);
      }
    }
  }

  /** From a fresh request, EM_ATENDIMENTO then RESOLVIDO are both accepted, and every
      later update is rejected. */
  lemma CaminhoCompleto(depois: seq<StatusAtendimento>)
    ensures AplicarTentativas(PENDENTE, [EM_ATENDIMENTO, RESOLVIDO] + depois) == (RESOLVIDO, 2)
  {
    var t := [EM_ATENDIMENTO, RESOLVIDO] + depois;
    assert t[1..] == [RESOLVIDO] + depois;
    assert ([RESOLVIDO] + depois)[1..] == depois;
    ResolvidoTerminal(depois);
  }

  /** RESOLVIDO is terminal: no update is ever accepted from it. */
  lemma {:induction false} ResolvidoTerminal(tentativas: seq<StatusAtendimento>)
    ensures AplicarTentativas(RESOLVIDO, tentativas) == (RESOLVIDO, 0)
  {
    if tentativas != [] {
      ResolvidoTerminal(tentativas[1..]);
    }
  }
}
