/** The persistence mapper of the child aggregate: the aggregate becomes a plain record
    of strings, numbers and lists, and a stored record is rebuilt through the entities'
    `fromPersistence` factories and the aggregate's own checked constructor. Instants
    stand for their ISO strings. */
module Mapeador {
  import opened Base
  import opened Enumeracoes
  import opened Datas
  import opened Entidade
  import opened Crises
  import opened Pedidos
  import opened Intervencoes
  import opened Criancas
  import opened Agregados

  datatype PedidoPersistido = PedidoPersistido(
    id: Option<string>,
    dataHora: int,
    status: string,
    registroCrise: CrisePersistida)

  datatype AgregadoPersistido = AgregadoPersistido(
    crianca: CriancaPersistida,
    crises: Option<seq<CrisePersistida>>,
    pedidosSuporte: Option<seq<PedidoPersistido>>,
    intervencoes: Option<seq<IntervencaoPersistida>>)

  /** `lista ?? []` */
  function OuVazia<T>(lista: Option<seq<T>>): seq<T> {
    if lista.Some? then lista.value else []
  }

  // ---------------------------------------------------------------- serialisation

  /** The stored child: the optional school only when truthy, the guardians only when
      there are any. */
  function PersistirCrianca(c: Crianca): (r: CriancaPersistida)
    reads c
    ensures r.id == Some(c.id) && r.dataNascimento == c.dataNascimento.data
    ensures r.grauTEA == c.grauTEA.Nome() && r.grauSuporte == c.grauSuporte.Nome()
    ensures r.escolaId.Some? <==> Preenchido(c.escolaId)
    ensures r.escolaId.Some? ==> r.escolaId == c.escolaId
    ensures r.responsavelIds.Some? <==> |c.responsavelIds| > 0
    ensures OuVazia(r.responsavelIds) == c.responsavelIds
  {
    CriancaPersistida(Some(c.id), c.dataNascimento.data, c.grauTEA.Nome(), c.grauSuporte.Nome(),
      if Preenchido(c.escolaId) then c.escolaId else None,
      if |c.responsavelIds| > 0 then Some(c.responsavelIds) else None)
  }

  /** The stored crisis: every optional field is kept unset when unset, never turned
      into `false` or the empty string. */
  function PersistirCrise(c: RegistroCrise): (r: CrisePersistida)
    reads c
    ensures r.id == Some(c.id) && r.dataHora == c.dataHora && IntensidadeFromString(r.intensidade) == Ok(c.intensidade)
    ensures r.descricao == c.descricao && r.gatilhoIdentificado == c.gatilhoIdentificado && r.foiEficaz == c.foiEficaz
  {
    IntensidadeRoundTrip(c.intensidade);
    CrisePersistida(Some(c.id), c.dataHora, c.intensidade.Nome(), c.descricao, c.gatilhoIdentificado, c.foiEficaz)
  }

  function PersistirPedido(p: PedidoSuporte): (r: PedidoPersistido)
    reads p, p.registroCrise
    ensures r.id == Some(p.id) && r.dataHora == p.dataHora && StatusAtendimentoFromString(r.status) == Ok(p.status)
    ensures r.registroCrise == PersistirCrise(p.registroCrise)
  {
    StatusAtendimentoRoundTrip(p.status);
    PedidoPersistido(Some(p.id), p.dataHora, p.status.Nome(), PersistirCrise(p.registroCrise))
  }

  function PersistirIntervencao(i: Intervencao): (r: IntervencaoPersistida)
    reads i
    ensures r.id == Some(i.id) && r.dataHora == i.dataHora && r.estrategia == i.estrategia
    ensures r.aplicadaPor == i.aplicadaPor && r.resultado == i.resultado
  {
    IntervencaoPersistida(Some(i.id), i.dataHora, i.estrategia, i.aplicadaPor, i.resultado)
  }

  /** `serializarAgregadoCrianca`: the three lists keep their length and order, element
      by element. */
  function Serializar(a: AgregadoCrianca): (r: AgregadoPersistido)
    reads a.crianca, a.crises, a.pedidosSuporte, (set p | p in a.pedidosSuporte :: p.registroCrise), a.intervencoes
    ensures r.crianca == PersistirCrianca(a.crianca)
    ensures r.crises.Some? && |r.crises.value| == |a.crises| &&
            forall k :: 0 <= k < |a.crises| ==> r.crises.value[k] == PersistirCrise(a.crises[k])
    ensures r.pedidosSuporte.Some? && |r.pedidosSuporte.value| == |a.pedidosSuporte| &&
            forall k :: 0 <= k < |a.pedidosSuporte| ==> r.pedidosSuporte.value[k] == PersistirPedido(a.pedidosSuporte[k])
    ensures r.intervencoes.Some? && |r.intervencoes.value| == |a.intervencoes| &&
            forall k :: 0 <= k < |a.intervencoes| ==> r.intervencoes.value[k] == PersistirIntervencao(a.intervencoes[k])
  {
    AgregadoPersistido(
      PersistirCrianca(a.crianca),
      Some(seq(|a.crises|, k requires 0 <= k < |a.crises| reads a.crises => PersistirCrise(a.crises[k]))),
      Some(seq(|a.pedidosSuporte|, k requires 0 <= k < |a.pedidosSuporte|
                 reads a.pedidosSuporte, set p | p in a.pedidosSuporte :: p.registroCrise =>
                 PersistirPedido(a.pedidosSuporte[k]))),
      Some(seq(|a.intervencoes|, k requires 0 <= k < |a.intervencoes| reads a.intervencoes =>
                 PersistirIntervencao(a.intervencoes[k]))))
  }

  // ---------------------------------------------------------------- deserialisation

  /** Invariant 1 over stored crises: at most one has its effectiveness unset. */
  predicate NoMaximoUmaPersistida(crises: seq<CrisePersistida>) {
    forall i, j :: 0 <= i < j < |crises| ==> !(crises[i].foiEficaz.None? && crises[j].foiEficaz.None?)
  }

  predicate AlgumaPersistidaEmAberto(crises: seq<CrisePersistida>) {
    exists i :: 0 <= i < |crises| && crises[i].foiEficaz.None?
  }

  /** The index of the first stored crisis whose intensity does not parse. */
  function PrimeiraIntensidadeInvalida(crises: seq<CrisePersistida>): (r: Option<nat>)
    ensures r.None? <==> forall k :: 0 <= k < |crises| ==> IntensidadeFromString(crises[k].intensidade).Ok?
    ensures r.Some? ==> r.value < |crises| && IntensidadeFromString(crises[r.value].intensidade).Err? &&
                        forall k :: 0 <= k < r.value ==> IntensidadeFromString(crises[k].intensidade).Ok?
  {
    if crises == [] then None
    else if IntensidadeFromString(crises[0].intensidade).Err? then Some(0)
    else
      var resto := PrimeiraIntensidadeInvalida(crises[1..]);
      assert forall k :: 1 <= k < |crises| ==> crises[k] == crises[1..][k - 1];
      if resto.None? then None else Some(resto.value + 1)
  }

  /** The first failing position is the one all before it pass and it fails. */
  lemma {:induction false} PrimeiraIntensidadeInvalidaEm(crises: seq<CrisePersistida>, i: nat)
    requires i < |crises| && IntensidadeFromString(crises[i].intensidade).Err?
    requires forall k :: 0 <= k < i ==> IntensidadeFromString(crises[k].intensidade).Ok?
    ensures PrimeiraIntensidadeInvalida(crises) == Some(i)
  {
    if i > 0 {
      assert forall k :: 0 <= k < i - 1 ==> crises[1..][k] == crises[k + 1];
      PrimeiraIntensidadeInvalidaEm(crises[1..], i - 1);
    }
  }

  /** The child record `desserializarAgregadoCrianca` hands to `Crianca.fromPersistence`:
      the school only when truthy, the guardian list whenever present. */
  function DadosDaCrianca(c: CriancaPersistida): (r: CriancaPersistida)
    ensures r.id == c.id && r.dataNascimento == c.dataNascimento && r.grauTEA == c.grauTEA && r.grauSuporte == c.grauSuporte
    ensures r.escolaId == (if Preenchido(c.escolaId) then c.escolaId else None)
    ensures r.responsavelIds == c.responsavelIds
  {
    c.(escolaId := if Preenchido(c.escolaId) then c.escolaId else None)
  }

  /** A stored child rebuilt into `c`: the stored id when one is given, otherwise a
      new non-empty one; the birth date and both degrees as they parse; the school
      only when it is filled in; the guardians as stored, none when absent. */
  ghost predicate CriancaReconstruida(c: Crianca, p: CriancaPersistida, hoje: Data)
    reads c
  {
    c.id != "" && (Preenchido(p.id) ==> c.id == p.id.value) &&
    Ok(c.dataNascimento) == CriarDataNascimento(p.dataNascimento, hoje) &&
    Ok(c.grauTEA) == GrauTEAFromString(p.grauTEA) && Ok(c.grauSuporte) == GrauSuporteFromString(p.grauSuporte) &&
    c.escolaId == (if Preenchido(p.escolaId) then p.escolaId else None) && c.responsavelIds == OuVazia(p.responsavelIds)
  }

  /** A stored crisis rebuilt into `c`: the stored id when one is given, otherwise a
      new non-empty one, and every other field as stored. */
  ghost predicate CriseReconstruida(c: RegistroCrise, p: CrisePersistida)
    reads c
  {
    (Preenchido(p.id) ==> c.id == p.id.value) && c.id != "" &&
    c.dataHora == p.dataHora && Ok(c.intensidade) == IntensidadeFromString(p.intensidade) &&
    c.descricao == p.descricao && c.gatilhoIdentificado == p.gatilhoIdentificado && c.foiEficaz == p.foiEficaz
  }

  ghost predicate CrisesReconstruidas(crises: seq<RegistroCrise>, lista: seq<CrisePersistida>)
    reads crises
  {
    |crises| == |lista| && forall k :: 0 <= k < |lista| ==> CriseReconstruida(crises[k], lista[k])
  }

  /** A stored intervention rebuilt into `i`. */
  ghost predicate IntervencaoReconstruida(i: Intervencao, p: IntervencaoPersistida)
    reads i
  {
    (Preenchido(p.id) ==> i.id == p.id.value) && i.id != "" &&
    i.dataHora == p.dataHora && i.estrategia == p.estrategia &&
    i.aplicadaPor == p.aplicadaPor && i.resultado == p.resultado
  }

  ghost predicate IntervencoesReconstruidas(intervencoes: seq<Intervencao>, lista: seq<IntervencaoPersistida>)
    reads intervencoes
  {
    |intervencoes| == |lista| && forall k :: 0 <= k < |lista| ==> IntervencaoReconstruida(intervencoes[k], lista[k])
  }

  /** Rebuilt crises carry the stored effectiveness, so the aggregate's invariants over
      them are the invariants over the stored records. */
  lemma InvariantesReconstruidas(crises: seq<RegistroCrise>, lista: seq<CrisePersistida>, pedidos: seq<PedidoSuporte>)
    requires |crises| == |lista| && forall k :: 0 <= k < |lista| ==> crises[k].foiEficaz == lista[k].foiEficaz
    ensures NoMaximoUmaEmAberto(crises) <==> NoMaximoUmaPersistida(lista)
    ensures AlgumaEmAberto(crises) <==> AlgumaPersistidaEmAberto(lista)
  {
    if AlgumaPersistidaEmAberto(lista) {
      var i :| 0 <= i < |lista| && lista[i].foiEficaz.None?;
      assert crises[i].EmAberto();
    }
  }

  /** `crises.map(RegistroCrise.fromPersistence)`: stops at the first stored crisis
      whose intensity does not parse. */
  method ReconstruirCrises(lista: seq<CrisePersistida>, gerador: GeradorIds) returns (r: Result<seq<RegistroCrise>>)
    requires gerador.Valid()
    modifies gerador
    ensures gerador.Valid()
    ensures r.Ok? <==> PrimeiraIntensidadeInvalida(lista).None?
    ensures r.Err? ==> var k := PrimeiraIntensidadeInvalida(lista);
                       k.Some? && r.error == IntensidadeFromString(lista[k.value].intensidade).error
    ensures r.Ok? ==> CrisesReconstruidas(r.value, lista) && forall k :: 0 <= k < |r.value| ==> fresh(r.value[k])
  {
    var crises: seq<RegistroCrise> := [];
    var i := 0;
    while i < |lista|
      invariant 0 <= i <= |lista|
      invariant gerador.Valid()
      invariant |crises| == i
      invariant forall k :: 0 <= k < i ==> CriseReconstruida(crises[k], lista[k]) && fresh(crises[k])
    {
      var rcr := RegistroCrise.FromPersistence(lista[i], gerador);
      if rcr.Err? {
        PrimeiraIntensidadeInvalidaEm(lista, i);
        return Err(rcr.error);
      }
      assert CriseReconstruida(rcr.value, lista[i]);
      var anteriores := crises;
      crises := anteriores + [rcr.value];
      assert forall k :: 0 <= k < i ==> crises[k] == anteriores[k];
      i := i + 1;
    }
    r := Ok(crises);
  }

  /** `intervencoes.map(Intervencao.fromPersistence)`, which cannot fail. */
  method ReconstruirIntervencoes(lista: seq<IntervencaoPersistida>, gerador: GeradorIds) returns (r: seq<Intervencao>)
    requires gerador.Valid()
    modifies gerador
    ensures gerador.Valid()
    ensures IntervencoesReconstruidas(r, lista) && forall k :: 0 <= k < |r| ==> fresh(r[k])
  {
    r := [];
    var j := 0;
    while j < |lista|
      invariant 0 <= j <= |lista|
      invariant gerador.Valid()
      invariant |r| == j
      invariant forall k :: 0 <= k < j ==> IntervencaoReconstruida(r[k], lista[k]) && fresh(r[k])
    {
      var intervencao := Intervencao.FromPersistence(lista[j], gerador);
      assert IntervencaoReconstruida(intervencao, lista[j]);
      r := r + [intervencao];
      j := j + 1;
    }
  }

  /** The error rebuilding the stored child ends with, if any: the birth date, then
      the TEA degree, then the support degree. */
  function ErroDaCrianca(dc: CriancaPersistida, hoje: Data): (r: Option<string>)
    ensures r.None? <==> CriarDataNascimento(dc.dataNascimento, hoje).Ok? && GrauTEAFromString(dc.grauTEA).Ok? &&
                         GrauSuporteFromString(dc.grauSuporte).Ok?
    ensures CriarDataNascimento(dc.dataNascimento, hoje).Err? ==> r == Some(CriarDataNascimento(dc.dataNascimento, hoje).error)
  {
    var d := CriarDataNascimento(dc.dataNascimento, hoje);
    var g := GrauTEAFromString(dc.grauTEA);
    var s := GrauSuporteFromString(dc.grauSuporte);
    if d.Err? then Some(d.error)
    else if g.Err? then Some(g.error)
    else if s.Err? then Some(s.error)
    else None
  }

  /** The error rebuilding the stored crises and checking the invariants ends with,
      given `nPedidos` rebuilt requests, if any: the first stored crisis whose
      intensity does not parse, then invariant 1, then invariant 2. */
  function ErroDasCrises(crises: seq<CrisePersistida>, nPedidos: nat): (r: Option<string>)
    ensures r.None? <==> PrimeiraIntensidadeInvalida(crises).None? &&
                         NoMaximoUmaPersistida(crises) && (nPedidos > 0 ==> AlgumaPersistidaEmAberto(crises))
    ensures PrimeiraIntensidadeInvalida(crises).None? ==>
              (!NoMaximoUmaPersistida(crises) ==> r == Some(MultiplasEmAberto)) &&
              (NoMaximoUmaPersistida(crises) && nPedidos > 0 && !AlgumaPersistidaEmAberto(crises) ==> r == Some(PedidosSemCrise))
  {
    var invalida := PrimeiraIntensidadeInvalida(crises);
    if invalida.Some? then Some(IntensidadeFromString(crises[invalida.value].intensidade).error)
    else if !NoMaximoUmaPersistida(crises) then Some(MultiplasEmAberto)
    else if nPedidos > 0 && !AlgumaPersistidaEmAberto(crises) then Some(PedidosSemCrise)
    else None
  }

  /** The error `desserializarAgregadoCrianca` ends with on a stored record and
      `nPedidos` rebuilt requests, if any: the child's errors come before the crises'. */
  function ErroAoDesserializar(persistido: AgregadoPersistido, nPedidos: nat, hoje: Data): (r: Option<string>)
    ensures r.None? <==> ErroDaCrianca(persistido.crianca, hoje).None? && ErroDasCrises(OuVazia(persistido.crises), nPedidos).None?
    ensures ErroDaCrianca(persistido.crianca, hoje).Some? ==> r == ErroDaCrianca(persistido.crianca, hoje)
  {
    var erro := ErroDaCrianca(persistido.crianca, hoje);
    if erro.Some? then erro else ErroDasCrises(OuVazia(persistido.crises), nPedidos)
  }

  /** The first half of `desserializarAgregadoCrianca`: the child, with its school
      cleared when it is not filled in. */
  method ReconstruirCrianca(dc: CriancaPersistida, hoje: Data, gerador: GeradorIds) returns (r: Result<Crianca>)
    requires gerador.Valid()
    modifies gerador
    ensures gerador.Valid()
    ensures r.Ok? <==> ErroDaCrianca(dc, hoje).None?
    ensures r.Err? ==> ErroDaCrianca(dc, hoje) == Some(r.error)
    ensures r.Ok? ==> fresh(r.value) && CriancaReconstruida(r.value, dc, hoje)
  {
    r := Crianca.FromPersistence(DadosDaCrianca(dc), hoje, gerador);
  }

  /** The second half of `desserializarAgregadoCrianca`, once the child is rebuilt:
      the crises in order, the interventions, and the aggregate's checked constructor. */
  method MontarAgregado(crianca: Crianca, persistido: AgregadoPersistido, pedidos: seq<PedidoSuporte>, gerador: GeradorIds)
    returns (r: Result<AgregadoCrianca>)
    requires gerador.Valid()
    modifies gerador
    ensures gerador.Valid()
    ensures r.Ok? <==> ErroDasCrises(OuVazia(persistido.crises), |pedidos|).None?
    ensures r.Err? ==> ErroDasCrises(OuVazia(persistido.crises), |pedidos|) == Some(r.error)
    ensures r.Ok? ==> r.value.crianca == crianca && r.value.pedidosSuporte == pedidos
    ensures r.Ok? ==> CrisesReconstruidas(r.value.crises, OuVazia(persistido.crises)) &&
                      forall k :: 0 <= k < |r.value.crises| ==> fresh(r.value.crises[k])
    ensures r.Ok? ==> IntervencoesReconstruidas(r.value.intervencoes, OuVazia(persistido.intervencoes)) &&
                      forall k :: 0 <= k < |r.value.intervencoes| ==> fresh(r.value.intervencoes[k])
  {
    var listaCrises := OuVazia(persistido.crises);
    var rcr := ReconstruirCrises(listaCrises, gerador);
    if rcr.Err? {
      return Err(rcr.error);
    }
    var crises := rcr.value;
    var intervencoes := ReconstruirIntervencoes(OuVazia(persistido.intervencoes), gerador);
    InvariantesReconstruidas(crises, listaCrises, pedidos);
    r := FromPersistence(crianca, crises, pedidos, intervencoes);
  }

  /** `desserializarAgregadoCrianca`. Missing lists are empty. The child is rebuilt
      first (the birth date is re-checked against `hoje`), then the crises in order,
      then the interventions, and the aggregate's constructor re-checks both
      invariants; the first failure is the result. `pedidos` are the rebuilt support
      requests, which the entity offers no factory for. On success every stored field
      of the child, the crises and the interventions is in the result, in order. */
  method Desserializar(persistido: AgregadoPersistido, pedidos: seq<PedidoSuporte>, hoje: Data, gerador: GeradorIds)
    returns (r: Result<AgregadoCrianca>)
    requires gerador.Valid()
    modifies gerador
    ensures gerador.Valid()
    ensures r.Ok? <==> ErroAoDesserializar(persistido, |pedidos|, hoje).None?
    ensures r.Err? ==> ErroAoDesserializar(persistido, |pedidos|, hoje) == Some(r.error)
    ensures r.Ok? ==> fresh(r.value.crianca) && CriancaReconstruida(r.value.crianca, persistido.crianca, hoje)
    ensures r.Ok? ==> CrisesReconstruidas(r.value.crises, OuVazia(persistido.crises)) &&
                      forall k :: 0 <= k < |r.value.crises| ==> fresh(r.value.crises[k])
    ensures r.Ok? ==> r.value.pedidosSuporte == pedidos
    ensures r.Ok? ==> IntervencoesReconstruidas(r.value.intervencoes, OuVazia(persistido.intervencoes)) &&
                      forall k :: 0 <= k < |r.value.intervencoes| ==> fresh(r.value.intervencoes[k])
  {
    var rc := ReconstruirCrianca(persistido.crianca, hoje, gerador);
    if rc.Err? {
      return Err(rc.error);
    }
    r := MontarAgregado(rc.value, persistido, pedidos, gerador);
  }

  // ---------------------------------------------------------------- round trip

  /** Every entity of the aggregate has a non-empty id, as every factory gives it. */
  predicate IdsPreenchidos(a: AgregadoCrianca)
    reads a.crianca, a.crises, a.intervencoes
  {
    a.crianca.id != "" && (forall k :: 0 <= k < |a.crises| ==> a.crises[k].id != "") &&
    forall k :: 0 <= k < |a.intervencoes| ==> a.intervencoes[k].id != ""
  }

  /** An aggregate whose child's birth date still passes the age check on `hoje` is
      read back from its own stored form exactly when it satisfies both invariants;
      otherwise loading reports the first invariant it breaks. */
  lemma SerializadoDesserializavel(a: AgregadoCrianca, hoje: Data)
    requires CriarDataNascimento(a.crianca.dataNascimento.data, hoje).Ok?
    ensures ErroAoDesserializar(Serializar(a), |a.pedidosSuporte|, hoje).None? <==> Valido(a)
    ensures !NoMaximoUmaEmAberto(a.crises) ==> ErroAoDesserializar(Serializar(a), |a.pedidosSuporte|, hoje) == Some(MultiplasEmAberto)
    ensures NoMaximoUmaEmAberto(a.crises) && !Valido(a) ==>
              ErroAoDesserializar(Serializar(a), |a.pedidosSuporte|, hoje) == Some(PedidosSemCrise)
  {
    var s := Serializar(a);
    var lista := s.crises.value;
    GrauTEARoundTrip(a.crianca.grauTEA);
    GrauSuporteRoundTrip(a.crianca.grauSuporte);
    assert ErroDaCrianca(s.crianca, hoje) == None;
    assert forall k :: 0 <= k < |lista| ==> IntensidadeFromString(lista[k].intensidade).Ok?;
    InvariantesReconstruidas(a.crises, lista, a.pedidosSuporte);
  }

  /** A child rebuilt from its stored form is the same child, but for a school id
      that is the empty string, which comes back unset. */
  ghost predicate MesmaCrianca(c: Crianca, original: Crianca)
    reads c, original
  {
    c.id == original.id && c.dataNascimento == original.dataNascimento &&
    c.grauTEA == original.grauTEA && c.grauSuporte == original.grauSuporte &&
    c.escolaId == (if Preenchido(original.escolaId) then original.escolaId else None) &&
    c.responsavelIds == original.responsavelIds
  }

  ghost predicate MesmaCrise(c: RegistroCrise, original: RegistroCrise)
    reads c, original
  {
    c.id == original.id && c.dataHora == original.dataHora && c.intensidade == original.intensidade &&
    c.descricao == original.descricao && c.gatilhoIdentificado == original.gatilhoIdentificado &&
    c.foiEficaz == original.foiEficaz
  }

  ghost predicate MesmaIntervencao(i: Intervencao, original: Intervencao)
    reads i, original
  {
    i.id == original.id && i.dataHora == original.dataHora && i.estrategia == original.estrategia &&
    i.aplicadaPor == original.aplicadaPor && i.resultado == original.resultado
  }

  /** Rebuilding a stored child, crisis or intervention gives back the original. */
  lemma CriancaDeVolta(c: Crianca, original: Crianca, hoje: Data)
    requires original.id != "" && CriarDataNascimento(original.dataNascimento.data, hoje).Ok?
    requires CriancaReconstruida(c, PersistirCrianca(original), hoje)
    ensures MesmaCrianca(c, original)
  {
    GrauTEARoundTrip(original.grauTEA);
    GrauSuporteRoundTrip(original.grauSuporte);
  }

  lemma CriseDeVolta(c: RegistroCrise, original: RegistroCrise)
    requires original.id != "" && CriseReconstruida(c, PersistirCrise(original))
    ensures MesmaCrise(c, original)
  {
  }

  lemma IntervencaoDeVolta(i: Intervencao, original: Intervencao)
    requires original.id != "" && IntervencaoReconstruida(i, PersistirIntervencao(original))
    ensures MesmaIntervencao(i, original)
  {
  }

  /** An aggregate rebuilt from the stored form of `a` (as `Desserializar` promises
      to rebuild it) holds the same child, crises and interventions as `a`. With
      `SerializadoDesserializavel` this is the round trip of the mapper. */
  lemma AgregadoDeVolta(b: AgregadoCrianca, a: AgregadoCrianca, hoje: Data)
    requires IdsPreenchidos(a) && CriarDataNascimento(a.crianca.dataNascimento.data, hoje).Ok?
    requires CriancaReconstruida(b.crianca, Serializar(a).crianca, hoje)
    requires CrisesReconstruidas(b.crises, OuVazia(Serializar(a).crises))
    requires IntervencoesReconstruidas(b.intervencoes, OuVazia(Serializar(a).intervencoes))
    ensures MesmaCrianca(b.crianca, a.crianca)
    ensures |b.crises| == |a.crises| && forall k :: 0 <= k < |a.crises| ==> MesmaCrise(b.crises[k], a.crises[k])
    ensures |b.intervencoes| == |a.intervencoes| &&
            forall k :: 0 <= k < |a.intervencoes| ==> MesmaIntervencao(b.intervencoes[k], a.intervencoes[k])
  {
    CriancaDeVolta(b.crianca, a.crianca, hoje);
    forall k | 0 <= k < |a.crises| ensures MesmaCrise(b.crises[k], a.crises[k]) {
      CriseDeVolta(b.crises[k], a.crises[k]);
    }
    forall k | 0 <= k < |a.intervencoes| ensures MesmaIntervencao(b.intervencoes[k], a.intervencoes[k]) {
      IntervencaoDeVolta(b.intervencoes[k], a.intervencoes[k]);
    }
  }
}
