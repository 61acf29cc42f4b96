/** The child aggregate: a child with its crisis records, support requests and
    interventions. Every construction re-checks two invariants over the crisis list:
    at most one crisis is unresolved, and support requests exist only while some crisis
    is unresolved. The lists hold references to the mutable entities, so a crisis can
    be closed without rebuilding the aggregate; the aggregate itself is an immutable
    value and every `Adicionar...` returns a new one. */
module Agregados {
  import opened Base
  import opened Crises
  import opened Pedidos
  import opened Intervencoes
  import opened Criancas

  datatype AgregadoCrianca = AgregadoCrianca(
    crianca: Crianca,
    crises: seq<RegistroCrise>,
    pedidosSuporte: seq<PedidoSuporte>,
    intervencoes: seq<Intervencao>)

  const MultiplasEmAberto := "Invariante violada: múltiplas crises não resolvidas"
  const PedidosSemCrise := "Invariante violada: pedidos de suporte sem crise não resolvida"
  const JaExisteEmAndamento := "Não é possível adicionar uma nova crise: já existe uma crise em andamento"
  const NaoHaCriseEmAberto := "Não é possível adicionar pedido de suporte: não há crise não resolvida"

  // ---------------------------------------------------------------- the invariants, stated

  /** Invariant 1: no two positions of the list hold an unresolved crisis. */
  predicate NoMaximoUmaEmAberto(crises: seq<RegistroCrise>)
    reads crises
  {
    forall i, j :: 0 <= i < j < |crises| ==> !(crises[i].EmAberto() && crises[j].EmAberto())
  }

  /** Some position of the list holds an unresolved crisis. */
  predicate AlgumaEmAberto(crises: seq<RegistroCrise>)
    reads crises
  {
    exists i :: 0 <= i < |crises| && crises[i].EmAberto()
  }

  /** Both invariants of a child aggregate's lists. */
  predicate Invariantes(crises: seq<RegistroCrise>, pedidosSuporte: seq<PedidoSuporte>)
    reads crises
  {
    NoMaximoUmaEmAberto(crises) && (|pedidosSuporte| > 0 ==> AlgumaEmAberto(crises))
  }

  predicate Valido(a: AgregadoCrianca)
    reads a.crises
  {
    Invariantes(a.crises, a.pedidosSuporte)
  }

  /** `c` is the first unresolved crisis of the list. */
  predicate PrimeiraEmAberto(crises: seq<RegistroCrise>, c: RegistroCrise)
    reads crises
  {
    exists i :: 0 <= i < |crises| && crises[i] == c && crises[i].EmAberto() &&
                forall k :: 0 <= k < i ==> !crises[k].EmAberto()
  }

  /** An unresolved crisis appended to a list with none is the list's only and
      first unresolved crisis. */
  lemma NovaCriseUnicaEmAberto(crises: seq<RegistroCrise>, c: RegistroCrise)
    requires !AlgumaEmAberto(crises) && c.EmAberto()
    ensures NoMaximoUmaEmAberto(crises + [c]) && AlgumaEmAberto(crises + [c])
    ensures PrimeiraEmAberto(crises + [c], c)
  {
    var novas := crises + [c];
    assert forall k :: 0 <= k < |crises| ==> novas[k] == crises[k];
    assert novas[|crises|] == c;
  }

  // ---------------------------------------------------------------- the invariants, as checked

  /** `crises.filter(c => c.foiEficaz === undefined)`, the unresolved crises in list order. */
  function NaoResolvidas(crises: seq<RegistroCrise>): (r: seq<RegistroCrise>)
    reads crises
    ensures |r| <= |crises|
    ensures forall k :: 0 <= k < |r| ==> r[k] in crises && r[k].EmAberto()
  {
    if crises == [] then []
    else (if crises[0].EmAberto() then [crises[0]] else []) + NaoResolvidas(crises[1..])
  }

  /** The filter is non-empty exactly when some crisis is unresolved, and then it starts
      with the first unresolved crisis of the list. */
  lemma {:induction false} NaoResolvidasPrimeira(crises: seq<RegistroCrise>)
    ensures |NaoResolvidas(crises)| > 0 <==> AlgumaEmAberto(crises)
    ensures |NaoResolvidas(crises)| > 0 ==> PrimeiraEmAberto(crises, NaoResolvidas(crises)[0])
  {
    if crises != [] {
      NaoResolvidasPrimeira(crises[1..]);
      if crises[0].EmAberto() {
        assert NaoResolvidas(crises)[0] == crises[0];
        assert PrimeiraEmAberto(crises, crises[0]);
      } else {
        assert NaoResolvidas(crises) == NaoResolvidas(crises[1..]);
        AlgumaEmAbertoNaCauda(crises);
        if |NaoResolvidas(crises)| > 0 {
          PrimeiraEmAbertoNaCauda(crises, NaoResolvidas(crises)[0]);
        }
      }
    }
  }

  /** Behind a resolved head, the list has an unresolved crisis exactly when its tail does. */
  lemma AlgumaEmAbertoNaCauda(crises: seq<RegistroCrise>)
    requires crises != [] && !crises[0].EmAberto()
    ensures AlgumaEmAberto(crises) <==> AlgumaEmAberto(crises[1..])
  {
    if AlgumaEmAberto(crises) {
      var i :| 0 <= i < |crises| && crises[i].EmAberto();
      assert crises[1..][i - 1] == crises[i];
    }
    if AlgumaEmAberto(crises[1..]) {
      var i :| 0 <= i < |crises[1..]| && crises[1..][i].EmAberto();
      assert crises[i + 1] == crises[1..][i];
    }
  }

  /** Behind a resolved head, the first unresolved crisis of the tail is the list's. */
  lemma PrimeiraEmAbertoNaCauda(crises: seq<RegistroCrise>, c: RegistroCrise)
    requires crises != [] && !crises[0].EmAberto() && PrimeiraEmAberto(crises[1..], c)
    ensures PrimeiraEmAberto(crises, c)
  {
    var resto := crises[1..];
    var i :| 0 <= i < |resto| && resto[i] == c && resto[i].EmAberto() &&
             forall k :: 0 <= k < i ==> !resto[k].EmAberto();
    assert crises[i + 1] == resto[i];
    forall k | 0 <= k < i + 1 ensures !crises[k].EmAberto() {
      if k > 0 { assert crises[k] == resto[k - 1]; }
    }
  }

  /** Invariant 1 of a non-empty list: the head is resolved or the tail has no
      unresolved crisis, and invariant 1 holds for the tail. */
  lemma NoMaximoUmaCabeca(crises: seq<RegistroCrise>)
    requires crises != []
    ensures NoMaximoUmaEmAberto(crises) <==>
              (crises[0].EmAberto() ==> !AlgumaEmAberto(crises[1..])) && NoMaximoUmaEmAberto(crises[1..])
  {
    var resto := crises[1..];
    assert forall k :: 0 <= k < |resto| ==> resto[k] == crises[k + 1];
    if NoMaximoUmaEmAberto(crises) {
      if crises[0].EmAberto() {
        forall j | 0 <= j < |resto| ensures !resto[j].EmAberto() {
          assert !(crises[0].EmAberto() && crises[j + 1].EmAberto());
        }
      }
      forall i, j | 0 <= i < j < |resto| ensures !(resto[i].EmAberto() && resto[j].EmAberto()) {
        assert !(crises[i + 1].EmAberto() && crises[j + 1].EmAberto());
      }
    } else {
      var i, j :| 0 <= i < j < |crises| && crises[i].EmAberto() && crises[j].EmAberto();
      if i == 0 {
        assert resto[j - 1].EmAberto();
      } else {
        assert resto[i - 1].EmAberto() && resto[j - 1].EmAberto();
      }
    }
  }

  /** The filter has at most one element exactly when invariant 1 holds. */
  lemma {:induction false} NaoResolvidasNoMaximoUma(crises: seq<RegistroCrise>)
    ensures |NaoResolvidas(crises)| <= 1 <==> NoMaximoUmaEmAberto(crises)
  {
    if crises != [] {
      var resto := crises[1..];
      NaoResolvidasNoMaximoUma(resto);
      NaoResolvidasPrimeira(resto);
      NoMaximoUmaCabeca(crises);
      assert |NaoResolvidas(crises)| == (if crises[0].EmAberto() then 1 else 0) + |NaoResolvidas(resto)|;
    }
  }

  /** `validarInvariantes`: counts the unresolved crises and fails on more than one,
      then on support requests with none. It passes exactly when both invariants hold. */
  function ValidarInvariantes(crises: seq<RegistroCrise>, pedidosSuporte: seq<PedidoSuporte>): (r: Outcome)
    reads crises
    ensures r.Pass? <==> Invariantes(crises, pedidosSuporte)
    ensures !NoMaximoUmaEmAberto(crises) ==> r == Fail(MultiplasEmAberto)
    ensures NoMaximoUmaEmAberto(crises) && !Invariantes(crises, pedidosSuporte) ==> r == Fail(PedidosSemCrise)
  {
    NaoResolvidasNoMaximoUma(crises);
    NaoResolvidasPrimeira(crises);
    var naoResolvidas := NaoResolvidas(crises);
    if |naoResolvidas| > 1 then Fail(MultiplasEmAberto)
    else if |pedidosSuporte| > 0 && |naoResolvidas| == 0 then Fail(PedidosSemCrise)
    else Pass
  }

  // ---------------------------------------------------------------- construction

  /** The private constructor: keeps the lists exactly as given (copies, being values)
      when both invariants hold, and fails with the check's message otherwise. */
  function Construir(crianca: Crianca, crises: seq<RegistroCrise>, pedidosSuporte: seq<PedidoSuporte>,
                     intervencoes: seq<Intervencao>): (r: Result<AgregadoCrianca>)
    reads crises
    ensures r.Ok? <==> Invariantes(crises, pedidosSuporte)
    ensures r.Ok? ==> r.value == AgregadoCrianca(crianca, crises, pedidosSuporte, intervencoes)
    ensures r.Err? ==> Fail(r.error) == ValidarInvariantes(crises, pedidosSuporte)
  {
    var v := ValidarInvariantes(crises, pedidosSuporte);
    if v.Fail? then Err(v.error) else Ok(AgregadoCrianca(crianca, crises, pedidosSuporte, intervencoes))
  }

  /** `criar`: always succeeds, with the child and three empty lists. */
  function Criar(crianca: Crianca): (r: Result<AgregadoCrianca>)
    ensures r.Ok? && r.value.crianca == crianca
    ensures r.value.crises == [] && r.value.pedidosSuporte == [] && r.value.intervencoes == []
  {
    Construir(crianca, [], [], [])
  }

  /** `fromPersistence`: the given lists, in the given order, when they satisfy both
      invariants; otherwise the invariant's error. */
  function FromPersistence(crianca: Crianca, crises: seq<RegistroCrise>, pedidosSuporte: seq<PedidoSuporte>,
                           intervencoes: seq<Intervencao>): (r: Result<AgregadoCrianca>)
    reads crises
    ensures r.Ok? <==> Invariantes(crises, pedidosSuporte)
    ensures r.Ok? ==> r.value.crianca == crianca && r.value.crises == crises &&
                      r.value.pedidosSuporte == pedidosSuporte && r.value.intervencoes == intervencoes
    ensures !NoMaximoUmaEmAberto(crises) ==> r == Err(MultiplasEmAberto)
    ensures NoMaximoUmaEmAberto(crises) && |pedidosSuporte| > 0 && !AlgumaEmAberto(crises) ==> r == Err(PedidosSemCrise)
  {
    Construir(crianca, crises, pedidosSuporte, intervencoes)
  }

  /** `adicionarCrise`: refused while any crisis is unresolved; otherwise the crisis is
      appended and nothing else changes, provided the new lists pass the check. */
  function AdicionarCrise(a: AgregadoCrianca, crise: RegistroCrise): (r: Result<AgregadoCrianca>)
    reads a.crises, crise
    ensures AlgumaEmAberto(a.crises) ==> r == Err(JaExisteEmAndamento)
    ensures r.Ok? <==> !AlgumaEmAberto(a.crises) && Invariantes(a.crises + [crise], a.pedidosSuporte)
    ensures r.Ok? ==> r.value == a.(crises := a.crises + [crise])
    ensures Valido(a) && !AlgumaEmAberto(a.crises) && crise.EmAberto() ==> r.Ok?
  {
    NaoResolvidasPrimeira(a.crises);
    if |NaoResolvidas(a.crises)| > 0 then Err(JaExisteEmAndamento)
    else
      var novas := a.crises + [crise];
      assert crise == novas[|a.crises|];
      assert forall k :: 0 <= k < |a.crises| ==> novas[k] == a.crises[k];
      Construir(a.crianca, novas, a.pedidosSuporte, a.intervencoes)
  }

  /** `adicionarPedidoSuporte`: refused when no crisis is unresolved; otherwise the
      request is appended and nothing else changes, provided invariant 1 holds. */
  function AdicionarPedidoSuporte(a: AgregadoCrianca, pedido: PedidoSuporte): (r: Result<AgregadoCrianca>)
    reads a.crises
    ensures !AlgumaEmAberto(a.crises) ==> r == Err(NaoHaCriseEmAberto)
    ensures AlgumaEmAberto(a.crises) && !NoMaximoUmaEmAberto(a.crises) ==> r == Err(MultiplasEmAberto)
    ensures r.Ok? <==> AlgumaEmAberto(a.crises) && NoMaximoUmaEmAberto(a.crises)
    ensures r.Ok? ==> r.value == a.(pedidosSuporte := a.pedidosSuporte + [pedido])
  {
    NaoResolvidasPrimeira(a.crises);
    if |NaoResolvidas(a.crises)| == 0 then Err(NaoHaCriseEmAberto)
    else Construir(a.crianca, a.crises, a.pedidosSuporte + [pedido], a.intervencoes)
  }

  /** `adicionarIntervencao`: appends the intervention and changes nothing else; it
      succeeds exactly when the receiver satisfies both invariants. */
  function AdicionarIntervencao(a: AgregadoCrianca, intervencao: Intervencao): (r: Result<AgregadoCrianca>)
    reads a.crises
    ensures r.Ok? <==> Valido(a)
    ensures r.Ok? ==> r.value == a.(intervencoes := a.intervencoes + [intervencao])
  {
    Construir(a.crianca, a.crises, a.pedidosSuporte, a.intervencoes + [intervencao])
  }

  /** Whatever an aggregate operation returns satisfies both invariants. */
  lemma AdicionarPreservaValido(a: AgregadoCrianca, crise: RegistroCrise, pedido: PedidoSuporte, intervencao: Intervencao)
    ensures AdicionarCrise(a, crise).Ok? ==> Valido(AdicionarCrise(a, crise).value)
    ensures AdicionarPedidoSuporte(a, pedido).Ok? ==> Valido(AdicionarPedidoSuporte(a, pedido).value)
    ensures AdicionarIntervencao(a, intervencao).Ok? ==> Valido(AdicionarIntervencao(a, intervencao).value)
  {
  }

  /** On a valid aggregate a request can be added exactly while a crisis is open. */
  lemma PedidoSseCriseEmAberto(a: AgregadoCrianca, pedido: PedidoSuporte)
    requires Valido(a)
    ensures AdicionarPedidoSuporte(a, pedido).Ok? <==> AlgumaEmAberto(a.crises)
  {
  }
}
