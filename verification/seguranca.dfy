/** The pure parts of the security services: the password-strength report, the
    guards `hash` runs before calling the hashing library, and the extraction of a
    bearer token from an `Authorization` header. */
module Seguranca {
  import opened Base
  import Credenciais

  // ---------------------------------------------------------------- validatePasswordStrength

  const SenhaObrigatoria := "Senha é obrigatória"
  const MinimoSeis := "Senha deve ter no mínimo 6 caracteres"
  const MaximoCentoEVinteOito := "Senha deve ter no máximo 128 caracteres"
  const PrecisaLetra := "Senha deve conter pelo menos uma letra"
  const PrecisaNumero := "Senha deve conter pelo menos um número"

  /** A non-empty password is checked against four rules, numbered in check order. */
  const NumeroDeRegras := 4

  /** The message reported for rule number `k`. */
  function Mensagem(k: nat): string
    requires k < NumeroDeRegras
  {
    match k
    case 0 => MinimoSeis
    case 1 => MaximoCentoEVinteOito
    case 2 => PrecisaLetra
    case _ => PrecisaNumero
  }

  /** `/[a-zA-Z]/.test(p)` */
  predicate TemLetra(p: string) {
    exists k :: 0 <= k < |p| && (EhMinuscula(p[k]) || EhMaiuscula(p[k]))
  }

  /** `/\d/.test(p)` */
  predicate TemDigito(p: string) {
    exists k :: 0 <= k < |p| && EhDigito(p[k])
  }

  /** Whether `p` breaks rule number `k`. */
  predicate Violada(p: string, k: nat)
    requires k < NumeroDeRegras
  {
    match k
    case 0 => ComprimentoUtf16(p) < 6
    case 1 => ComprimentoUtf16(p) > 128
    case 2 => !TemLetra(p)
    case _ => !TemDigito(p)
  }

  /** The messages of the rules from number `k` on that `p` breaks, in rule order. */
  function Violacoes(p: string, k: nat): (r: seq<string>)
    requires k <= NumeroDeRegras
    ensures |r| <= NumeroDeRegras - k
    decreases NumeroDeRegras - k
  {
    if k == NumeroDeRegras then []
    else (if Violada(p, k) then [Mensagem(k)] else []) + Violacoes(p, k + 1)
  }

  /** `validatePasswordStrength`: the empty password reports only that it is required;
      any other reports every broken rule once, in check order, and is valid exactly
      when it breaks none. */
  method ValidatePasswordStrength(password: string) returns (isValid: bool, errors: seq<string>)
    ensures password == "" ==> !isValid && errors == [SenhaObrigatoria]
    ensures password != "" ==> errors == Violacoes(password, 0)
    ensures isValid <==> errors == []
  {
    errors := [];
    if password == "" {
      errors := errors + [SenhaObrigatoria];
      return false, errors;
    }
    if ComprimentoUtf16(password) < 6 {
      errors := errors + [MinimoSeis];
    }
    if ComprimentoUtf16(password) > 128 {
      errors := errors + [MaximoCentoEVinteOito];
    }
    if !TemLetra(password) {
      errors := errors + [PrecisaLetra];
    }
    if !TemDigito(password) {
      errors := errors + [PrecisaNumero];
    }
    isValid := |errors| == 0;
  }

  /** A rule's message is reported exactly when the rule is broken. */
  lemma {:induction false} ViolacaoReportada(p: string, k: nat, j: nat)
    requires k <= j < NumeroDeRegras
    ensures Mensagem(j) in Violacoes(p, k) <==> Violada(p, j)
    decreases NumeroDeRegras - k
  {
    if k < j {
      ViolacaoReportada(p, k + 1, j);
      assert Mensagem(k) != Mensagem(j);
    } else if k + 1 < NumeroDeRegras {
      NaoReportadaAntes(p, k + 1, j);
    }
  }

  /** Rules before number `k` are not reported by `Violacoes(p, k)`. */
  lemma {:induction false} NaoReportadaAntes(p: string, k: nat, j: nat)
    requires j < k <= NumeroDeRegras
    ensures Mensagem(j) !in Violacoes(p, k)
    decreases NumeroDeRegras - k
  {
    if k < NumeroDeRegras {
      NaoReportadaAntes(p, k + 1, j);
    }
  }

  /** A non-empty password passes exactly when it has 6 to 128 UTF-16 code units, an
      ASCII letter and a digit. */
  lemma ForcaSse(p: string)
    requires p != ""
    ensures |Violacoes(p, 0)| == 0 <==> 6 <= ComprimentoUtf16(p) <= 128 && TemLetra(p) && TemDigito(p)
  {
    NenhumaDesde(p, 0);
  }

  /** The report from rule `k` on is empty exactly when no rule from `k` on is broken. */
  lemma {:induction false} NenhumaDesde(p: string, k: nat)
    requires k <= NumeroDeRegras
    ensures |Violacoes(p, k)| == 0 <==> forall j :: k <= j < NumeroDeRegras ==> !Violada(p, j)
    decreases NumeroDeRegras - k
  {
    if k < NumeroDeRegras {
      NenhumaDesde(p, k + 1);
    }
  }

  /** The two length rules are never reported together. */
  lemma ComprimentosExclusivos(p: string)
    ensures !(MinimoSeis in Violacoes(p, 0) && MaximoCentoEVinteOito in Violacoes(p, 0))
  {
    ViolacaoReportada(p, 0, 0);
    ViolacaoReportada(p, 0, 1);
  }

  /** A password `Senha` accepts as strong passes this report too, unless it is
      longer than 128 code units. */
  lemma SenhaForteEhValida(p: string)
    requires Credenciais.IsStrongPassword(p) && ComprimentoUtf16(p) <= 128
    ensures Violacoes(p, 0) == []
  {
    var k :| 0 <= k < |p| && EhMinuscula(p[k]);
    assert TemLetra(p);
    ForcaSse(p);
  }

  // ---------------------------------------------------------------- hash pre-checks

  /** The guards of `hash`, in order: a blank password, then one under 6 code units. */
  function PreValidarHash(senha: string): (r: Outcome)
    ensures r.Pass? <==> !EmBranco(senha) && ComprimentoUtf16(senha) >= 6
    ensures EmBranco(senha) ==> r == Fail("Senha não pode ser vazia")
    ensures !EmBranco(senha) && ComprimentoUtf16(senha) < 6 ==> r == Fail(MinimoSeis)
  {
    if EmBranco(senha) then Fail("Senha não pode ser vazia")
    else if ComprimentoUtf16(senha) < 6 then Fail(MinimoSeis)
    else Pass
  }

  /** A password the strength report accepts is never refused by `hash`'s guards. */
  lemma ValidaEhAceitaPeloHash(p: string)
    requires p != "" && Violacoes(p, 0) == []
    ensures PreValidarHash(p) == Pass
  {
    ForcaSse(p);
    var k :| 0 <= k < |p| && EhDigito(p[k]);
    assert !EhEspaco(p[k]);
  }

  // ---------------------------------------------------------------- extractTokenFromHeader

  const Esquema := "Bearer"

  /** `extractTokenFromHeader`: a missing or empty header gives nothing; otherwise the
      header is split on single spaces and the second piece is the token when there
      are exactly two pieces and the first is `Bearer`, compared case-sensitively. */
  function ExtractTokenFromHeader(authHeader: Option<string>): (r: Option<string>)
    ensures !Preenchido(authHeader) ==> r == None
    ensures r.Some? ==> |Dividir(authHeader.value, ' ')| == 2 && Dividir(authHeader.value, ' ')[0] == Esquema
  {
    if !Preenchido(authHeader) then None
    else
      var partes := Dividir(authHeader.value, ' ');
      if |partes| != 2 || partes[0] != Esquema then None
      else Some(partes[1])
  }

  /** The token is `t` exactly when the header is `Bearer`, one space, and `t`, with no
      further space in `t`. */
  lemma ExtrairTokenSse(authHeader: Option<string>, t: string)
    ensures ExtractTokenFromHeader(authHeader) == Some(t) <==>
            authHeader == Some(Esquema + " " + t) && ' ' !in t
  {
    if ExtractTokenFromHeader(authHeader) == Some(t) {
      var partes := Dividir(authHeader.value, ' ');
      JuntarDividir(authHeader.value, ' ');
      assert partes == [Esquema, t];
      assert Juntar(partes, ' ') == Esquema + [' '] + t;
      assert ' ' !in partes[1];
    }
    if authHeader == Some(Esquema + " " + t) && ' ' !in t {
      DividirJuntar([Esquema, t], ' ');
      assert Juntar([Esquema, t], ' ') == Esquema + " " + t;
    }
  }

  /** The scheme is case-sensitive. */
  lemma EsquemaMinusculoRecusado()
    ensures ExtractTokenFromHeader(Some("bearer x")) == None
  {
    var partes := Dividir("bearer x", ' ');
    DividirPrefixo("bearer", "x", ' ');
    assert "bearer x" == "bearer" + [' '] + "x";
    DividirSemSeparador("x", ' ');
  }

  /** Two spaces between scheme and token make three pieces. */
  lemma EspacoDuploRecusado(t: string)
    requires ' ' !in t
    ensures ExtractTokenFromHeader(Some("Bearer  " + t)) == None
  {
    var h := Some("Bearer  " + t);
    forall u ensures ExtractTokenFromHeader(h) != Some(u) {
      ExtrairTokenSse(h, u);
      if h.value == Esquema + " " + u {
        assert u[0] == h.value[7] == ' ';
      }
    }
  }

  /** The scheme followed by a single space and nothing else yields the empty token. */
  lemma TokenVazio()
    ensures ExtractTokenFromHeader(Some("Bearer ")) == Some("")
  {
    ExtrairTokenSse(Some("Bearer "), "");
    assert Esquema + " " + "" == "Bearer ";
  }
}
