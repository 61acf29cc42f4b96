/** The e-mail and password value objects. */
module Credenciais {
  import opened Base
  import opened ObjetoDeValor

  // ---------------------------------------------------------------- Email

  /** The character class `[^\s@]`. */
  predicate CaractereDeEndereco(c: char) {
    !EhEspaco(c) && c != '@'
  }

  /** `[^\s@]*` */
  predicate SoCaracteresDeEndereco(s: string) {
    forall k :: 0 <= k < |s| ==> CaractereDeEndereco(s[k])
  }

  /** The language of `^[^\s@]+@[^\s@]+\.[^\s@]+$`: a non-empty local part, '@', a
      non-empty piece, '.', and a non-empty rest, none of them holding '@' or whitespace. */
  ghost predicate CasaPadraoEmail(s: string) {
    exists i, j :: 0 < i && i + 1 < j && j + 1 < |s| && s[i] == '@' && s[j] == '.' &&
      SoCaracteresDeEndereco(s[..i]) && SoCaracteresDeEndereco(s[i+1..j]) && SoCaracteresDeEndereco(s[j+1..])
  }

  /** `isValidEmail`, read as: no whitespace, exactly one '@', not at the start, and a
      '.' in the part after it that is neither its first nor its last character. */
  predicate IsValidEmail(s: string) {
    (forall k :: 0 <= k < |s| ==> !EhEspaco(s[k])) &&
    exists i :: 0 < i < |s| && s[i] == '@' &&
      (forall k :: 0 <= k < |s| && s[k] == '@' ==> k == i) &&
      exists j :: i + 1 < j < |s| - 1 && s[j] == '.'
  }

  /** The reading is exact: it accepts precisely the strings the regular expression matches. */
  lemma IsValidEmailCasaPadrao(s: string)
    ensures IsValidEmail(s) <==> CasaPadraoEmail(s)
  {
    if IsValidEmail(s) {
      var i :| 0 < i < |s| && s[i] == '@' &&
        (forall k :: 0 <= k < |s| && s[k] == '@' ==> k == i) &&
        exists j :: i + 1 < j < |s| - 1 && s[j] == '.';
      var j :| i + 1 < j < |s| - 1 && s[j] == '.';
      assert SoCaracteresDeEndereco(s[..i]) by {
        forall k | 0 <= k < i ensures CaractereDeEndereco(s[..i][k]) { assert s[..i][k] == s[k]; }
      }
      var meio, fim := s[i+1..j], s[j+1..];
      forall k | 0 <= k < |meio| ensures CaractereDeEndereco(meio[k]) { assert meio[k] == s[i+1+k]; }
      forall k | 0 <= k < |fim| ensures CaractereDeEndereco(fim[k]) { assert fim[k] == s[j+1+k]; }
    }
    if CasaPadraoEmail(s) {
      var i, j :| 0 < i && i + 1 < j && j + 1 < |s| && s[i] == '@' && s[j] == '.' &&
        SoCaracteresDeEndereco(s[..i]) && SoCaracteresDeEndereco(s[i+1..j]) && SoCaracteresDeEndereco(s[j+1..]);
      forall k | 0 <= k < |s| && k != i && k != j ensures CaractereDeEndereco(s[k]) {
        if k < i { assert s[k] == s[..i][k]; }
        else if k < j { assert s[k] == s[i+1..j][k - i - 1]; }
        else { assert s[k] == s[j+1..][k - j - 1]; }
      }
      assert forall k :: 0 <= k < |s| ==> !EhEspaco(s[k]);
      assert forall k :: 0 <= k < |s| && s[k] == '@' ==> k == i;
    }
  }

  /** The address held, exactly as given. */
  datatype Email = Email(enderecoEmail: string)

  /** `Email.create`: succeeds exactly for a valid address, which it keeps unchanged. */
  function CriarEmail(endereco: string): (r: Result<Email>)
    ensures r.Ok? <==> CasaPadraoEmail(endereco)
    ensures r.Ok? ==> r.value.enderecoEmail == endereco
    ensures r.Err? ==> r.error == "Email inválido: " + endereco
  {
    IsValidEmailCasaPadrao(endereco);
    if IsValidEmail(endereco) then Ok(Email(endereco)) else Err("Email inválido: " + endereco)
  }

  function ComponentesEmail(e: Email): Componentes {
    [("enderecoEmail", Texto(e.enderecoEmail))]
  }

  /** Equality is exact, case-sensitive comparison of the addresses. */
  function EmailEquals(a: Email, outro: Option<Email>): (r: bool)
    ensures r <==> outro.Some? && outro.value.enderecoEmail == a.enderecoEmail
  {
    Iguais(ComponentesEmail(a), if outro.Some? then Some(ComponentesEmail(outro.value)) else None)
  }

  // ---------------------------------------------------------------- Senha

  /** `isStrongPassword`: at least 8 UTF-16 code units, with an upper-case ASCII letter, a
      lower-case ASCII letter and a decimal digit (`/\d/` without the `u` flag). */
  predicate IsStrongPassword(senha: string) {
    ComprimentoUtf16(senha) >= 8 &&
    (exists k :: 0 <= k < |senha| && EhMaiuscula(senha[k])) &&
    (exists k :: 0 <= k < |senha| && EhMinuscula(senha[k])) &&
    (exists k :: 0 <= k < |senha| && EhDigito(senha[k]))
  }

  datatype Senha = Senha(valor: string)

  const MensagemSenhaFraca := "Senha deve ter pelo menos 8 caracteres, 1 maiúscula, 1 minúscula e 1 número"

  /** `Senha.criar`: succeeds exactly for a strong password, which it keeps unchanged. */
  function CriarSenha(valor: string): (r: Result<Senha>)
    ensures r.Ok? <==> IsStrongPassword(valor)
    ensures r.Ok? ==> r.value.valor == valor
    ensures r.Err? ==> r.error == MensagemSenhaFraca
  {
    if IsStrongPassword(valor) then Ok(Senha(valor)) else Err(MensagemSenhaFraca)
  }

  /** A password of fewer than 8 code units is never accepted, whatever it holds. */
  lemma SenhaCurtaRejeitada(valor: string)
    requires ComprimentoUtf16(valor) < 8
    ensures CriarSenha(valor).Err?
  {
  }

  /** Three characters above U+FFFF count as six code units, so a password of six
      characters can be long enough. */
  lemma SenhaDeSeisCaracteresAceita()
    ensures CriarSenha("Aa1\U{1F600}\U{1F600}\U{1F600}").Ok?
  {
    var s := "Aa1\U{1F600}\U{1F600}\U{1F600}";
    assert s == "Aa1" + "\U{1F600}\U{1F600}\U{1F600}";
    ComprimentoUtf16Concat("Aa1", "\U{1F600}\U{1F600}\U{1F600}");
    assert ComprimentoUtf16("\U{1F600}\U{1F600}\U{1F600}") == 6;
    assert EhMaiuscula(s[0]) && EhMinuscula(s[1]) && EhDigito(s[2]);
  }

  function ComponentesSenha(s: Senha): Componentes {
    [("valor", Texto(s.valor))]
  }

  function SenhaEquals(a: Senha, outro: Option<Senha>): (r: bool)
    ensures r <==> outro == Some(a)
  {
    Iguais(ComponentesSenha(a), if outro.Some? then Some(ComponentesSenha(outro.value)) else None)
  }
}
