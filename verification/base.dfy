/** Helpers shared by every layer: optional values, results that stand for thrown
    errors, and the few JavaScript string operations the domain relies on. */
module Base {

  /** `T | undefined` */
  datatype Option<T> = None | Some(value: T)

  /** The outcome of an operation that returns a value or throws `new Error(message)`. */
  datatype Result<T> = Ok(value: T) | Err(error: string)

  /** The outcome of an operation that returns nothing or throws `new Error(message)`. */
  datatype Outcome = Pass | Fail(error: string)

  /** JavaScript's `WhiteSpace` and `LineTerminator` code points: what `trim()` strips
      and what the regular-expression class `\s` matches. */
  predicate EhEspaco(c: char) {
    var n := c as int;
    n == 0x09 || n == 0x0A || n == 0x0B || n == 0x0C || n == 0x0D || n == 0x20 ||
    n == 0xA0 || n == 0x1680 || (0x2000 <= n <= 0x200A) || n == 0x2028 || n == 0x2029 ||
    n == 0x202F || n == 0x205F || n == 0x3000 || n == 0xFEFF
  }

  /** `!s || s.trim().length === 0`: the empty string or whitespace only. */
  predicate EmBranco(s: string) {
    forall i :: 0 <= i < |s| ==> EhEspaco(s[i])
  }

  /** A string is truthy in JavaScript exactly when it is not empty. */
  predicate Preenchido(s: Option<string>) {
    s.Some? && s.value != ""
  }

  predicate EhMinuscula(c: char) { 'a' <= c <= 'z' }
  predicate EhMaiuscula(c: char) { 'A' <= c <= 'Z' }
  predicate EhDigito(c: char) { '0' <= c <= '9' }

  /** The UTF-16 code units one character takes: two (a surrogate pair) above U+FFFF. */
  function UnidadesUtf16(c: char): nat {
    if c as int > 0xFFFF then 2 else 1
  }

  /** `s.length`, which counts UTF-16 code units, not characters. */
  function ComprimentoUtf16(s: string): (r: nat)
    ensures |s| <= r <= 2 * |s|
    ensures r == 0 <==> s == ""
  {
    if s == "" then 0 else UnidadesUtf16(s[0]) + ComprimentoUtf16(s[1..])
  }

  /** A string with no character above U+FFFF has as many code units as characters. */
  lemma {:induction false} ComprimentoUtf16Basico(s: string)
    requires forall i :: 0 <= i < |s| ==> s[i] as int <= 0xFFFF
    ensures ComprimentoUtf16(s) == |s|
  {
    if s != "" {
      ComprimentoUtf16Basico(s[1..]);
    }
  }

  /** The code units of a concatenation add up. */
  lemma {:induction false} ComprimentoUtf16Concat(s: string, t: string)
    ensures ComprimentoUtf16(s + t) == ComprimentoUtf16(s) + ComprimentoUtf16(t)
  {
    if s == "" {
      assert s + t == t;
    } else {
      assert (s + t)[0] == s[0] && (s + t)[1..] == s[1..] + t;
      ComprimentoUtf16Concat(s[1..], t);
    }
  }

  /** `r` is `s` with some elements left out: what remains keeps its order and its
      repetitions. */
  predicate SubsequenciaDe<T(==)>(r: seq<T>, s: seq<T>)
    decreases |s|
  {
    r == [] ||
    (s != [] && ((r[0] == s[0] && SubsequenciaDe(r[1..], s[1..])) || SubsequenciaDe(r, s[1..])))
  }

  /** `toUpperCase` on one character, restricted to ASCII letters. */
  function MaiusculaAscii(c: char): (r: char)
    ensures EhMinuscula(c) ==> EhMaiuscula(r) && r as int == c as int - 32
    ensures !EhMinuscula(c) ==> r == c
  {
    if EhMinuscula(c) then (c as int - 32) as char else c
  }

  /** `s.toUpperCase()` with ASCII case mapping. */
  function Maiusculas(s: string): (r: string)
    ensures |r| == |s|
    ensures forall i :: 0 <= i < |s| ==> r[i] == MaiusculaAscii(s[i])
  {
    seq(|s|, i requires 0 <= i < |s| => MaiusculaAscii(s[i]))
  }

  /** Upper-casing a string with no lower-case letter leaves it unchanged, so the
      enum names, which are upper case, are fixed points of `toUpperCase`. */
  lemma MaiusculasSemMinusculas(s: string)
    requires forall i :: 0 <= i < |s| ==> !EhMinuscula(s[i])
    ensures Maiusculas(s) == s
  {
  }

  /** Upper-casing twice is upper-casing once. */
  lemma MaiusculasIdempotente(s: string)
    ensures Maiusculas(Maiusculas(s)) == Maiusculas(s)
  {
    MaiusculasSemMinusculas(Maiusculas(s));
  }

  /** Decimal rendering of a number, as in a template literal `${n}`. */
  function TextoDeInteiro(n: int): (r: string)
    ensures |r| > 0
    decreases if n < 0 then -n + 1 else n
  {
    if n < 0 then "-" + TextoDeInteiro(-n)
    else if n < 10 then [(('0' as int) + n) as char]
    else TextoDeInteiro(n / 10) + [(('0' as int) + n % 10) as char]
  }

  /** `s.split(sep)` for a one-character separator: the pieces between separators,
      empty pieces included, so there is always at least one piece. */
  function Dividir(s: string, sep: char): (r: seq<string>)
    ensures |r| >= 1
  {
    if s == [] then [""]
    else
      var resto := Dividir(s[1..], sep);
      if s[0] == sep then [""] + resto
      else [[s[0]] + resto[0]] + resto[1..]
  }

  /** `parts.join(sep)` */
  function Juntar(partes: seq<string>, sep: char): string
    requires |partes| >= 1
  {
    if |partes| == 1 then partes[0] else partes[0] + [sep] + Juntar(partes[1..], sep)
  }

  /** Splitting loses nothing: joining the pieces gives the string back, and no
      piece holds the separator. */
  lemma {:induction false} JuntarDividir(s: string, sep: char)
    ensures Juntar(Dividir(s, sep), sep) == s
    ensures forall k :: 0 <= k < |Dividir(s, sep)| ==> sep !in Dividir(s, sep)[k]
  {
    if s != [] {
      var resto := Dividir(s[1..], sep);
      JuntarDividir(s[1..], sep);
      if s[0] == sep {
        assert Dividir(s, sep) == [""] + resto;
        assert s == [s[0]] + s[1..];
      } else {
        var r := Dividir(s, sep);
        assert r == [[s[0]] + resto[0]] + resto[1..];
        if |resto| == 1 {
          assert Juntar(r, sep) == [s[0]] + resto[0];
        } else {
          assert r[1..] == resto[1..];
          assert Juntar(r, sep) == [s[0]] + resto[0] + [sep] + Juntar(resto[1..], sep);
          assert Juntar(resto, sep) == resto[0] + [sep] + Juntar(resto[1..], sep);
        }
        assert s == [s[0]] + s[1..];
        forall k | 0 <= k < |r| ensures sep !in r[k] {
          if k > 0 { assert r[k] == resto[k]; }
        }
      }
    }
  }

  /** Joining pieces that hold no separator and splitting again gives the pieces back. */
  lemma {:induction false} DividirJuntar(partes: seq<string>, sep: char)
    requires |partes| >= 1
    requires forall k :: 0 <= k < |partes| ==> sep !in partes[k]
    ensures Dividir(Juntar(partes, sep), sep) == partes
  {
    if |partes| == 1 {
      DividirSemSeparador(partes[0], sep);
    } else {
      DividirJuntar(partes[1..], sep);
      DividirPrefixo(partes[0], Juntar(partes[1..], sep), sep);
      assert partes == [partes[0]] + partes[1..];
    }
  }

  /** A string without the separator is a single piece. */
  lemma {:induction false} DividirSemSeparador(s: string, sep: char)
    requires sep !in s
    ensures Dividir(s, sep) == [s]
  {
    if s != [] {
      DividirSemSeparador(s[1..], sep);
      assert s == [s[0]] + s[1..];
    }
  }

  /** Splitting `p + sep + t`, with no separator in `p`, starts with the piece `p`. */
  lemma {:induction false} DividirPrefixo(p: string, t: string, sep: char)
    requires sep !in p
    ensures Dividir(p + [sep] + t, sep) == [p] + Dividir(t, sep)
  {
    if p == [] {
      assert p + [sep] + t == [sep] + t;
      assert ([sep] + t)[1..] == t;
    } else {
      var s := p + [sep] + t;
      assert s[1..] == p[1..] + [sep] + t;
      DividirPrefixo(p[1..], t, sep);
      assert s[0] == p[0];
      assert [p[0]] + p[1..] == p;
    }
  }
}
