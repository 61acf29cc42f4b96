/** The value-object base class: equality is structural over a record of equality
    components, compared through `JSON.stringify`. Components are records of strings
    and numbers, which that serialisation renders injectively, so comparing the
    serialised forms is comparing the records themselves. */
module ObjetoDeValor {
  import opened Base

  /** A value held in an equality-components record. */
  datatype Primitivo = Texto(s: string) | Numero(n: int)

  /** The record returned by `obterComponentesDeIgualdade`, as key/value pairs in
      declaration order. */
  type Componentes = seq<(string, Primitivo)>

  /** `equals(other)`: false for a missing argument, otherwise true exactly when both
      records of equality components are identical. */
  function Iguais(meus: Componentes, outros: Option<Componentes>): (r: bool)
    ensures outros.None? ==> !r
    ensures outros.Some? ==> (r <==> outros.value == meus)
  {
    match outros
    case None => false
    case Some(c) => c == meus
  }

  /** Value equality is reflexive ... */
  lemma IguaisReflexiva(a: Componentes)
    ensures Iguais(a, Some(a))
  {
  }

  /** ... symmetric ... */
  lemma IguaisSimetrica(a: Componentes, b: Componentes)
    ensures Iguais(a, Some(b)) == Iguais(b, Some(a))
  {
  }

  /** ... and transitive. */
  lemma IguaisTransitiva(a: Componentes, b: Componentes, c: Componentes)
    requires Iguais(a, Some(b)) && Iguais(b, Some(c))
    ensures Iguais(a, Some(c))
  {
  }
}
