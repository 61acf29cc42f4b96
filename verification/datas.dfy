/** The birth-date value object. Dates are calendar instants in the server's time
    zone, split the way `getFullYear`, `getMonth` and `getDate` see them; comparing
    two `Date`s is comparing these fields lexicographically. "Today" is a parameter. */
module Datas {
  import opened Base
  import opened ObjetoDeValor

  /** Year, month (0 to 11, as `getMonth`), day of the month and milliseconds into the day. */
  datatype Data = Data(ano: int, mes: int, dia: int, msNoDia: int)

  /** `a > b` on `Date` values. */
  predicate Posterior(a: Data, b: Data) {
    a.ano > b.ano ||
    (a.ano == b.ano && (a.mes > b.mes ||
    (a.mes == b.mes && (a.dia > b.dia ||
    (a.dia == b.dia && a.msNoDia > b.msNoDia)))))
  }

  /** The date held; the getter and the constructor copy it, which a value gives for free. */
  datatype DataNascimento = DataNascimento(data: Data)

  const MensagemDataFutura := "Data de nascimento não pode ser futura"

  /** The age check of `create`: the plain difference of calendar years. */
  function DiferencaDeAnos(data: Data, hoje: Data): int {
    hoje.ano - data.ano
  }

  /** `DataNascimento.create(data, idadeMinima = 0, idadeMaxima = 18)`: a future date is
      rejected first; then the year difference must lie in [idadeMinima, idadeMaxima]. */
  function CriarDataNascimento(data: Data, hoje: Data, idadeMinima: int := 0, idadeMaxima: int := 18): (r: Result<DataNascimento>)
    ensures Posterior(data, hoje) ==> r == Err(MensagemDataFutura)
    ensures !Posterior(data, hoje) ==>
      (r.Ok? <==> idadeMinima <= hoje.ano - data.ano <= idadeMaxima)
    ensures !Posterior(data, hoje) && hoje.ano - data.ano < idadeMinima ==>
      r == Err("Idade mínima é " + TextoDeInteiro(idadeMinima) + " anos")
    ensures !Posterior(data, hoje) && idadeMinima <= hoje.ano - data.ano && hoje.ano - data.ano > idadeMaxima ==>
      r == Err("Idade máxima é " + TextoDeInteiro(idadeMaxima) + " anos")
    ensures r.Ok? ==> r.value.data == data
  {
    if Posterior(data, hoje) then Err(MensagemDataFutura)
    else
      var idade := DiferencaDeAnos(data, hoje);
      if idade < idadeMinima then Err("Idade mínima é " + TextoDeInteiro(idadeMinima) + " anos")
      else if idade > idadeMaxima then Err("Idade máxima é " + TextoDeInteiro(idadeMaxima) + " anos")
      else Ok(DataNascimento(data))
  }

  /** This year's birthday (month, then day) is still ahead of `hoje`. */
  predicate AniversarioPendente(data: Data, hoje: Data) {
    hoje.mes < data.mes || (hoje.mes == data.mes && hoje.dia < data.dia)
  }

  /** `calcularIdade()`: the year difference, one less while this year's birthday has
      not been reached. */
  function CalcularIdade(d: DataNascimento, hoje: Data): (r: int)
    ensures r == hoje.ano - d.data.ano || r == hoje.ano - d.data.ano - 1
    ensures r == hoje.ano - d.data.ano - 1 <==> AniversarioPendente(d.data, hoje)
  {
    var idade := hoje.ano - d.data.ano;
    if AniversarioPendente(d.data, hoje) then idade - 1 else idade
  }

  /** With the default bounds, every accepted birth date gives an age between 0 and 18:
      a date in the current year is not in the future, so its birthday has passed. */
  lemma DataAceitaTemIdadeValida(data: Data, hoje: Data)
    requires CriarDataNascimento(data, hoje).Ok?
    ensures 0 <= CalcularIdade(DataNascimento(data), hoje) <= 18
  {
    if hoje.ano == data.ano {
      assert !Posterior(data, hoje);
      assert !AniversarioPendente(data, hoje);
    }
  }

  /** The converse fails: the year difference, not the age, is bounded, so a child who is
      18 but has not yet had this year's birthday is rejected. */
  lemma DezoitoAnosAntesDoAniversarioRejeitado()
    ensures CalcularIdade(DataNascimento(Data(2006, 11, 31, 0)), Data(2025, 0, 1, 0)) == 18
    ensures CriarDataNascimento(Data(2006, 11, 31, 0), Data(2025, 0, 1, 0)).Err?
  {
  }

  function ComponentesDataNascimento(d: DataNascimento): Componentes {
    [("data", Numero(d.data.ano)), ("mes", Numero(d.data.mes)), ("dia", Numero(d.data.dia)), ("ms", Numero(d.data.msNoDia))]
  }

  /** Equality by the stored instant (`getTime()`). */
  function DataNascimentoEquals(a: DataNascimento, outro: Option<DataNascimento>): (r: bool)
    ensures r <==> outro == Some(a)
  {
    Iguais(ComponentesDataNascimento(a), if outro.Some? then Some(ComponentesDataNascimento(outro.value)) else None)
  }
}
