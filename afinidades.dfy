/** The affinity page (src/pages/Afinidades.tsx): an affinity score is shown
    with a label and a text colour, each chosen by the thresholds 75 and 60. */
module Afinidades {

  /** `getAfinidadeColor`. */
  function CorAfinidade(afinidade: real): (cor: string)
    ensures afinidade >= 75.0 ==> cor == "text-green-600 dark:text-green-400"
    ensures 60.0 <= afinidade < 75.0 ==> cor == "text-blue-600 dark:text-blue-400"
    ensures afinidade < 60.0 ==> cor == "text-purple-600 dark:text-purple-400"
  {
    if afinidade >= 75.0 then "text-green-600 dark:text-green-400"
    else if afinidade >= 60.0 then "text-blue-600 dark:text-blue-400"
    else "text-purple-600 dark:text-purple-400"
  }

  /** `getAfinidadeLabel`. */
  function RotuloAfinidade(afinidade: real): (rotulo: string)
    ensures afinidade >= 75.0 ==> rotulo == "Alta afinidade"
    ensures 60.0 <= afinidade < 75.0 ==> rotulo == "Boa afinidade"
    ensures afinidade < 60.0 ==> rotulo == "Afinidade moderada"
  {
    if afinidade >= 75.0 then "Alta afinidade"
    else if afinidade >= 60.0 then "Boa afinidade"
    else "Afinidade moderada"
  }

  /** The three bands, ordered from low to high. */
  datatype Banda = Moderada | Boa | Alta

  function Nivel(b: Banda): nat {
    match b
    case Moderada => 0
    case Boa => 1
    case Alta => 2
  }

  /** The band of a score: the half-open intervals below 60, from 60 to 75,
      and from 75 up. */
  function BandaDe(afinidade: real): (b: Banda)
    ensures b == Alta <==> 75.0 <= afinidade
    ensures b == Boa <==> 60.0 <= afinidade < 75.0
    ensures b == Moderada <==> afinidade < 60.0
  {
    if afinidade < 60.0 then Moderada else if afinidade < 75.0 then Boa else Alta
  }

  function RotuloDe(b: Banda): string {
    match b
    case Alta => "Alta afinidade"
    case Boa => "Boa afinidade"
    case Moderada => "Afinidade moderada"
  }

  function CorDe(b: Banda): string {
    match b
    case Alta => "text-green-600 dark:text-green-400"
    case Boa => "text-blue-600 dark:text-blue-400"
    case Moderada => "text-purple-600 dark:text-purple-400"
  }

  /** Both functions pick the band of the score, and different bands get
      different labels and colours, so two scores share a label exactly when
      they share a colour. */
  lemma MesmaBanda(a: real, b: real)
    ensures RotuloAfinidade(a) == RotuloDe(BandaDe(a)) && CorAfinidade(a) == CorDe(BandaDe(a))
    ensures RotuloAfinidade(a) == RotuloAfinidade(b) <==> BandaDe(a) == BandaDe(b)
    ensures CorAfinidade(a) == CorAfinidade(b) <==> BandaDe(a) == BandaDe(b)
  {
  }

  /** A higher score never gets a lower band. */
  lemma BandasMonotonas(a: real, b: real)
    requires a <= b
    ensures Nivel(BandaDe(a)) <= Nivel(BandaDe(b))
  {
  }
}
