/**
 * Rating arithmetic shared by both venue classes: the clamp of a score into
 * 1..5 and the venue average as the arithmetic mean of the scores.
 */
module Ratings {
  import Lists

  const PUNTUACION_MIN: int := 1
  const PUNTUACION_MAX: int := 5

  predicate EnRango(p: int) { PUNTUACION_MIN <= p <= PUNTUACION_MAX }

  /** Calificacion.setPuntuacion: below 1 becomes 1, above 5 becomes 5, anything else is kept. */
  function Acotar(p: int): (r: int)
    ensures EnRango(r)
    ensures EnRango(p) ==> r == p
    ensures p < PUNTUACION_MIN ==> r == PUNTUACION_MIN
    ensures p > PUNTUACION_MAX ==> r == PUNTUACION_MAX
  {
    if p < PUNTUACION_MIN then PUNTUACION_MIN
    else if p > PUNTUACION_MAX then PUNTUACION_MAX
    else p
  }

  /** Clamping twice is clamping once. */
  lemma AcotarIdempotente(p: int)
    ensures Acotar(Acotar(p)) == Acotar(p)
  {
  }

  function AReal(p: int): real { p as real }

  /** The sum of the scores, accumulated as a double in the source. */
  function Suma(ps: seq<int>): real
  {
    Lists.Sum(ps, AReal)
  }

  /** actualizarCalificacionPromedio: 0 without ratings, otherwise the sum divided by the count. */
  function Promedio(ps: seq<int>): (r: real)
    ensures ps == [] ==> r == 0.0
    ensures ps != [] ==> r * |ps| as real == Suma(ps)
  {
    if ps == [] then 0.0 else Suma(ps) / |ps| as real
  }

  /** Appending one score to a list of scores adds it to the sum. */
  lemma {:induction false} SumaAgregar(ps: seq<int>, p: int)
    ensures Suma(ps + [p]) == Suma(ps) + p as real
  {
    if ps == [] {
      assert ps + [p] == [p];
    } else {
      assert (ps + [p])[1..] == ps[1..] + [p];
      SumaAgregar(ps[1..], p);
    }
  }

  /** The average of scores in 1..5 lies in 1..5 as well. */
  lemma PromedioEnRango(ps: seq<int>)
    requires ps != []
    requires forall i :: 0 <= i < |ps| ==> EnRango(ps[i])
    ensures PUNTUACION_MIN as real <= Promedio(ps) <= PUNTUACION_MAX as real
  {
    Lists.MediaEntreCotas(ps, AReal, 1.0, 5.0);
  }
}
