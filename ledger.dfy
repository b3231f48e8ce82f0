/**
 * The arithmetic of the APUNAB balance and of bet payouts: the never-negative
 * balance update, the shortfall to the 100000 APUNAB goal, the payout of a
 * stake, and the balance effects of one update of a bet's stake followed by
 * its compensating balance write.
 */
module Ledger {
  import opened Common

  /** The APUNAB balance a user is expected to reach. */
  const APUNAB_REQUERIDAS: real := 100000.0

  /** actualizarSaldo admits a change exactly when the balance stays non-negative. */
  predicate Admite(saldo: real, cantidad: real)
  {
    saldo + cantidad >= 0.0
  }

  /** The balance after actualizarSaldo(cantidad): changed when admitted, untouched otherwise. */
  function NuevoSaldo(saldo: real, cantidad: real): (s: real)
    ensures s == saldo + cantidad || s == saldo
    ensures s < 0.0 ==> s == saldo
    ensures saldo >= 0.0 ==> s >= 0.0
    ensures Admite(saldo, cantidad) ==> s == saldo + cantidad
  {
    if Admite(saldo, cantidad) then saldo + cantidad else saldo
  }

  /** A debit admitted and then credited back restores the balance. */
  lemma DebitoYReintegro(saldo: real, cantidad: real)
    requires 0.0 <= cantidad <= saldo
    ensures NuevoSaldo(NuevoSaldo(saldo, -cantidad), cantidad) == saldo
  {
  }

  /** A credit on a non-negative balance followed by the matching debit restores the balance. */
  lemma ReintegroYDebito(saldo: real, cantidad: real)
    requires saldo >= 0.0 && cantidad >= 0.0
    ensures NuevoSaldo(NuevoSaldo(saldo, cantidad), -cantidad) == saldo
  {
  }

  /** calcularAPUNABFaltantes: what is still missing to reach the goal, never negative. */
  function Faltantes(saldo: real): (f: real)
    ensures f >= 0.0
    ensures saldo + f >= APUNAB_REQUERIDAS
    ensures f == 0.0 <==> saldo >= APUNAB_REQUERIDAS
    ensures f > 0.0 ==> saldo + f == APUNAB_REQUERIDAS
  {
    if saldo >= APUNAB_REQUERIDAS then 0.0 else APUNAB_REQUERIDAS - saldo
  }

  /** Apuesta.calcularGananciaPotencial: the stake times the game's multiplier, or the stake without a game. */
  function GananciaPotencial(cantidad: real, factor: Option<real>): (g: real)
    ensures factor.None? ==> g == cantidad
    ensures factor.Some? && factor.value >= 1.0 && cantidad >= 0.0 ==> g >= cantidad
    ensures factor.Some? && factor.value == 1.0 ==> g == cantidad
  {
    match factor
    case None => cantidad
    case Some(f) => cantidad * f
  }

  /** The payout grows with the stake when the multiplier is at least 1. */
  lemma GananciaMonotona(a: real, b: real, f: real)
    requires 0.0 <= a <= b && f >= 1.0
    ensures GananciaPotencial(a, Some(f)) <= GananciaPotencial(b, Some(f))
    ensures GananciaPotencial(b, Some(f)) - GananciaPotencial(a, Some(f)) >= b - a
  {
    assert (b - a) * f >= b - a;
  }

  /*
   * One call of actualizarApuesta with old stake a, requested stake n and
   * balance s: an increase is applied when the balance covers the difference,
   * a decrease when 0 < n < a.
   */

  predicate SubeCantidad(a: real, n: real, s: real) { n > a && s >= n - a }

  predicate BajaCantidad(a: real, n: real) { n < a && n > 0.0 }

  /** The stake after the update step. */
  function Aplicada(a: real, n: real, s: real): (r: real)
    ensures r == n || r == a
    ensures r != a ==> SubeCantidad(a, n, s) || BajaCantidad(a, n)
    ensures a > 0.0 ==> r > 0.0
  {
    if SubeCantidad(a, n, s) || BajaCantidad(a, n) then n else a
  }

  /** The balance after the update step: the stake difference moves from the balance to the bet. */
  function SaldoTrasCambio(a: real, n: real, s: real): (r: real)
    ensures s >= 0.0 ==> r + Aplicada(a, n, s) == s + a
  {
    if SubeCantidad(a, n, s) then NuevoSaldo(s, -(n - a))
    else if BajaCantidad(a, n) then NuevoSaldo(s, a - n)
    else s
  }

  /**
   * The balance after the compensation that runs when the store refuses the
   * update, as the source writes it: the compensation is
   * `cantidadAnterior - cantidadAPUNAB`, old stake minus applied stake.
   */
  function SaldoTrasReversion(a: real, n: real, s: real): real
  {
    NuevoSaldo(SaldoTrasCambio(a, n, s), a - Aplicada(a, n, s))
  }

  /** The compensation with the intended sign: applied stake minus old stake. */
  function SaldoTrasReversionCorregida(a: real, n: real, s: real): real
  {
    NuevoSaldo(SaldoTrasCambio(a, n, s), Aplicada(a, n, s) - a)
  }

  /** The corrected compensation always gives back the balance the user had before the call. */
  lemma ReversionCorregidaRestaura(a: real, n: real, s: real)
    requires s >= 0.0
    ensures SaldoTrasReversionCorregida(a, n, s) == s
  {
  }

  /**
   * As written, a refused decrease of the stake from 40 to 20 on a balance of
   * 100 leaves 140: the refund of 20 is paid twice instead of taken back.
   */
  lemma ReversionDuplicaReintegro()
    ensures SaldoTrasCambio(40.0, 20.0, 100.0) == 120.0
    ensures SaldoTrasReversion(40.0, 20.0, 100.0) == 140.0
    ensures SaldoTrasReversionCorregida(40.0, 20.0, 100.0) == 100.0
  {
    assert Aplicada(40.0, 20.0, 100.0) == 20.0;
  }

  /**
   * As written, whenever the stake changed the compensation moves the balance
   * further away from where it started: after a decrease it gains twice the
   * difference, after an increase it loses twice the difference when that is
   * affordable and otherwise stays at the once-debited balance.
   */
  lemma ReversionNoRestaura(a: real, n: real, s: real)
    requires s >= 0.0
    requires Aplicada(a, n, s) != a
    ensures SaldoTrasReversion(a, n, s) != s
    ensures BajaCantidad(a, n) ==> SaldoTrasReversion(a, n, s) == s + 2.0 * (a - n)
    ensures SubeCantidad(a, n, s) && s >= 2.0 * (n - a) ==> SaldoTrasReversion(a, n, s) == s - 2.0 * (n - a)
    ensures SubeCantidad(a, n, s) && s < 2.0 * (n - a) ==> SaldoTrasReversion(a, n, s) == s - (n - a)
  {
  }

  /**
   * When the compensation of a changed stake runs twice, the balance does not
   * come back either: it moves once more in the same direction, or stays
   * where the refused second move left it.
   */
  lemma ReversionDobleNoRestaura(a: real, n: real, s: real)
    requires s >= 0.0
    requires Aplicada(a, n, s) != a
    ensures NuevoSaldo(SaldoTrasReversion(a, n, s), a - Aplicada(a, n, s)) != s
  {
  }
}
