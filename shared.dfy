/**
 * Arithmetic shared by the two prediction APIs: the clamp, written as
 * `max(lo, min(hi, x))` in the three-stage optimizer and as `np.clip(x, lo, hi)`
 * in the treatment API, and the coagulant (alum) dose formula that both APIs use.
 * All quantities are exact reals; the display rounding of the source is not modelled.
 */
module Shared {

  datatype Option<T> = None | Some(value: T)

  /** `max(lo, min(hi, x))`, which equals `np.clip(x, lo, hi)` whenever lo <= hi. */
  function Clamp(lo: real, hi: real, x: real): (r: real)
    requires lo <= hi
    ensures lo <= r <= hi
    ensures lo <= x <= hi ==> r == x
    ensures x < lo ==> r == lo
    ensures hi < x ==> r == hi
  {
    var m := if hi <= x then hi else x;
    if m < lo then lo else m
  }

  /** Python's `abs` on a real. */
  function Abs(x: real): (r: real)
    ensures 0.0 <= r
    ensures r == x || r == -x
  {
    if x < 0.0 then -x else x
  }

  /**
   * A removal efficiency `(inflow - outflow) / inflow * 100` stays below 100 % whenever
   * both concentrations are positive.
   */
  lemma RemovalBelowFull(inflow: real, outflow: real)
    requires 0.0 < inflow && 0.0 < outflow
    ensures (inflow - outflow) / inflow * 100.0 < 100.0
  {
    var q := (inflow - outflow) / inflow;
    assert q * inflow == inflow - outflow;
  }

  function Min3(a: real, b: real, c: real): real
  {
    if a <= b && a <= c then a else if b <= c then b else c
  }

  function Max3(a: real, b: real, c: real): real
  {
    if a >= b && a >= c then a else if b >= c then b else c
  }

  /**
   * Optimal coagulant dose: 30 plus corrections for influent turbidity (around 150 NTU),
   * suspended solids (around 180 mg/L) and pH (around 7.0), clamped to [20, 70].
   * The primary-stage optimizer (kg/h) and the chemical-dosing optimizer (mg/L) share it.
   */
  function CoagulantDose(turbidity: real, tss: real, ph: real): (c: real)
    ensures 20.0 <= c <= 70.0
    ensures turbidity == 150.0 && tss == 180.0 && ph == 7.0 ==> c == 30.0
  {
    Clamp(20.0, 70.0, 30.0 + (turbidity - 150.0) * 0.15 + (tss - 180.0) * 0.10 + (7.0 - ph) * 5.0)
  }

  /** Dirtier influent (higher turbidity or solids) or a more acidic pH never lowers the dose. */
  lemma CoagulantDoseMonotone(t1: real, tss1: real, ph1: real, t2: real, tss2: real, ph2: real)
    requires t1 <= t2 && tss1 <= tss2 && ph2 <= ph1
    ensures CoagulantDose(t1, tss1, ph1) <= CoagulantDose(t2, tss2, ph2)
  {
  }
}
