/**
 * Moisture correction and bag conversion. The rule appears three times in
 * the source (the production form, the plot statistics and the dashboard);
 * it is defined once here, with the dashboard's and plot page's
 * `moisture_percent || 14` default kept as a separate step.
 */
module Moisture {

  /** The commercial basis moisture, in percent. */
  const BaseMoisture: real := 14.0

  /** The weight of one bag (saca), in kilograms. */
  const BagKg: real := 60.0

  /**
   * `moisture_percent || MOISTURE_BASE`: an unset (zero) moisture reads as
   * the basis. The default never changes the correction: 0 % and 14 % both
   * have the factor 1.
   */
  function Defaulted(m: real): (r: real)
    ensures r != 0.0
    ensures m != 0.0 ==> r == m
    ensures m == 0.0 ==> r == BaseMoisture
    ensures Factor(r) == Factor(m)
  {
    if m == 0.0 then BaseMoisture else m
  }

  /**
   * The correction factor: `(100 - m) / (100 - 14)` above the basis, 1 at or
   * below it (drier loads get no bonus).
   */
  function Factor(m: real): (r: real)
    ensures m <= BaseMoisture ==> r == 1.0
    ensures m > BaseMoisture ==> r * (100.0 - BaseMoisture) == 100.0 - m
    ensures BaseMoisture < m < 100.0 ==> 0.0 < r < 1.0
    ensures m == 100.0 ==> r == 0.0
    ensures m > 100.0 ==> r < 0.0
  {
    if m > BaseMoisture then (100.0 - m) / (100.0 - BaseMoisture) else 1.0
  }

  /** `grossWeight * correctionFactor`. */
  function NetWeight(grossKg: real, m: real): (r: real)
    ensures m <= BaseMoisture ==> r == grossKg
    ensures BaseMoisture < m ==> r * (100.0 - BaseMoisture) == grossKg * (100.0 - m)
    ensures BaseMoisture < m < 100.0 && grossKg > 0.0 ==> 0.0 < r < grossKg
  {
    grossKg * Factor(m)
  }

  /** `netWeight / 60`: the sellable bags of a load. */
  function NetBags(grossKg: real, m: real): (r: real)
    ensures r * BagKg == NetWeight(grossKg, m)
  {
    NetWeight(grossKg, m) / BagKg
  }

  /**
   * The three copies agree: applying the `|| 14` default first (dashboard,
   * plot page) gives the same factor as not applying it (production form),
   * because 0 and 14 both lie at or below the basis.
   */
  lemma CopiesAgree(grossKg: real, m: real)
    ensures Factor(Defaulted(m)) == Factor(m)
    ensures NetBags(grossKg, Defaulted(m)) == NetBags(grossKg, m)
  {
  }

  /** Wetter loads are worth less: above the basis the factor strictly falls. */
  lemma FactorDecreasing(m1: real, m2: real)
    requires BaseMoisture <= m1 < m2
    ensures Factor(m2) < Factor(m1)
  {
  }
}
