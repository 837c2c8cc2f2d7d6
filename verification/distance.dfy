/** The signal-strength-to-distance estimate of the proximity service.

    The source evaluates two floating-point power curves. Their values are not
    modelled: `pow` stands for `Math.pow` and is a parameter. Every fact
    proved here holds whatever the power function returns, except
    `UnknownExactlyForZeroReading`, which assumes it is non-negative at the
    arguments `CalculateDistance` passes. What is modelled exactly is the
    branch structure and the constants around the curves. */
module Distance {

  /** Calibrated signal strength at one metre, in dBm. */
  const TxPower: int := -69

  /** The distance reported when there is no reading. */
  const Unknown: real := -1.0

  /** `Math.pow(base, exponent)`, left uninterpreted. */
  type Pow = (real, real) -> real

  function Ratio(rssi: int): real
  {
    rssi as real / TxPower as real
  }

  /** `calculateDistance`: the sentinel for a zero reading, otherwise the
      near-field curve `ratio^10` or the far-field curve
      `0.89976 * ratio^7.7095 + 0.111`. The branch test `ratio < 1.0` is
      stated on the integer reading: a negative reading is near exactly when
      it is stronger than the calibration power, and every positive reading
      (a negative ratio) is near. */
  function CalculateDistance(rssi: int, pow: Pow): (d: real)
    ensures rssi == 0 ==> d == Unknown
    ensures rssi > 0 ==> d == pow(Ratio(rssi), 10.0)
    ensures TxPower < rssi < 0 ==> d == pow(Ratio(rssi), 10.0)
    ensures rssi <= TxPower ==> d == 0.89976 * pow(Ratio(rssi), 7.7095) + 0.111
  {
    if rssi == 0 then Unknown
    else
      var ratio := Ratio(rssi);
      if ratio < 1.0 then pow(ratio, 10.0)
      else 0.89976 * pow(ratio, 7.7095) + 0.111
  }

  /** When the power function is non-negative at the arguments the source
      gives it, as `Math.pow` is (an even exponent in the near branch, a base
      of at least 1 in the far branch), the estimate is the sentinel
      exactly for the zero reading. Every other estimate is non-negative,
      and a far-field estimate is at least 0.111. */
  lemma UnknownExactlyForZeroReading(rssi: int, pow: Pow)
    requires forall x: real :: pow(x, 10.0) >= 0.0
    requires forall x: real :: x >= 1.0 ==> pow(x, 7.7095) >= 0.0
    ensures CalculateDistance(rssi, pow) == Unknown <==> rssi == 0
    ensures rssi != 0 ==> CalculateDistance(rssi, pow) >= 0.0
    ensures rssi <= TxPower ==> CalculateDistance(rssi, pow) >= 0.111
  {
  }
}
