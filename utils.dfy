/**
 * The thermostat (HKR) temperature codec. The gateway encodes a set-point in
 * half degrees Celsius, 16 (8 °C) to 56 (28 °C), and reserves 253 for "off"
 * and 254 for "on".
 */
module Utils {
  import opened Wrappers

  /** What decoding yields: `False` (off), `True` (on) or a temperature. */
  datatype HkrTemperature = ThermostatOff | ThermostatOn | Celsius(degrees: real)

  const HkrMin: int := 16
  const HkrMax: int := 56
  const HkrOff: int := 253
  const HkrOn: int := 254

  /** The codes the decoder's assertion lets through. */
  predicate IsHkrCode(val: int) {
    HkrMin <= val <= HkrMax || val == HkrOff || val == HkrOn
  }

  /**
   * `c_from_hkr_temperature`; `None` stands for the failing assertion.
   * Every temperature it yields is a multiple of one half between 8 and 28.
   */
  function FromHkrTemperature(val: int): (r: Option<HkrTemperature>)
    ensures r.None? <==> !IsHkrCode(val)
    ensures r == Some(ThermostatOff) <==> val == HkrOff
    ensures r == Some(ThermostatOn) <==> val == HkrOn
    ensures r.Some? && r.value.Celsius? ==>
              HkrMin <= val <= HkrMax && 2.0 * r.value.degrees == val as real
              && 8.0 <= r.value.degrees <= 28.0
  {
    if !IsHkrCode(val) then None
    else if val == HkrOff then Some(ThermostatOff)
    else if val == HkrOn then Some(ThermostatOn)
    else Some(Celsius(val as real / 2.0))
  }

  /** Python 2's `round`: to the nearest integer, halves away from zero. */
  function RoundHalfAwayFromZero(x: real): (n: int)
    ensures x >= 0.0 ==> n as real - 0.5 <= x < n as real + 0.5
    ensures x < 0.0 ==> n as real - 0.5 < x <= n as real + 0.5
  {
    if x >= 0.0 then (x + 0.5).Floor else -((0.5 - x).Floor)
  }

  /**
   * `c_to_hkr_temperature`; `None` stands for the failing assertion. The code
   * is the number of half degrees, rounded; it is never a sentinel, and a
   * temperature outside the range is refused rather than clamped.
   */
  function ToHkrTemperature(val: real): (r: Option<int>)
    ensures r.Some? <==> 7.75 <= val < 28.25
    ensures r.Some? ==> HkrMin <= r.value <= HkrMax
    ensures r.Some? ==> r.value as real - 0.5 <= 2.0 * val < r.value as real + 0.5
  {
    var code := RoundHalfAwayFromZero(val * 2.0);
    if HkrMin <= code <= HkrMax then Some(code) else None
  }

  /** Encoding a decoded set-point gives the code back. */
  lemma {:induction false} HkrRoundTrip(v: int)
    requires HkrMin <= v <= HkrMax
    ensures FromHkrTemperature(v).Some? && FromHkrTemperature(v).value.Celsius?
    ensures ToHkrTemperature(FromHkrTemperature(v).value.degrees) == Some(v)
  {
    var d := FromHkrTemperature(v).value.degrees;
    assert 2.0 * d == v as real;
    assert RoundHalfAwayFromZero(d * 2.0) == v;
  }

  /** Decoding an encoded temperature is off by at most a quarter degree. */
  lemma {:induction false} HkrEncodeDecode(t: real, code: int)
    requires ToHkrTemperature(t) == Some(code)
    ensures FromHkrTemperature(code).Some? && FromHkrTemperature(code).value.Celsius?
    ensures -0.25 < FromHkrTemperature(code).value.degrees - t <= 0.25
  {
    var d := FromHkrTemperature(code).value.degrees;
    assert 2.0 * d == code as real;
  }
}
