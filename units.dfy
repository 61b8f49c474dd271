/**
 * The unit conversions of the height and weight screens.  The screens compute
 * `Math.round(x * 2.54)`, `Math.round(x / 2.54)`, `Math.round(x / 2.205)` and
 * `Math.round(x * 2.205)`; over exact rationals `Math.round(q)` is
 * `floor(q + 1/2)`, which is written here as integer division by a positive
 * constant (Dafny's `/` floors when the divisor is positive).
 */
module Units {

  /** Inches to centimetres: the integer nearest to h * 2.54, halves rounded up. */
  function CmFromInches(h: int): (cm: int)
    ensures 100 * cm - 50 <= 254 * h < 100 * cm + 50
  {
    (254 * h + 50) / 100
  }

  /** Centimetres to inches: the integer nearest to c / 2.54, halves rounded up. */
  function InchesFromCm(c: int): (inches: int)
    ensures 254 * inches - 127 <= 100 * c < 254 * inches + 127
  {
    (100 * c + 127) / 254
  }

  /** Pounds to kilograms: the integer nearest to w / 2.205, halves rounded up. */
  function KgFromLbs(w: int): (kg: int)
    ensures 4410 * kg - 2205 <= 2000 * w < 4410 * kg + 2205
  {
    (2000 * w + 2205) / 4410
  }

  /** Kilograms to pounds: the integer nearest to k * 2.205, halves rounded up. */
  function LbsFromKg(k: int): (lbs: int)
    ensures 1000 * lbs - 500 <= 2205 * k < 1000 * lbs + 500
  {
    (2205 * k + 500) / 1000
  }

  /** Going inches -> cm -> inches gives back the same whole number of inches. */
  lemma InchesRoundTrip(h: int)
    ensures InchesFromCm(CmFromInches(h)) == h
  {
    var c := CmFromInches(h);
    var i := InchesFromCm(c);
    assert 200 * c - 100 <= 508 * h < 200 * c + 100;
    assert 508 * i - 254 <= 200 * c < 508 * i + 254;
  }

  /** Going cm -> inches -> cm drifts by at most one centimetre. */
  lemma CmRoundTripDrift(c: int)
    ensures -1 <= CmFromInches(InchesFromCm(c)) - c <= 1
  {
    var i := InchesFromCm(c);
    var c' := CmFromInches(i);
    assert 100 * c' - 50 <= 254 * i < 100 * c' + 50;
    assert 254 * i - 127 <= 100 * c < 254 * i + 127;
  }

  /** Going kg -> lbs -> kg gives back the same whole number of kilograms. */
  lemma KgRoundTrip(k: int)
    ensures KgFromLbs(LbsFromKg(k)) == k
  {
    var l := LbsFromKg(k);
    var k' := KgFromLbs(l);
    assert 2000 * l - 1000 <= 4410 * k < 2000 * l + 1000;
    assert 4410 * k' - 2205 <= 2000 * l < 4410 * k' + 2205;
  }

  /** Going lbs -> kg -> lbs drifts by at most one pound. */
  lemma LbsRoundTripDrift(w: int)
    ensures -1 <= LbsFromKg(KgFromLbs(w)) - w <= 1
  {
    var k := KgFromLbs(w);
    var w' := LbsFromKg(k);
    assert 1000 * w' - 500 <= 2205 * k < 1000 * w' + 500;
    assert 4410 * k - 2205 <= 2000 * w < 4410 * k + 2205;
  }

  datatype HeightUnit = Ft | Cm
  datatype WeightUnit = Kg | Lbs

  /** The height slider's range: 120..210 in centimetres, 48..84 in inches. */
  function HeightSliderMin(unit: HeightUnit): int { if unit == Cm then 120 else 48 }
  function HeightSliderMax(unit: HeightUnit): int { if unit == Cm then 210 else 84 }

  /** The weight sliders' range: 70..300 in pounds, 30..140 in kilograms. */
  function WeightSliderMin(unit: WeightUnit): int { if unit == Lbs then 70 else 30 }
  function WeightSliderMax(unit: WeightUnit): int { if unit == Lbs then 300 else 140 }

  /**
   * The number a weight screen shows after leaving unit `from`: divided by
   * 2.205 when leaving pounds, multiplied by 2.205 when leaving kilograms.
   */
  function ConvertFrom(from: WeightUnit, w: int): (r: int)
    ensures from == Lbs ==> 4410 * r - 2205 <= 2000 * w < 4410 * r + 2205
    ensures from == Kg ==> 1000 * r - 500 <= 2205 * w < 1000 * r + 500
  {
    if from == Lbs then KgFromLbs(w) else LbsFromKg(w)
  }

  /** Switching there and back gives the same kilograms, and pounds within one. */
  lemma ConvertThereAndBack(from: WeightUnit, w: int)
    ensures from == Kg ==> ConvertFrom(Lbs, ConvertFrom(Kg, w)) == w
    ensures from == Lbs ==> -1 <= ConvertFrom(Kg, ConvertFrom(Lbs, w)) - w <= 1
  {
    if from == Kg {
      KgRoundTrip(w);
    } else {
      LbsRoundTripDrift(w);
    }
  }

  /** JavaScript's `%`: the remainder takes the sign of the dividend. */
  function JsRem(a: int, b: int): (r: int)
    requires b > 0
    ensures a >= 0 ==> 0 <= r < b && (a / b) * b + r == a
    ensures a < 0 ==> -b < r <= 0 && a == -((-a) / b) * b + r
  {
    if a >= 0 then a % b else -((-a) % b)
  }
}
