/** The LDR_10K light-sensor driver: averaged ADC reads and a calibrated,
    saturated 0-100 percentage. ADC reads are supplied by the caller, one
    element of `adc` per analogRead, in the order the driver takes them. */
module Ldr {

  /** uint8_t. */
  newtype uint8 = x: int | 0 <= x < 256

  /** One analogRead result (a uint16_t). */
  type AdcSample = x: int | 0 <= x < 0x1_0000

  /** Calibration used when the constructor is given none. */
  const DefaultMinRaw := 300
  const DefaultMaxRaw := 4095

  /** Sum of the reads, accumulated left to right as the driver does. */
  function Sum(s: seq<int>): int {
    if s == [] then 0 else Sum(s[..|s| - 1]) + s[|s| - 1]
  }

  /** The driver's average: the sum divided by the count, rounded down. */
  function Mean(s: seq<int>): int
    requires |s| > 0
  {
    Sum(s) / |s|
  }

  function Min(s: seq<int>): (m: int)
    requires |s| > 0
    ensures m in s
    ensures forall i :: 0 <= i < |s| ==> m <= s[i]
  {
    if |s| == 1 then s[0]
    else
      var m := Min(s[1..]);
      if s[0] <= m then s[0] else m
  }

  function Max(s: seq<int>): (m: int)
    requires |s| > 0
    ensures m in s
    ensures forall i :: 0 <= i < |s| ==> s[i] <= m
  {
    if |s| == 1 then s[0]
    else
      var m := Max(s[1..]);
      if s[0] >= m then s[0] else m
  }

  lemma {:induction false} SumBounds(s: seq<int>, lo: int, hi: int)
    requires forall i :: 0 <= i < |s| ==> lo <= s[i] <= hi
    ensures |s| * lo <= Sum(s) <= |s| * hi
  {
    if s != [] {
      SumBounds(s[..|s| - 1], lo, hi);
    }
  }

  lemma DivBounds(a: int, n: int, lo: int, hi: int)
    requires n > 0 && n * lo <= a <= n * hi
    ensures lo <= a / n <= hi
  {
    var q := a / n;
    assert n * q <= a < n * (q + 1);
    MulCancel(n, lo, q + 1);
    MulCancel(n, q, hi + 1);
  }

  lemma MulCancel(n: int, x: int, y: int)
    requires n > 0 && n * x < n * y
    ensures x < y
  {
  }

  /** With one read per sample the average is that read. */
  lemma MeanOfOne(x: int)
    ensures Mean([x]) == x
  {
    assert [x][..0] == [];
    assert Sum([x]) == Sum([]) + x;
  }

  /** The average lies between the smallest and the largest read. */
  lemma MeanBetween(s: seq<int>)
    requires |s| > 0
    ensures Min(s) <= Mean(s) <= Max(s)
  {
    SumBounds(s, Min(s), Max(s));
    DivBounds(Sum(s), |s|, Min(s), Max(s));
  }

  /** mapToUnitInterval: where `value` falls in [inMin, inMax], clamped to
      [0, 1]; 0 when the range is empty. */
  function MapToUnitInterval(value: int, inMin: int, inMax: int): (x: real)
    ensures 0.0 <= x <= 1.0
    ensures inMax == inMin ==> x == 0.0
    ensures inMin < inMax && value <= inMin ==> x == 0.0
    ensures inMin < inMax && inMax <= value ==> x == 1.0
    ensures inMin < inMax && inMin <= value <= inMax ==>
              x * (inMax - inMin) as real == (value - inMin) as real
  {
    if inMax == inMin then 0.0
    else
      var x := (value - inMin) as real / (inMax - inMin) as real;
      if x < 0.0 then 0.0 else if x > 1.0 then 1.0 else x
  }

  /** With a proper calibration the unit-interval position never decreases
      as the reading grows. */
  lemma MapToUnitIntervalMonotone(v1: int, v2: int, inMin: int, inMax: int)
    requires inMin < inMax && v1 <= v2
    ensures MapToUnitInterval(v1, inMin, inMax) <= MapToUnitInterval(v2, inMin, inMax)
  {
    var d := (inMax - inMin) as real;
    var a, b := (v1 - inMin) as real, (v2 - inMin) as real;
    RealDivMonotone(a, b, d);
  }

  lemma RealDivMonotone(a: real, b: real, d: real)
    requires d > 0.0 && a <= b
    ensures a / d <= b / d
  {
  }

  /** roundf: to the nearest integer, halves away from zero. */
  function RoundHalfAway(x: real): (r: int)
    ensures x - 0.5 <= r as real <= x + 0.5
    ensures x >= 0.0 ==> r >= 0
  {
    if x >= 0.0 then (x + 0.5).Floor else -((-x + 0.5).Floor)
  }

  lemma RoundMonotone(x: real, y: real)
    requires 0.0 <= x <= y
    ensures RoundHalfAway(x) <= RoundHalfAway(y)
  {
  }

  /** getPercentageLDR on a raw reading: mapped, rounded and saturated. */
  function Percentage(raw: int, minRaw: int, maxRaw: int): (p: int)
    ensures 0 <= p <= 100
  {
    var u := MapToUnitInterval(raw, minRaw, maxRaw);
    var pct := RoundHalfAway(u * 100.0);
    if pct < 0 then 0 else if pct > 100 then 100 else pct
  }

  /** A reading at or below the calibrated minimum reads 0%. */
  lemma PercentageAtMin(raw: int, minRaw: int, maxRaw: int)
    requires minRaw < maxRaw && raw <= minRaw
    ensures Percentage(raw, minRaw, maxRaw) == 0
  {
  }

  /** A reading at or above the calibrated maximum reads 100%. */
  lemma PercentageAtMax(raw: int, minRaw: int, maxRaw: int)
    requires minRaw < maxRaw && maxRaw <= raw
    ensures Percentage(raw, minRaw, maxRaw) == 100
  {
    assert RoundHalfAway(100.0) == 100;
  }

  /** The percentage never decreases as the raw reading grows. */
  lemma PercentageMonotone(r1: int, r2: int, minRaw: int, maxRaw: int)
    requires minRaw < maxRaw && r1 <= r2
    ensures Percentage(r1, minRaw, maxRaw) <= Percentage(r2, minRaw, maxRaw)
  {
    MapToUnitIntervalMonotone(r1, r2, minRaw, maxRaw);
    RoundMonotone(MapToUnitInterval(r1, minRaw, maxRaw) * 100.0, MapToUnitInterval(r2, minRaw, maxRaw) * 100.0);
  }

  /** An empty calibration range reads 0% whatever the reading. */
  lemma PercentageDegenerate(raw: int, cal: int)
    ensures Percentage(raw, cal, cal) == 0
  {
  }

  /** The pair setCalibration stores: the smaller value first. */
  function Ordered(a: int, b: int): (p: (int, int))
    ensures p.0 <= p.1
    ensures multiset{p.0, p.1} == multiset{a, b}
  {
    if a > b then (b, a) else (a, b)
  }

  /** setCalibration(a, b) and setCalibration(b, a) store the same pair. */
  lemma OrderedSymmetric(a: int, b: int)
    ensures Ordered(a, b) == Ordered(b, a)
  {
  }

  class Ldr10K {
    var pin: uint8
    var minRaw: int
    var maxRaw: int
    var smoothingSamples: uint8

    /** The pair is stored as given, not ordered; smoothing starts at 1. */
    constructor (adcPin: uint8, minRaw: int := DefaultMinRaw, maxRaw: int := DefaultMaxRaw)
      ensures pin == adcPin && this.minRaw == minRaw && this.maxRaw == maxRaw
      ensures smoothingSamples == 1
    {
      pin := adcPin;
      this.minRaw := minRaw;
      this.maxRaw := maxRaw;
      smoothingSamples := 1;
    }

    /** How many analogRead calls one reading takes: a smoothing count of 0
        or 1 means a single read. */
    function ReadsPerSample(): (n: nat)
      reads this
      ensures 1 <= n <= 255
      ensures smoothingSamples > 1 ==> n == smoothingSamples as int
    {
      if smoothingSamples <= 1 then 1 else smoothingSamples as int
    }

    /** readAveraged. The accumulator is a uint32_t in the driver; at most
        255 reads below 2^16 keep it below 2^32, so it never wraps. */
    method ReadAveraged(adc: seq<AdcSample>) returns (r: int)
      requires |adc| == ReadsPerSample()
      ensures r == Mean(adc)
      ensures Min(adc) <= r <= Max(adc)
      ensures smoothingSamples <= 1 ==> r == adc[0]
    {
      MeanBetween(adc);
      if smoothingSamples <= 1 {
        assert adc[..0] == [];
        return adc[0];
      }
      var acc := 0;
      for i := 0 to smoothingSamples as int
        invariant acc == Sum(adc[..i])
        invariant 0 <= acc <= i * 0xFFFF
      {
        assert adc[..i + 1][..i] == adc[..i];
        acc := acc + adc[i];
        assert acc < 0x1_0000_0000;
      }
      assert adc[..|adc|] == adc;
      r := acc / smoothingSamples as int;
    }

    /** getAnalogLDR: one (possibly averaged) reading. */
    method GetAnalogLDR(adc: seq<AdcSample>) returns (r: int)
      requires |adc| == ReadsPerSample()
      ensures r == Mean(adc)
      ensures Min(adc) <= r <= Max(adc)
    {
      r := ReadAveraged(adc);
    }

    /** getPercentageLDR: a fresh reading mapped through the calibration. */
    method GetPercentageLDR(adc: seq<AdcSample>) returns (pct: int)
      requires |adc| == ReadsPerSample()
      ensures 0 <= pct <= 100
      ensures pct == Percentage(Mean(adc), minRaw, maxRaw)
    {
      var raw := GetAnalogLDR(adc);
      var u := MapToUnitInterval(raw, minRaw, maxRaw);
      pct := RoundHalfAway(u * 100.0);
      if pct < 0 {
        pct := 0;
      }
      if pct > 100 {
        pct := 100;
      }
    }

    /** setCalibration: the pair is stored smaller value first. */
    method SetCalibration(minRaw: int, maxRaw: int)
      modifies this
      ensures this.minRaw <= this.maxRaw
      ensures multiset{this.minRaw, this.maxRaw} == multiset{minRaw, maxRaw}
      ensures (this.minRaw, this.maxRaw) == Ordered(minRaw, maxRaw)
      ensures pin == old(pin) && smoothingSamples == old(smoothingSamples)
    {
      this.minRaw := minRaw;
      this.maxRaw := maxRaw;
      if this.minRaw > this.maxRaw {
        var t := this.minRaw;
        this.minRaw := this.maxRaw;
        this.maxRaw := t;
      }
    }

    /** setSmoothing: 0 is stored as 1, any other count as given. */
    method SetSmoothing(samples: uint8)
      modifies this
      ensures smoothingSamples == if samples == 0 then 1 else samples
      ensures smoothingSamples >= 1
      ensures pin == old(pin) && minRaw == old(minRaw) && maxRaw == old(maxRaw)
    {
      var n := samples;
      if n == 0 {
        n := 1;
      }
      smoothingSamples := n;
    }
  }

  /** Calibrating with the pair in either order leaves the sensor in the same
      state, so every later percentage agrees. */
  method CalibrationOrderIrrelevant(a: int, b: int, adc: seq<AdcSample>)
    returns (p: int, q: int)
    requires |adc| == 1
    ensures p == q
  {
    var first := new Ldr10K(34);
    var second := new Ldr10K(34);
    first.SetCalibration(a, b);
    second.SetCalibration(b, a);
    OrderedSymmetric(a, b);
    p := first.GetPercentageLDR(adc);
    q := second.GetPercentageLDR(adc);
  }
}
