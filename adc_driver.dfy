// The integer part of adc_driver.c: the 8-sample averaging and millivolt
// scaling of ADC_Read_Voltage_mV, and the result of ADC_Read_Channel_Raw.
// The conversions themselves are hardware reads; they are the parameters.
module AdcDriver {
  import opened MachineInts
  import CpSignal

  /** VOLTAGE_AVG_SAMPLES. */
  const AvgSamples: int := 8
  /** ADC_REFERENCE_VOLTAGE_MV. */
  const ReferenceMv: int := 3300
  /** Full scale of the 12-bit converter. */
  const FullScale: int := 4095

  /** A right-aligned 12-bit conversion result. */
  type u12 = x: int | 0 <= x <= FullScale

  function Sum(samples: seq<u16>): nat
  {
    if samples == [] then 0 else Sum(samples[..|samples| - 1]) + samples[|samples| - 1]
  }

  /** (uint16_t)(totalRawValue / VOLTAGE_AVG_SAMPLES). */
  function AverageRaw(samples: seq<u16>): nat
  {
    (Sum(samples) / AvgSamples) % Two16
  }

  /** (uint16_t)(((uint32_t)avg * 3300) / 4095). */
  function MilliVolts(averageRaw: u16): nat
  {
    ((averageRaw * ReferenceMv / FullScale) % Two32) % Two16
  }

  lemma {:induction false} SumBounds(samples: seq<u16>, lo: int, hi: int)
    requires forall i :: 0 <= i < |samples| ==> lo <= samples[i] <= hi
    ensures |samples| * lo <= Sum(samples) <= |samples| * hi
  {
    if samples != [] {
      var n := |samples| - 1;
      var init := samples[..n];
      assert forall i :: 0 <= i < |init| ==> init[i] == samples[i];
      SumBounds(init, lo, hi);
      assert lo <= samples[n] <= hi;
      assert |samples| * lo == n * lo + lo && |samples| * hi == n * hi + hi;
    }
  }

  /**
   * The average lies between the smallest and the largest sample, and the
   * uint16_t cast of the quotient never truncates.
   */
  lemma AverageWithinSamples(samples: seq<u16>, lo: int, hi: int)
    requires |samples| == AvgSamples
    requires forall i :: 0 <= i < |samples| ==> lo <= samples[i] <= hi
    ensures lo <= AverageRaw(samples) <= hi
    ensures AverageRaw(samples) == Sum(samples) / AvgSamples
  {
    SumBounds(samples, lo, hi);
    SumBounds(samples, 0, Two16 - 1);
  }

  /**
   * With 12-bit samples the average stays at most 4095 and the voltage at
   * most the 3300 mV reference; full scale maps exactly to 3300 mV.
   */
  lemma TwelveBitSamplesStayInRange(samples: seq<u16>)
    requires |samples| == AvgSamples
    requires forall i :: 0 <= i < |samples| ==> samples[i] <= FullScale
    ensures AverageRaw(samples) <= FullScale
    ensures MilliVolts(AverageRaw(samples)) <= ReferenceMv
    ensures MilliVolts(FullScale) == ReferenceMv
  {
    AverageWithinSamples(samples, 0, FullScale);
    var avg := AverageRaw(samples);
    assert avg * ReferenceMv <= FullScale * ReferenceMv;
  }

  /** More average input never gives fewer millivolts; no cast truncates. */
  lemma MilliVoltsMonotone(a: u16, b: u16)
    requires a <= b
    ensures MilliVolts(a) <= MilliVolts(b)
    ensures MilliVolts(b) == b * ReferenceMv / FullScale
  {
    assert a * ReferenceMv <= b * ReferenceMv;
    assert b * ReferenceMv / FullScale < Two16;
    DivMonotone(a * ReferenceMv, b * ReferenceMv, FullScale);
  }

  /**
   * ADC_Read_Voltage_mV over the eight conversions it reads: accumulates
   * them in a uint32_t, averages and scales.
   */
  method ReadVoltageMv(samples: seq<u16>) returns (mv: u16)
    requires |samples| == AvgSamples
    ensures mv == MilliVolts(AverageRaw(samples))
    ensures mv <= (Two16 - 1) * ReferenceMv / FullScale
  {
    var totalRawValue: u32 := 0;
    for i := 0 to AvgSamples
      invariant totalRawValue == Sum(samples[..i])
      invariant totalRawValue <= i * (Two16 - 1)
    {
      assert samples[..i + 1][..i] == samples[..i];
      totalRawValue := (totalRawValue + samples[i]) % Two32;
    }
    assert samples[..AvgSamples] == samples;
    var averageRawValue: u16 := (totalRawValue / AvgSamples) % Two16;
    var voltage: u32 := ((averageRawValue * ReferenceMv) / FullScale) % Two32;
    mv := voltage % Two16;
    MilliVoltsMonotone(averageRawValue, Two16 - 1);
  }

  /**
   * ADC_Read_Channel_Raw: the conversion value as it is. The 0xFFFF error
   * value its comment mentions is never produced, so CP_ReadState's
   * timeout branch cannot be taken on a real conversion.
   */
  function ChannelRaw(conversion: u12): (raw: u16)
    ensures raw != CpSignal.AdcErrorValue
    ensures CpSignal.Classify(raw) == CpSignal.Fault <==> CpSignal.ReportsInvalidVoltage(raw)
  {
    conversion
  }
}
