// The pilot PWM timer set-up of pwm_driver.c: parameter checks, the
// auto-reload (ARR) and compare (CCR) arithmetic in the C integer widths,
// the prescaler-to-enumerator chain, and the stored frequency and duty.
module PwmDriver {
  import opened MachineInts

  /** ATIM_Prescaler_DIVx settings that the chain can pick. */
  datatype Prescaler = Div1 | Div2 | Div4 | Div8 | Div16 | Div32 | Div64 | Div256

  /** The if/else chain mapping a prescaler count to its setting; None is `return false`. */
  function PrescalerSetting(prescalerValue: u16): Option<Prescaler>
  {
    if prescalerValue == 0 then Some(Div1)
    else if prescalerValue == 1 then Some(Div2)
    else if prescalerValue < 4 then Some(Div4)
    else if prescalerValue < 8 then Some(Div8)
    else if prescalerValue < 16 then Some(Div16)
    else if prescalerValue < 32 then Some(Div32)
    else if prescalerValue < 64 then Some(Div64)
    else if prescalerValue < 256 then Some(Div256)
    else None
  }

  /** The divider each setting stands for. */
  function Divider(p: Prescaler): nat
  {
    match p
    case Div1 => 1
    case Div2 => 2
    case Div4 => 4
    case Div8 => 8
    case Div16 => 16
    case Div32 => 32
    case Div64 => 64
    case Div256 => 256
  }

  /**
   * The buckets of the chain: the chosen divider is the smallest listed
   * one that is at least prescalerValue + 1, except that 64..255 all map to
   * DIV256; counts of 256 and more fail.
   */
  lemma PrescalerBuckets(prescalerValue: u16)
    ensures PrescalerSetting(prescalerValue).None? <==> prescalerValue >= 256
    ensures PrescalerSetting(prescalerValue) == Some(Div1) <==> prescalerValue == 0
    ensures PrescalerSetting(prescalerValue).Some? ==>
      prescalerValue + 1 <= Divider(PrescalerSetting(prescalerValue).value)
    ensures PrescalerSetting(prescalerValue).Some? && prescalerValue < 64 ==>
      Divider(PrescalerSetting(prescalerValue).value) <= 2 * prescalerValue + 1
  {
  }

  /**
   * ARR with the prescaler count at 0: clk / freq - 1, computed in uint32
   * (so 0 - 1 wraps) and stored in the uint16_t arrValue. The timer period
   * arr + 1 is therefore the ideal period clk / freq modulo 2^16.
   */
  function ArrValue(timerClockHz: u32, freqHz: u32): u16
    requires freqHz > 0
  {
    ((timerClockHz / freqHz - 1) % Two32) % Two16
  }

  /** The period arr + 1 the timer runs is the ideal clk / freq modulo 2^16. */
  lemma ArrPeriodModulo(timerClockHz: u32, freqHz: u32)
    requires freqHz > 0
    ensures (ArrValue(timerClockHz, freqHz) + 1) % Two16 == (timerClockHz / freqHz) % Two16
  {
    DivAtMost(timerClockHz, freqHz);
    ArrWrap(timerClockHz / freqHz);
  }

  lemma DivAtMost(n: nat, d: nat)
    requires d > 0
    ensures n / d <= n
  {
    MulMonotone(1, d, n / d);
  }

  /** Subtracting 1 in uint32 and adding it back in uint16 returns to the period modulo 2^16. */
  lemma ArrWrap(period: nat)
    requires period < Two32
    ensures ((((period - 1) % Two32) % Two16) + 1) % Two16 == period % Two16
  {
    if period == 0 {
      DivModUnique(-1, Two32, -1, Two32 - 1);
      DivModUnique(Two32 - 1, Two16, Two16 - 1, Two16 - 1);
    } else {
      DivModUnique(period - 1, Two32, 0, period - 1);
      ModSucc(period - 1, Two16);
    }
  }

  /**
   * Inside the range the timer can represent the period is exact; outside
   * it, ARR silently wraps instead of the prescaler being raised, because
   * `while (arrValue > 65535)` can never hold for a uint16_t.
   */
  lemma ArrExactWhenRepresentable(timerClockHz: u32, freqHz: u32)
    requires freqHz > 0 && 1 <= timerClockHz / freqHz <= Two16
    ensures ArrValue(timerClockHz, freqHz) + 1 == timerClockHz / freqHz
  {
    var period := timerClockHz / freqHz;
    DivModUnique(period - 1, Two32, 0, period - 1);
    DivModUnique(period - 1, Two16, 0, period - 1);
  }

  /** 8 MHz at 100 Hz wants a period of 80000 but gets 14464 (about 553 Hz). */
  lemma ArrWrapsWhenTooSlow()
    ensures ArrValue(8_000_000, 100) == 14463
    ensures ArrValue(8_000_000, 1000) == 7999
    ensures ArrValue(1000, 2000) == 65535
  {
  }

  /** ((uint32_t)(arr + 1) * duty) / 100, stored in the uint16_t ccrValue. */
  function CcrValue(arr: u16, dutyCyclePercent: u8): u16
  {
    (((arr + 1) * dutyCyclePercent) / 100) % Two16
  }

  /**
   * Below ARR 65535 and at most 100 %, the compare value is the exact
   * duty share of the period, rounded down.
   */
  lemma CcrRoundsDown(arr: u16, dutyCyclePercent: u8)
    requires arr < Two16 - 1 && dutyCyclePercent <= 100
    ensures CcrValue(arr, dutyCyclePercent) * 100 <= (arr + 1) * dutyCyclePercent
    ensures (arr + 1) * dutyCyclePercent < CcrValue(arr, dutyCyclePercent) * 100 + 100
  {
    CcrFits(arr, dutyCyclePercent);
  }

  /** Below ARR 65535 and at most 100 %, the quotient fits in uint16_t. */
  lemma CcrFits(arr: u16, dutyCyclePercent: u8)
    ensures arr < Two16 - 1 && dutyCyclePercent <= 100 ==>
      (((arr + 1) * dutyCyclePercent) / 100) % Two16 == ((arr + 1) * dutyCyclePercent) / 100
  {
    if arr < Two16 - 1 && dutyCyclePercent <= 100 {
      var v := (arr + 1) * dutyCyclePercent;
      MulLe(arr + 1, dutyCyclePercent, 100);
      assert v / 100 <= arr + 1;
      DivModUnique(v / 100, Two16, 0, v / 100);
    }
  }

  /**
   * For ARR below 65535 the compare value never exceeds the period, and
   * equals it exactly at 100 % duty; at ARR 65535 a 100 % duty wraps the
   * compare value to 0.
   */
  lemma CcrWithinPeriod(arr: u16, dutyCyclePercent: u8)
    requires arr < Two16 - 1 && dutyCyclePercent <= 100
    ensures CcrValue(arr, dutyCyclePercent) <= arr + 1
    ensures CcrValue(arr, dutyCyclePercent) == arr + 1 <==> dutyCyclePercent == 100
    ensures dutyCyclePercent == 0 ==> CcrValue(arr, dutyCyclePercent) == 0
  {
    var ccr := CcrValue(arr, dutyCyclePercent);
    CcrRoundsDown(arr, dutyCyclePercent);
    if dutyCyclePercent < 100 {
      assert (arr + 1) * dutyCyclePercent <= (arr + 1) * 99 by {
        MulLe(arr + 1, dutyCyclePercent, 99);
      }
      assert ccr * 100 < (arr + 1) * 100;
    }
  }

  lemma MulLe(a: nat, b: nat, c: nat)
    requires b <= c
    ensures a * b <= a * c
  {
  }

  lemma CcrWrapsAtFullRange()
    ensures CcrValue(Two16 - 1, 100) == 0
    ensures CcrValue(7999, 53) == 4240
  {
  }

  /**
   * `arrValue = (timerClockFreq / (freqHz * (prescalerValue + 1))) - 1` in
   * uint32_t, stored in uint16_t: the period the timer then runs is the
   * ideal clk / freq modulo 2^16, and exactly that when it fits.
   */
  method ReloadFor(timerClockHz: u32, freqHz: u32, prescalerValue: u16) returns (arrValue: u16)
    requires freqHz > 0 && prescalerValue == 0
    ensures arrValue == ArrValue(timerClockHz, freqHz)
    ensures (arrValue + 1) % Two16 == (timerClockHz / freqHz) % Two16
    ensures 1 <= timerClockHz / freqHz <= Two16 ==> arrValue + 1 == timerClockHz / freqHz
  {
    var divisor: u32 := (freqHz * (prescalerValue + 1)) % Two32;
    assert divisor == freqHz;
    var quotient: u32 := timerClockHz / divisor;
    arrValue := ((quotient - 1) % Two32) % Two16;
    ArrPeriodModulo(timerClockHz, freqHz);
    if 1 <= quotient <= Two16 {
      ArrExactWhenRepresentable(timerClockHz, freqHz);
    }
  }

  /**
   * `ccrValue = ((uint32_t)(arrValue + 1) * dutyCyclePercent) / 100`, stored
   * in uint16_t: below ARR 65535 and at most 100 % it is the duty share of
   * the period rounded down, never past the period, and the full period
   * exactly at 100 %.
   */
  method CompareFor(arrValue: u16, dutyCyclePercent: u8) returns (ccrValue: u16)
    ensures ccrValue == CcrValue(arrValue, dutyCyclePercent)
    ensures arrValue < Two16 - 1 && dutyCyclePercent <= 100 ==>
      ccrValue * 100 <= (arrValue + 1) * dutyCyclePercent < ccrValue * 100 + 100 &&
      ccrValue <= arrValue + 1 &&
      (ccrValue == arrValue + 1 <==> dutyCyclePercent == 100)
  {
    var product: nat := (arrValue + 1) * dutyCyclePercent;
    ccrValue := (product / 100) % Two16;
    assert ccrValue == CcrValue(arrValue, dutyCyclePercent);
    if arrValue < Two16 - 1 && dutyCyclePercent <= 100 {
      CcrRoundsDown(arrValue, dutyCyclePercent);
      CcrWithinPeriod(arrValue, dutyCyclePercent);
    }
  }

  /** The timer registers PWM_Driver_Init programs. */
  datatype TimerConfig = TimerConfig(prescaler: Prescaler, reloadValue: u16, compareValue: u16)

  class Pwm {
    /** pwm_frequency and pwm_duty_cycle. */
    var pwmFrequency: u32
    var pwmDutyCycle: u8
    /** The ATIM time base and channel 2B compare, once programmed. */
    var timer: Option<TimerConfig>

    /** Static initialisation: both stored values 0, timer not programmed. */
    constructor ()
      ensures pwmFrequency == 0 && pwmDutyCycle == 0 && timer == None
    {
      pwmFrequency, pwmDutyCycle := 0, 0;
      timer := None;
    }

    /**
     * PWM_Driver_Init given the PCLK frequency: rejects a zero frequency
     * or a duty above 100 before touching anything; otherwise programs
     * DIV1, ARR and CCR as computed above, stores both values and succeeds.
     */
    method Init(timerClockHz: u32, freqHz: u32, dutyCyclePercent: u8) returns (ok: bool)
      modifies this
      ensures ok <==> freqHz != 0 && dutyCyclePercent <= 100
      ensures !ok ==> pwmFrequency == old(pwmFrequency) && pwmDutyCycle == old(pwmDutyCycle) &&
                      timer == old(timer)
      ensures ok ==> pwmFrequency == freqHz && pwmDutyCycle == dutyCyclePercent
      ensures ok ==> timer == Some(TimerConfig(Div1, ArrValue(timerClockHz, freqHz),
                                               CcrValue(ArrValue(timerClockHz, freqHz), dutyCyclePercent)))
    {
      if freqHz == 0 || dutyCyclePercent > 100 {
        return false;
      }
      var prescalerValue: u16 := 0;
      var arrValue := ReloadFor(timerClockHz, freqHz, prescalerValue);
      var setting := PrescalerSetting(prescalerValue);
      assert setting.Some?;
      var ccrValue := CompareFor(arrValue, dutyCyclePercent);
      timer := Some(TimerConfig(setting.value, arrValue, ccrValue));
      pwmFrequency := freqHz;
      pwmDutyCycle := dutyCyclePercent;
      ok := true;
    }

    /** PWM_Get_Frequency. */
    method GetFrequency() returns (f: u32)
      ensures f == pwmFrequency
    {
      f := pwmFrequency;
    }

    /** PWM_Get_DutyCycle. */
    method GetDutyCycle() returns (d: u8)
      ensures d == pwmDutyCycle
    {
      d := pwmDutyCycle;
    }
  }
}
