// Control-pilot advertiser and interpreter of cp_signal.c: the pilot duty
// cycle that advertises a current limit (Annex A of IEC 61851-1) and the
// raw-ADC threshold classifier of the pilot voltage.
module CpSignal {
  import opened MachineInts
  import ErrorHandler

  /**
   * CP_State_t, plus CP_STATE_FAULT, which CP_ReadState returns although
   * cp_signal.h does not declare it; it is distinct from E and F.
   */
  datatype CpState = Unknown | A12V | B9V | C6V | D3V | E0V | FNeg12V | Fault

  // ---------------------------------------------------------------------
  // Duty-cycle mapping (CP_SetMaxCurrentPWM)
  // ---------------------------------------------------------------------

  /**
   * The if/else chain before the clamp. The float expressions of the source
   * are written in exact integer form: (uint8_t)(a / 0.6 + 0.5) is
   * (10a + 3) / 6 and (uint8_t)(a / 2.5 + 64 + 0.5) is (4a + 645) / 10;
   * lemma DutyIsRoundedFormula relates them to the real-valued formulas.
   */
  function RawDuty(amps: u8): nat
  {
    if amps == 0 then 100
    else if amps < 6 then 10
    else if amps <= 51 then (10 * amps + 3) / 6
    else if amps <= 80 then (4 * amps + 645) / 10
    else (4 * 80 + 645) / 10
  }

  /** The clamp to [5, 96] that leaves 100 % untouched. */
  function ClampDuty(duty: nat): nat
  {
    if duty == 100 then 100
    else if duty < 5 then 5
    else if duty > 96 then 96
    else duty
  }

  /**
   * CP_SetMaxCurrentPWM: the duty cycle handed unchanged to
   * PWM_Set_DutyCycle for a current limit of `amps`.
   */
  function MaxCurrentDuty(amps: u8): (duty: u8)
    ensures duty == 100 || 10 <= duty <= 96
    ensures duty == 100 <==> amps == 0
  {
    ClampDuty(RawDuty(amps))
  }

  /** The clamp never changes the value the chain computed. */
  lemma ClampIsIdentity(amps: u8)
    ensures ClampDuty(RawDuty(amps)) == RawDuty(amps)
    ensures MaxCurrentDuty(amps) == RawDuty(amps)
  {
  }

  /**
   * Each segment of the chain is the source's float formula rounded half
   * up, computed exactly over the reals: duty = floor(x + 1/2).
   */
  lemma DutyIsRoundedFormula(amps: u8)
    ensures amps == 0 ==> MaxCurrentDuty(amps) == 100
    ensures 1 <= amps <= 5 ==> MaxCurrentDuty(amps) == 10
    ensures 6 <= amps <= 51 ==>
      var x := (amps as real) / 0.6 + 0.5;
      (MaxCurrentDuty(amps) as real) <= x < (MaxCurrentDuty(amps) as real) + 1.0
    ensures 52 <= amps <= 80 ==>
      var x := (amps as real) / 2.5 + 64.0 + 0.5;
      (MaxCurrentDuty(amps) as real) <= x < (MaxCurrentDuty(amps) as real) + 1.0
    ensures amps > 80 ==> MaxCurrentDuty(amps) == MaxCurrentDuty(80) == 96
  {
    var d := MaxCurrentDuty(amps);
    if 6 <= amps <= 51 {
      assert d == (10 * amps + 3) / 6;
      assert 6 * d <= 10 * amps + 3 < 6 * d + 6;
      assert (amps as real) / 0.6 + 0.5 == ((10 * amps + 3) as real) / 6.0;
    } else if 52 <= amps <= 80 {
      assert d == (4 * amps + 645) / 10;
      assert 10 * d <= 4 * amps + 645 < 10 * d + 10;
      assert (amps as real) / 2.5 + 64.0 + 0.5 == ((4 * amps + 645) as real) / 10.0;
    }
  }

  /** More current never advertises a smaller duty cycle (over 1..255 A). */
  lemma DutyMonotone(a: u8, b: u8)
    requires 1 <= a <= b
    ensures MaxCurrentDuty(a) <= MaxCurrentDuty(b)
  {
    ClampIsIdentity(a);
    ClampIsIdentity(b);
    if a <= 51 && 6 <= b <= 51 {
      DivMonotone(10 * a + 3, 10 * b + 3, 6);
    } else if 52 <= a && b <= 80 {
      DivMonotone(4 * a + 645, 4 * b + 645, 10);
    } else if a <= 51 && 52 <= b {
      assert RawDuty(a) <= 85 by { DivMonotone(10 * a + 3, 10 * 51 + 3, 6); }
      assert RawDuty(b) >= 85 by { DivMonotone(4 * 52 + 645, 4 * (if b <= 80 then b else 80) + 645, 10); }
    }
  }

  /** The spot values of Annex A used by the state machine. */
  lemma DutySpotValues()
    ensures MaxCurrentDuty(0) == 100
    ensures MaxCurrentDuty(6) == 10
    ensures MaxCurrentDuty(13) == 22
    ensures MaxCurrentDuty(20) == 33
    ensures MaxCurrentDuty(32) == 53
    ensures MaxCurrentDuty(51) == 85
    ensures MaxCurrentDuty(63) == 89
    ensures MaxCurrentDuty(80) == 96
  {
  }

  // ---------------------------------------------------------------------
  // Pilot voltage classification (CP_ReadState)
  // ---------------------------------------------------------------------

  const ThresholdAMin: int := 3600
  const ThresholdBMin: int := 2600
  const ThresholdCMin: int := 1600
  const ThresholdDMin: int := 600
  /** The value the ADC driver documents as its timeout result. */
  const AdcErrorValue: int := 0xFFFF

  /** The state CP_ReadState returns for the raw sample `raw`. */
  function Classify(raw: u16): (s: CpState)
    ensures s in {A12V, B9V, C6V, D3V, Fault}
  {
    if raw == AdcErrorValue then Fault
    else if raw >= ThresholdAMin then A12V
    else if raw >= ThresholdBMin then B9V
    else if raw >= ThresholdCMin then C6V
    else if raw >= ThresholdDMin then D3V
    else Fault
  }

  /** Whether CP_ReadState reports ERROR_CP_VOLTAGE_INVALID for `raw`. */
  predicate ReportsInvalidVoltage(raw: u16)
  {
    raw != AdcErrorValue && raw < ThresholdDMin
  }

  /** The bands of the classifier, each in both directions. */
  lemma ClassifyBands(raw: u16)
    ensures Classify(raw) == A12V <==> ThresholdAMin <= raw && raw != AdcErrorValue
    ensures Classify(raw) == B9V <==> ThresholdBMin <= raw < ThresholdAMin
    ensures Classify(raw) == C6V <==> ThresholdCMin <= raw < ThresholdBMin
    ensures Classify(raw) == D3V <==> ThresholdDMin <= raw < ThresholdCMin
    ensures Classify(raw) == Fault <==> raw < ThresholdDMin || raw == AdcErrorValue
    ensures ReportsInvalidVoltage(raw) ==> Classify(raw) == Fault
    ensures Classify(raw) != Fault ==> !ReportsInvalidVoltage(raw)
  {
  }

  /** The pilot voltage level a state stands for: A highest, then B, C, D. */
  function Level(s: CpState): int
  {
    match s
    case A12V => 4
    case B9V => 3
    case C6V => 2
    case D3V => 1
    case _ => 0
  }

  /**
   * Away from the ADC error value, a higher raw sample never yields a lower
   * pilot state.
   */
  lemma ClassifyMonotone(r1: u16, r2: u16)
    requires r1 <= r2 < AdcErrorValue
    ensures Level(Classify(r1)) <= Level(Classify(r2))
  {
  }

  /**
   * CP_ReadState given the raw CH1 sample: returns Classify(raw) and reports
   * ERROR_CP_VOLTAGE_INVALID exactly for samples below the D threshold; the
   * 0xFFFF path and the A-D bands leave the latch alone.
   */
  method ReadState(raw: u16, latch: ErrorHandler.ErrorLatch) returns (s: CpState)
    requires !latch.halted
    modifies latch
    ensures s == Classify(raw)
    ensures ReportsInvalidVoltage(raw) ==> latch.lastErrorCode == ErrorHandler.CpVoltageInvalid
    ensures !ReportsInvalidVoltage(raw) ==> latch.lastErrorCode == old(latch.lastErrorCode)
    ensures !latch.halted
  {
    if raw == AdcErrorValue {
      return Fault;
    }
    if raw >= ThresholdAMin {
      s := A12V;
    } else if raw >= ThresholdBMin {
      s := B9V;
    } else if raw >= ThresholdCMin {
      s := C6V;
    } else if raw >= ThresholdDMin {
      s := D3V;
    } else {
      latch.Handle(ErrorHandler.CpVoltageInvalid);
      s := Fault;
    }
  }
}
