// The charging state machine of charging_sm.c. One call of
// SM_RunStateMachine is a tick: it classifies the control pilot, may read
// the proximity pilot, commands the contactor and the pilot PWM, and calls
// the UI on a state change. The tick is specified by the pure function
// Step; the class ChargingStateMachine carries the three static fields and
// is proved to follow Step.
module ChargingSm {
  import opened MachineInts
  import Cp = CpSignal
  import PpSignal
  import ContactorControl
  import ErrorHandler

  /** SM_State_t, in declaration order. */
  datatype SmState = Init | Idle | Connected | ChargingReq | Charging | Ventilation | Fault

  /**
   * The calls a tick makes to the world outside the state machine, in
   * order: Contactor_Open, Contactor_Close, PWM_Set_DutyCycle (through
   * CP_SetMaxCurrentPWM) and UI_UpdateDisplay.
   */
  datatype Effect = ContactorOpen | ContactorClose | PwmDuty(duty: u8) | UiUpdate

  /** The static fields current_state, cable_capacity_amps, max_charging_current_amps. */
  datatype SmVars = SmVars(state: SmState, cableCapacityAmps: u16, maxChargingCurrentAmps: u8)

  /** The result of a tick: the new fields and the calls made, in order. */
  datatype Tick = Tick(next: SmVars, effects: seq<Effect>)

  /** The EVSE's own current limit in IDLE. */
  const EvseLimitAmps: int := 32

  /** CP_SetMaxCurrentPWM(amps), as the duty it hands to the PWM. */
  function Advertise(amps: u8): Effect
  {
    PwmDuty(Cp.MaxCurrentDuty(amps))
  }

  predicate VehicleDetected(cp: Cp.CpState)
  {
    cp == Cp.B9V || cp == Cp.C6V || cp == Cp.D3V
  }

  predicate PilotError(cp: Cp.CpState)
  {
    cp == Cp.E0V || cp == Cp.FNeg12V
  }

  /** The IDLE case: a vehicle is detected on B, C or D; the PP is read then. */
  function IdleLogic(v: SmVars, cp: Cp.CpState, ppRaw: u16): Tick
  {
    if VehicleDetected(cp) then
      var cable := PpSignal.CableCapacity(ppRaw);
      if cable == PpSignal.CapacityUnknown then
        Tick(v.(state := Fault, cableCapacityAmps := cable), [ContactorOpen])
      else
        var maxAmps: u8 := if cable < EvseLimitAmps then cable else EvseLimitAmps;
        var next := if cp == Cp.B9V then Connected else if cp == Cp.C6V then ChargingReq else Fault;
        Tick(SmVars(next, cable, maxAmps), [Advertise(maxAmps), ContactorOpen])
    else if PilotError(cp) then Tick(v.(state := Fault), [ContactorOpen])
    else Tick(v, [ContactorOpen])
  }

  /** The CONNECTED case. */
  function ConnectedLogic(v: SmVars, cp: Cp.CpState): Tick
  {
    if cp == Cp.C6V then Tick(v.(state := ChargingReq), [ContactorOpen])
    else if cp == Cp.A12V then Tick(v.(state := Idle), [Advertise(0), ContactorOpen])
    else if PilotError(cp) then Tick(v.(state := Fault), [ContactorOpen])
    else Tick(v, [ContactorOpen])
  }

  /** The CHARGING case. */
  function ChargingLogic(v: SmVars, cp: Cp.CpState): Tick
  {
    if cp == Cp.B9V then Tick(v.(state := Connected), [ContactorOpen])
    else if cp == Cp.A12V then Tick(v.(state := Idle), [ContactorOpen, Advertise(0)])
    else if PilotError(cp) then Tick(v.(state := Fault), [ContactorOpen])
    else Tick(v, [])
  }

  /** The switch on current_state: new fields and calls, before the UI step. */
  function Logic(v: SmVars, cp: Cp.CpState, ppRaw: u16): Tick
  {
    match v.state
    case Idle => IdleLogic(v, cp, ppRaw)
    case Connected => ConnectedLogic(v, cp)
    case ChargingReq => Tick(v.(state := Charging), [ContactorClose])
    case Charging => ChargingLogic(v, cp)
    case Ventilation => Tick(v.(state := Fault), [ContactorOpen])
    case Fault => Tick(v.(state := if cp == Cp.A12V then Idle else Fault), [ContactorOpen, Advertise(0)])
    case Init => Tick(v.(state := Idle), [ContactorOpen, Advertise(0)])
  }

  /** One SM_RunStateMachine tick given the pilot state and the PP sample. */
  function Step(v: SmVars, cp: Cp.CpState, ppRaw: u16): Tick
  {
    var t := Logic(v, cp, ppRaw);
    if t.next.state != v.state then Tick(t.next, t.effects + [UiUpdate]) else t
  }

  // ---------------------------------------------------------------------
  // The contactor as seen through the calls of a tick
  // ---------------------------------------------------------------------

  /** The commanded contactor state after `effects`, starting from `closed`. */
  function ClosedAfter(closed: bool, effects: seq<Effect>): bool
  {
    if effects == [] then closed
    else match effects[|effects| - 1]
      case ContactorOpen => false
      case ContactorClose => true
      case _ => ClosedAfter(closed, effects[..|effects| - 1])
  }

  /** The levels the contactor pin receives from `effects`. */
  function PinWrites(effects: seq<Effect>): seq<ContactorControl.PinLevel>
  {
    if effects == [] then []
    else
      var prefix := PinWrites(effects[..|effects| - 1]);
      match effects[|effects| - 1]
      case ContactorOpen => prefix + [ContactorControl.Reset]
      case ContactorClose => prefix + [ContactorControl.Set]
      case _ => prefix
  }

  lemma PinWritesSnoc(effects: seq<Effect>, e: Effect)
    ensures PinWrites(effects + [e]) == PinWrites(effects) + PinWrites([e])
  {
    assert (effects + [e])[..|effects|] == effects;
    assert [e][..0] == [];
  }

  /**
   * The levels one tick writes to the contactor pin, from the state it
   * starts in and the state it ends in: SET once from CHARGING_REQ, nothing
   * while CHARGING continues, RESET once otherwise.
   */
  function TickPinWrites(from: SmState, to: SmState): seq<ContactorControl.PinLevel>
  {
    if from == ChargingReq then [ContactorControl.Set]
    else if from == Charging && to == Charging then []
    else [ContactorControl.Reset]
  }

  /** Each tick writes the contactor pin at most once, as TickPinWrites says. */
  lemma TickWritesPinOnce(v: SmVars, cp: Cp.CpState, ppRaw: u16)
    ensures PinWrites(Step(v, cp, ppRaw).effects) == TickPinWrites(v.state, Step(v, cp, ppRaw).next.state)
  {
    var t := Logic(v, cp, ppRaw);
    LogicWritesPinOnce(v, cp, ppRaw);
    if t.next.state != v.state {
      PinWritesSnoc(t.effects, UiUpdate);
      assert [UiUpdate][..0] == [];
    }
  }

  /** The pin levels of the call lists a tick makes. */
  lemma PinWritesOfTick(duty: u8)
    ensures PinWrites([]) == []
    ensures PinWrites([ContactorOpen]) == [ContactorControl.Reset]
    ensures PinWrites([ContactorClose]) == [ContactorControl.Set]
    ensures PinWrites([PwmDuty(duty), ContactorOpen]) == [ContactorControl.Reset]
    ensures PinWrites([ContactorOpen, PwmDuty(duty)]) == [ContactorControl.Reset]
  {
    assert [PwmDuty(duty), ContactorOpen][..1] == [PwmDuty(duty)] && [PwmDuty(duty)][..0] == [];
    assert [ContactorOpen, PwmDuty(duty)][..1] == [ContactorOpen] && [ContactorOpen][..0] == [];
  }

  /** The same for the state logic alone, before any UI_UpdateDisplay. */
  lemma LogicWritesPinOnce(v: SmVars, cp: Cp.CpState, ppRaw: u16)
    ensures PinWrites(Logic(v, cp, ppRaw).effects) == TickPinWrites(v.state, Logic(v, cp, ppRaw).next.state)
  {
    var effects := Logic(v, cp, ppRaw).effects;
    PinWritesOfTick(if |effects| == 2 && effects[0].PwmDuty? then effects[0].duty
                    else if |effects| == 2 && effects[1].PwmDuty? then effects[1].duty else 0);
    match v.state {
      case Idle =>
      case Connected =>
      case ChargingReq =>
      case Charging =>
      case Ventilation =>
      case Fault =>
      case Init =>
    }
  }

  /** The pin history and the effect trace tell the same story. */
  lemma {:induction false} PinWritesAgree(before: seq<ContactorControl.PinLevel>, effects: seq<Effect>)
    ensures ContactorControl.LastWriteCloses(before + PinWrites(effects))
        == ClosedAfter(ContactorControl.LastWriteCloses(before), effects)
  {
    if effects != [] {
      var prefix := effects[..|effects| - 1];
      PinWritesAgree(before, prefix);
      assert before + PinWrites(effects) == before + PinWrites(prefix) + PinWrites(effects)[|PinWrites(prefix)|..];
    }
  }

  lemma {:induction false} ClosedAfterAppend(closed: bool, a: seq<Effect>, b: seq<Effect>)
    ensures ClosedAfter(closed, a + b) == ClosedAfter(ClosedAfter(closed, a), b)
  {
    if b != [] {
      assert (a + b)[..|a + b| - 1] == a + b[..|b| - 1];
      ClosedAfterAppend(closed, a, b[..|b| - 1]);
    } else {
      assert a + b == a;
    }
  }

  // ---------------------------------------------------------------------
  // Properties of one tick
  // ---------------------------------------------------------------------

  /**
   * The safety fact: if the contactor was commanded closed exactly in
   * CHARGING before a tick, it is commanded closed exactly in CHARGING
   * after it, whatever the readings.
   */
  lemma ContactorClosedIffCharging(v: SmVars, cp: Cp.CpState, ppRaw: u16)
    ensures ClosedAfter(v.state == Charging, Step(v, cp, ppRaw).effects)
        <==> Step(v, cp, ppRaw).next.state == Charging
  {
    var t := Logic(v, cp, ppRaw);
    LogicClosedIffCharging(v, cp, ppRaw);
    if t.next.state != v.state {
      ClosedAfterAppend(v.state == Charging, t.effects, [UiUpdate]);
      assert [UiUpdate][..0] == [];
    }
  }

  /** The same for the state logic alone, before any UI_UpdateDisplay. */
  lemma LogicClosedIffCharging(v: SmVars, cp: Cp.CpState, ppRaw: u16)
    ensures ClosedAfter(v.state == Charging, Logic(v, cp, ppRaw).effects)
        <==> Logic(v, cp, ppRaw).next.state == Charging
  {
    match v.state {
      case Idle =>
      case Connected =>
      case ChargingReq =>
      case Charging =>
      case Ventilation =>
      case Fault =>
      case Init =>
    }
  }

  /** UI_UpdateDisplay is called, once and last, exactly on a state change. */
  lemma UiUpdateIffStateChange(v: SmVars, cp: Cp.CpState, ppRaw: u16)
    ensures var t := Step(v, cp, ppRaw);
      (UiUpdate in t.effects <==> t.next.state != v.state) &&
      (UiUpdate in t.effects ==> t.effects[|t.effects| - 1] == UiUpdate &&
                                 UiUpdate !in t.effects[..|t.effects| - 1])
  {
    var t := Logic(v, cp, ppRaw);
    assert UiUpdate !in t.effects;
    if t.next.state != v.state {
      assert (t.effects + [UiUpdate])[..|t.effects|] == t.effects;
    }
  }

  /** IDLE, vehicle detected, cable unknown: FAULT and no PWM advertised. */
  lemma IdleUnknownCableFaults(v: SmVars, cp: Cp.CpState, ppRaw: u16)
    requires v.state == Idle && VehicleDetected(cp)
    requires PpSignal.CableCapacity(ppRaw) == PpSignal.CapacityUnknown
    ensures Step(v, cp, ppRaw).next == v.(state := Fault, cableCapacityAmps := 0)
    ensures Step(v, cp, ppRaw).effects == [ContactorOpen, UiUpdate]
    ensures forall e :: e in Step(v, cp, ppRaw).effects ==> !e.PwmDuty?
  {
  }

  /**
   * IDLE, vehicle detected, cable known: min(cable, 32) is advertised
   * first, then B goes to CONNECTED, C to CHARGING_REQ and D to FAULT.
   */
  lemma IdleVehicleDetected(v: SmVars, cp: Cp.CpState, ppRaw: u16)
    requires v.state == Idle && VehicleDetected(cp)
    requires PpSignal.CableCapacity(ppRaw) != PpSignal.CapacityUnknown
    ensures var cable := PpSignal.CableCapacity(ppRaw);
      var t := Step(v, cp, ppRaw);
      t.next.cableCapacityAmps == cable &&
      t.next.maxChargingCurrentAmps == (if cable < 32 then cable else 32) &&
      t.next.maxChargingCurrentAmps <= EvseLimitAmps &&
      t.effects[0] == Advertise(t.next.maxChargingCurrentAmps) &&
      t.next.state == (if cp == Cp.B9V then Connected else if cp == Cp.C6V then ChargingReq else Fault) &&
      t.effects == [Advertise(t.next.maxChargingCurrentAmps), ContactorOpen, UiUpdate]
  {
  }

  /** IDLE without a vehicle: E/F go to FAULT, anything else stays. */
  lemma IdleNoVehicle(v: SmVars, cp: Cp.CpState, ppRaw: u16)
    requires v.state == Idle && !VehicleDetected(cp)
    ensures Step(v, cp, ppRaw).next == v.(state := if PilotError(cp) then Fault else Idle)
    ensures Step(v, cp, ppRaw).effects == if PilotError(cp) then [ContactorOpen, UiUpdate] else [ContactorOpen]
  {
  }

  /** CONNECTED: C requests charging, A disconnects, E/F fault; always opens. */
  lemma ConnectedTransitions(v: SmVars, cp: Cp.CpState, ppRaw: u16)
    requires v.state == Connected
    ensures var t := Step(v, cp, ppRaw);
      t.next == v.(state := t.next.state) &&
      t.next.state == (if cp == Cp.C6V then ChargingReq else if cp == Cp.A12V then Idle
                       else if PilotError(cp) then Fault else Connected) &&
      (cp == Cp.A12V <==> Advertise(0) in t.effects) &&
      ContactorOpen in t.effects && ContactorClose !in t.effects
  {
  }

  /** CHARGING_REQ closes the contactor and enters CHARGING, whatever the pilot. */
  lemma ChargingReqAlwaysCloses(v: SmVars, cp: Cp.CpState, ppRaw: u16)
    requires v.state == ChargingReq
    ensures Step(v, cp, ppRaw).next == v.(state := Charging)
    ensures Step(v, cp, ppRaw).effects == [ContactorClose, UiUpdate]
  {
  }

  /**
   * CHARGING: B, A and E/F are the only exits and each opens the contactor
   * first; any other reading, CP_STATE_FAULT included, keeps charging with
   * no call at all.
   */
  lemma ChargingTransitions(v: SmVars, cp: Cp.CpState, ppRaw: u16)
    requires v.state == Charging
    ensures var t := Step(v, cp, ppRaw);
      t.next == v.(state := t.next.state) &&
      t.next.state == (if cp == Cp.B9V then Connected else if cp == Cp.A12V then Idle
                       else if PilotError(cp) then Fault else Charging) &&
      (t.next.state != Charging ==> t.effects[0] == ContactorOpen) &&
      (t.next.state == Charging <==> t.effects == []) &&
      (cp == Cp.A12V <==> Advertise(0) in t.effects)
  {
  }

  /**
   * FAULT opens and advertises 0 A on every tick and leaves only on A;
   * VENTILATION steps to FAULT; INIT steps to IDLE.
   */
  lemma FaultVentilationInit(v: SmVars, cp: Cp.CpState, ppRaw: u16)
    ensures v.state == Fault ==>
      Step(v, cp, ppRaw).next.state == (if cp == Cp.A12V then Idle else Fault) &&
      Step(v, cp, ppRaw).effects[..2] == [ContactorOpen, Advertise(0)]
    ensures v.state == Ventilation ==>
      Step(v, cp, ppRaw).next.state == Fault &&
      Step(v, cp, ppRaw).effects == [ContactorOpen, UiUpdate]
    ensures v.state == Init ==>
      Step(v, cp, ppRaw).next.state == Idle &&
      Step(v, cp, ppRaw).effects == [ContactorOpen, Advertise(0), UiUpdate]
  {
  }

  /** No tick ever enters VENTILATION or INIT. */
  lemma NeverEntersVentilationOrInit(v: SmVars, cp: Cp.CpState, ppRaw: u16)
    ensures Step(v, cp, ppRaw).next.state !in {Ventilation, Init}
  {
  }

  /**
   * Every duty a tick advertises is 100 % (0 A) or stands for at most the
   * EVSE limit of 32 A, i.e. lies in [10, 53].
   */
  lemma AdvertisedCurrentWithinLimit(v: SmVars, cp: Cp.CpState, ppRaw: u16)
    ensures forall e :: e in Step(v, cp, ppRaw).effects && e.PwmDuty? ==>
      e.duty == 100 || 10 <= e.duty <= Cp.MaxCurrentDuty(EvseLimitAmps as u8)
    ensures v.maxChargingCurrentAmps <= EvseLimitAmps ==>
      Step(v, cp, ppRaw).next.maxChargingCurrentAmps <= EvseLimitAmps
  {
    var t := Step(v, cp, ppRaw);
    var cable := PpSignal.CableCapacity(ppRaw);
    if v.state == Idle && VehicleDetected(cp) && cable != PpSignal.CapacityUnknown {
      var maxAmps: u8 := if cable < EvseLimitAmps then cable else EvseLimitAmps;
      Cp.DutyMonotone(maxAmps, 32);
      assert t.effects == [Advertise(maxAmps), ContactorOpen, UiUpdate];
    }
  }

  // ---------------------------------------------------------------------
  // Runs of several ticks
  // ---------------------------------------------------------------------

  /** The readings one tick consumes: pilot state and PP sample. */
  datatype Reading = Reading(cp: Cp.CpState, ppRaw: u16)

  /** Ticks over `readings`, oldest first, with all calls concatenated. */
  function Run(v: SmVars, readings: seq<Reading>): Tick
  {
    if readings == [] then Tick(v, [])
    else
      var before := Run(v, readings[..|readings| - 1]);
      var r := readings[|readings| - 1];
      var t := Step(before.next, r.cp, r.ppRaw);
      Tick(t.next, before.effects + t.effects)
  }

  /** Over any run, the contactor is commanded closed exactly in CHARGING. */
  lemma {:induction false} RunKeepsContactorSafe(v: SmVars, readings: seq<Reading>)
    ensures ClosedAfter(v.state == Charging, Run(v, readings).effects)
        <==> Run(v, readings).next.state == Charging
  {
    if readings != [] {
      var before := Run(v, readings[..|readings| - 1]);
      var r := readings[|readings| - 1];
      RunKeepsContactorSafe(v, readings[..|readings| - 1]);
      ClosedAfterAppend(v.state == Charging, before.effects, Step(before.next, r.cp, r.ppRaw).effects);
      ContactorClosedIffCharging(before.next, r.cp, r.ppRaw);
    }
  }

  /** Over any run, no advertised duty stands for more than 32 A. */
  lemma {:induction false} RunAdvertisesWithinLimit(v: SmVars, readings: seq<Reading>)
    requires v.maxChargingCurrentAmps <= EvseLimitAmps
    ensures Run(v, readings).next.maxChargingCurrentAmps <= EvseLimitAmps
    ensures forall e :: e in Run(v, readings).effects && e.PwmDuty? ==>
      e.duty == 100 || 10 <= e.duty <= Cp.MaxCurrentDuty(EvseLimitAmps as u8)
  {
    if readings != [] {
      var before := Run(v, readings[..|readings| - 1]);
      var r := readings[|readings| - 1];
      RunAdvertisesWithinLimit(v, readings[..|readings| - 1]);
      AdvertisedCurrentWithinLimit(before.next, r.cp, r.ppRaw);
    }
  }

  /**
   * A whole session from IDLE: plug in with any cable the PP reads as 32 A
   * (the 220 Ohm one, for instance), request charging, charge, stop from
   * the vehicle and unplug.
   */
  lemma ChargingSession(pp: u16, readings: seq<Reading>)
    requires PpSignal.CableCapacity(pp) == 32
    requires readings == [Reading(Cp.B9V, pp), Reading(Cp.C6V, 0), Reading(Cp.C6V, 0),
                          Reading(Cp.B9V, 0), Reading(Cp.A12V, 0)]
    ensures var t := Run(SmVars(Idle, 0, 0), readings);
      t.next == SmVars(Idle, 32, 32) &&
      t.effects == [PwmDuty(53), ContactorOpen, UiUpdate,
                    ContactorOpen, UiUpdate,
                    ContactorClose, UiUpdate,
                    ContactorOpen, UiUpdate,
                    PwmDuty(100), ContactorOpen, UiUpdate]
  {
    var v0, connected, charging := SmVars(Idle, 0, 0), SmVars(Connected, 32, 32), SmVars(Charging, 32, 32);
    var start := [PwmDuty(53), ContactorOpen, UiUpdate, ContactorOpen, UiUpdate, ContactorClose, UiUpdate];
    var e4 := [ContactorOpen, UiUpdate];
    var e5 := [PwmDuty(100), ContactorOpen, UiUpdate];
    var r4, r5 := Reading(Cp.B9V, 0), Reading(Cp.A12V, 0);
    var rs3 := [Reading(Cp.B9V, pp), Reading(Cp.C6V, 0), Reading(Cp.C6V, 0)];
    SessionUntilCharging(pp, rs3);
    SessionSteps(pp);
    RunSnoc(v0, rs3, r4, Tick(charging, start), Tick(connected, e4));
    RunSnoc(v0, rs3 + [r4], r5, Tick(connected, start + e4), Tick(SmVars(Idle, 32, 32), e5));
    assert rs3 + [r4] + [r5] == readings;
  }

  /** The first three ticks of that session: from IDLE to CHARGING. */
  lemma SessionUntilCharging(pp: u16, readings: seq<Reading>)
    requires PpSignal.CableCapacity(pp) == 32
    requires readings == [Reading(Cp.B9V, pp), Reading(Cp.C6V, 0), Reading(Cp.C6V, 0)]
    ensures Run(SmVars(Idle, 0, 0), readings) ==
            Tick(SmVars(Charging, 32, 32), [PwmDuty(53), ContactorOpen, UiUpdate,
                                            ContactorOpen, UiUpdate,
                                            ContactorClose, UiUpdate])
  {
    var v0 := SmVars(Idle, 0, 0);
    var connected, req := SmVars(Connected, 32, 32), SmVars(ChargingReq, 32, 32);
    var e1 := [PwmDuty(53), ContactorOpen, UiUpdate];
    var e2 := [ContactorOpen, UiUpdate];
    var e3 := [ContactorClose, UiUpdate];
    SessionSteps(pp);
    var r1, r2, r3 := Reading(Cp.B9V, pp), Reading(Cp.C6V, 0), Reading(Cp.C6V, 0);
    RunSnoc(v0, [], r1, Tick(v0, []), Tick(connected, e1));
    assert [] + [r1] == [r1];
    RunSnoc(v0, [r1], r2, Tick(connected, e1), Tick(req, e2));
    RunSnoc(v0, [r1] + [r2], r3, Tick(req, e1 + e2), Tick(SmVars(Charging, 32, 32), e3));
    assert [r1] + [r2] + [r3] == readings;
  }

  /** The five ticks of that session, one at a time. */
  lemma SessionSteps(pp: u16)
    requires PpSignal.CableCapacity(pp) == 32
    ensures Step(SmVars(Idle, 0, 0), Cp.B9V, pp) ==
            Tick(SmVars(Connected, 32, 32), [PwmDuty(53), ContactorOpen, UiUpdate])
    ensures Step(SmVars(Connected, 32, 32), Cp.C6V, 0) == Tick(SmVars(ChargingReq, 32, 32), [ContactorOpen, UiUpdate])
    ensures Step(SmVars(ChargingReq, 32, 32), Cp.C6V, 0) == Tick(SmVars(Charging, 32, 32), [ContactorClose, UiUpdate])
    ensures Step(SmVars(Charging, 32, 32), Cp.B9V, 0) == Tick(SmVars(Connected, 32, 32), [ContactorOpen, UiUpdate])
    ensures Step(SmVars(Connected, 32, 32), Cp.A12V, 0) ==
            Tick(SmVars(Idle, 32, 32), [PwmDuty(100), ContactorOpen, UiUpdate])
  {
    Cp.DutySpotValues();
  }

  /** One more reading runs one more step from where the run had got to. */
  lemma RunSnoc(v: SmVars, readings: seq<Reading>, r: Reading, before: Tick, t: Tick)
    requires Run(v, readings) == before && Step(before.next, r.cp, r.ppRaw) == t
    ensures Run(v, readings + [r]) == Tick(t.next, before.effects + t.effects)
  {
    var rs := readings + [r];
    assert rs[..|rs| - 1] == readings && rs[|rs| - 1] == r;
  }

  // ---------------------------------------------------------------------
  // The firmware object
  // ---------------------------------------------------------------------

  class ChargingStateMachine {
    var currentState: SmState
    var cableCapacityAmps: u16
    var maxChargingCurrentAmps: u8
    /** The contactor_control.c module the machine commands. */
    const contactor: ContactorControl.Contactor
    /** The error latch CP_ReadState reports into. */
    const latch: ErrorHandler.ErrorLatch

    ghost function Vars(): SmVars
      reads this
    {
      SmVars(currentState, cableCapacityAmps, maxChargingCurrentAmps)
    }

    /** The contactor is commanded closed exactly when the state is CHARGING. */
    ghost predicate Valid()
      reads this, contactor
    {
      contactor.Valid() && (contactor.isClosed <==> currentState == Charging)
    }

    /** Static initialisation: INIT, 0 A, 0 A, over an open contactor. */
    constructor (contactor: ContactorControl.Contactor, latch: ErrorHandler.ErrorLatch)
      requires contactor.Valid() && !contactor.isClosed
      ensures Valid()
      ensures Vars() == SmVars(SmState.Init, 0, 0)
      ensures this.contactor == contactor && this.latch == latch
    {
      currentState := SmState.Init;
      cableCapacityAmps := 0;
      maxChargingCurrentAmps := 0;
      this.contactor := contactor;
      this.latch := latch;
    }

    /**
     * SM_Init (peripheral set-up left out): Contactor_Init opens, the state
     * becomes IDLE, 0 A (100 %) is advertised and the contactor is opened
     * again. The two current fields are not reset.
     */
    method Init() returns (effects: seq<Effect>)
      requires contactor.Valid()
      modifies this, contactor
      ensures Valid()
      ensures Vars() == old(Vars()).(state := Idle)
      ensures effects == [ContactorOpen, PwmDuty(100), ContactorOpen]
      ensures contactor.pinWrites == old(contactor.pinWrites) + [ContactorControl.Reset, ContactorControl.Reset]
    {
      contactor.Init();
      effects := [ContactorOpen];
      currentState := Idle;
      effects := effects + [Advertise(0)];
      contactor.Open();
      effects := effects + [ContactorOpen];
    }

    /** Contactor_Open, recorded. */
    method OpenContactor(effects: seq<Effect>) returns (effects': seq<Effect>)
      requires contactor.Valid()
      modifies contactor
      ensures contactor.Valid() && !contactor.isClosed
      ensures effects' == effects + [ContactorOpen]
      ensures contactor.pinWrites == old(contactor.pinWrites) + [ContactorControl.Reset]
    {
      contactor.Open();
      effects' := effects + [ContactorOpen];
    }

    /**
     * SM_RunStateMachine, given the raw CP sample and the raw PP sample that
     * PP_GetCableCapacity would read: follows Step on the classified pilot
     * state, keeps the contactor-iff-CHARGING invariant, and reports into
     * the latch exactly as CP_ReadState does.
     */
    method RunStateMachine(cpRaw: u16, ppRaw: u16) returns (effects: seq<Effect>)
      requires Valid() && !latch.halted
      modifies this, contactor, latch
      ensures Valid() && !latch.halted
      ensures Vars() == Step(old(Vars()), Cp.Classify(cpRaw), ppRaw).next
      ensures effects == Step(old(Vars()), Cp.Classify(cpRaw), ppRaw).effects
      ensures contactor.pinWrites == old(contactor.pinWrites) + TickPinWrites(old(Vars()).state, currentState)
      ensures Cp.ReportsInvalidVoltage(cpRaw) ==> latch.lastErrorCode == ErrorHandler.CpVoltageInvalid
      ensures !Cp.ReportsInvalidVoltage(cpRaw) ==> latch.lastErrorCode == old(latch.lastErrorCode)
    {
      var cpState := Cp.ReadState(cpRaw, latch);
      var nextState;
      nextState, effects := Switch(cpState, ppRaw);
      if nextState != currentState {
        currentState := nextState;
        effects := effects + [UiUpdate];
      }
    }

    /** The switch on current_state: Logic, with its contactor calls made. */
    method Switch(cpState: Cp.CpState, ppRaw: u16) returns (nextState: SmState, effects: seq<Effect>)
      requires Valid()
      modifies this`cableCapacityAmps, this`maxChargingCurrentAmps, contactor
      ensures Logic(old(Vars()), cpState, ppRaw)
           == Tick(SmVars(nextState, cableCapacityAmps, maxChargingCurrentAmps), effects)
      ensures contactor.Valid() && (contactor.isClosed <==> nextState == Charging)
      ensures contactor.pinWrites == old(contactor.pinWrites) + TickPinWrites(currentState, nextState)
    {
      match currentState {
        case Idle =>
          nextState, effects := IdleCase(cpState, ppRaw);
        case Connected =>
          nextState, effects := ConnectedCase(cpState);
          assert Logic(old(Vars()), cpState, ppRaw) == ConnectedLogic(Vars(), cpState);
        case ChargingReq =>
          contactor.Close();
          effects := [ContactorClose];
          nextState := Charging;
        case Charging =>
          nextState, effects := ChargingCase(cpState);
          assert Logic(old(Vars()), cpState, ppRaw) == ChargingLogic(Vars(), cpState);
        case Ventilation =>
          effects := OpenContactor([]);
          nextState := Fault;
        case Fault =>
          effects := OpenContactor([]);
          effects := effects + [PwmDuty(Cp.MaxCurrentDuty(0))];
          nextState := if cpState == Cp.A12V then Idle else Fault;
        case Init =>
          effects := OpenContactor([]);
          effects := effects + [PwmDuty(Cp.MaxCurrentDuty(0))];
          nextState := Idle;
      }
    }

    /** The IDLE case: vehicle detection, PP read and advertisement. */
    method IdleCase(cpState: Cp.CpState, ppRaw: u16) returns (nextState: SmState, effects: seq<Effect>)
      requires Valid() && currentState == Idle
      modifies this`cableCapacityAmps, this`maxChargingCurrentAmps, contactor
      ensures IdleLogic(old(Vars()), cpState, ppRaw)
           == Tick(SmVars(nextState, cableCapacityAmps, maxChargingCurrentAmps), effects)
      ensures contactor.Valid() && !contactor.isClosed
      ensures contactor.pinWrites == old(contactor.pinWrites) + [ContactorControl.Reset]
    {
      nextState := Idle;
      effects := [];
      if cpState == Cp.B9V || cpState == Cp.C6V || cpState == Cp.D3V {
        cableCapacityAmps := PpSignal.CableCapacity(ppRaw);
        if cableCapacityAmps == PpSignal.CapacityUnknown {
          nextState := Fault;
        } else {
          maxChargingCurrentAmps := if cableCapacityAmps < EvseLimitAmps then cableCapacityAmps else EvseLimitAmps;
          effects := [PwmDuty(Cp.MaxCurrentDuty(maxChargingCurrentAmps))];
          if cpState == Cp.B9V {
            nextState := Connected;
          } else if cpState == Cp.C6V {
            nextState := ChargingReq;
          } else {
            nextState := Fault;
          }
        }
      } else if cpState == Cp.E0V || cpState == Cp.FNeg12V {
        nextState := Fault;
      }
      effects := OpenContactor(effects);
    }

    /** The CONNECTED case: the contactor is opened on every tick. */
    method ConnectedCase(cpState: Cp.CpState) returns (nextState: SmState, effects: seq<Effect>)
      requires Valid() && currentState == Connected
      modifies contactor
      ensures ConnectedLogic(Vars(), cpState)
           == Tick(SmVars(nextState, cableCapacityAmps, maxChargingCurrentAmps), effects)
      ensures contactor.Valid() && !contactor.isClosed
      ensures contactor.pinWrites == old(contactor.pinWrites) + [ContactorControl.Reset]
    {
      nextState := Connected;
      effects := [];
      if cpState == Cp.C6V {
        nextState := ChargingReq;
      } else if cpState == Cp.A12V {
        nextState := Idle;
        effects := [PwmDuty(Cp.MaxCurrentDuty(0))];
      } else if cpState == Cp.E0V || cpState == Cp.FNeg12V {
        nextState := Fault;
      }
      effects := OpenContactor(effects);
    }

    /** The CHARGING case: each exit opens the contactor first. */
    method ChargingCase(cpState: Cp.CpState) returns (nextState: SmState, effects: seq<Effect>)
      requires Valid() && currentState == Charging
      modifies contactor
      ensures ChargingLogic(Vars(), cpState)
           == Tick(SmVars(nextState, cableCapacityAmps, maxChargingCurrentAmps), effects)
      ensures contactor.Valid() && (contactor.isClosed <==> nextState == Charging)
      ensures contactor.pinWrites == old(contactor.pinWrites) + TickPinWrites(Charging, nextState)
    {
      nextState := Charging;
      effects := [];
      if cpState == Cp.B9V {
        effects := OpenContactor(effects);
        nextState := Connected;
      } else if cpState == Cp.A12V {
        effects := OpenContactor(effects);
        nextState := Idle;
        effects := effects + [PwmDuty(Cp.MaxCurrentDuty(0))];
      } else if cpState == Cp.E0V || cpState == Cp.FNeg12V {
        effects := OpenContactor(effects);
        nextState := Fault;
      }
    }

    /** SM_GetCurrentState. */
    method GetCurrentState() returns (s: SmState)
      ensures s == currentState
    {
      s := currentState;
    }
  }
}
