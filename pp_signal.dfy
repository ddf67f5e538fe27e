// Proximity-pilot classifier of pp_signal.c: one raw CH2 sample of the
// 1 kOhm pull-up divider is mapped to the current capacity of the cable,
// following the resistor coding of Annex B of IEC 61851-1.
module PpSignal {
  import opened MachineInts

  /** PP_CAPACITY_* of pp_signal.h. */
  const CapacityUnknown: int := 0
  const Capacity13A: int := 13
  const Capacity20A: int := 20
  const Capacity32A: int := 32
  const Capacity63A: int := 63

  const Band13ALow: int := 2200
  const Band13AHigh: int := 2700
  const Band20ALow: int := 1400
  const Band20AHigh: int := 1900
  const Band32ALow: int := 500
  const Band32AHigh: int := 1000
  const Band63ALow: int := 200
  const Band63AHigh: int := 500

  /**
   * PP_GetCableCapacity given the single raw sample it reads: the first
   * band (in the order 13, 20, 32, 63 A) that holds the sample decides, and
   * a sample in no band yields PP_CAPACITY_UNKNOWN. No error is reported.
   */
  function CableCapacity(raw: u16): (cap: u16)
    ensures cap in {CapacityUnknown, Capacity13A, Capacity20A, Capacity32A, Capacity63A}
  {
    if Band13ALow <= raw <= Band13AHigh then Capacity13A
    else if Band20ALow <= raw <= Band20AHigh then Capacity20A
    else if Band32ALow <= raw <= Band32AHigh then Capacity32A
    else if Band63ALow <= raw <= Band63AHigh then Capacity63A
    else CapacityUnknown
  }

  /**
   * The bands, each in both directions. The 32 A and 63 A bands share the
   * sample 500; first-match order gives it to 32 A, so 63 A covers
   * [200, 499] only.
   */
  lemma CableCapacityBands(raw: u16)
    ensures CableCapacity(raw) == Capacity13A <==> 2200 <= raw <= 2700
    ensures CableCapacity(raw) == Capacity20A <==> 1400 <= raw <= 1900
    ensures CableCapacity(raw) == Capacity32A <==> 500 <= raw <= 1000
    ensures CableCapacity(raw) == Capacity63A <==> 200 <= raw <= 499
    ensures CableCapacity(raw) == CapacityUnknown <==>
      raw < 200 || 1000 < raw < 1400 || 1900 < raw < 2200 || 2700 < raw
  {
  }

  /** Open circuit (full scale 4095) and a short (0) are both unknown. */
  lemma OpenAndShortAreUnknown()
    ensures CableCapacity(4095) == CapacityUnknown
    ensures CableCapacity(0) == CapacityUnknown
    ensures CableCapacity(500) == Capacity32A
  {
  }

  /**
   * The nominal sample of each coding resistor R (4095 * R / (1000 + R) on
   * the divider) falls inside the band of its capacity: 1.5 kOhm -> 13 A,
   * 680 Ohm -> 20 A, 220 Ohm -> 32 A, 100 Ohm -> 63 A.
   */
  function NominalRaw(rOhms: nat): nat
  {
    4095 * rOhms / (1000 + rOhms)
  }

  lemma NominalResistorsClassify()
    ensures NominalRaw(1500) == 2457 && CableCapacity(NominalRaw(1500)) == Capacity13A
    ensures NominalRaw(680) == 1657 && CableCapacity(NominalRaw(680)) == Capacity20A
    ensures NominalRaw(220) == 738 && CableCapacity(NominalRaw(220)) == Capacity32A
    ensures NominalRaw(100) == 372 && CableCapacity(NominalRaw(100)) == Capacity63A
  {
  }
}
