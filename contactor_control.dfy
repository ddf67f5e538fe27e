// The contactor relay driver of contactor_control.c: a GPIO output plus the
// commanded-state flag `contactor_is_closed`. There is no feedback input.
module ContactorControl {

  /** GPIO_Pin_RESET / GPIO_Pin_SET. */
  datatype PinLevel = Reset | Set

  /** Logic levels configured for the two commands. */
  const OpenLogicLevel: int := 0
  const ClosedLogicLevel: int := 1

  /** The `if (LEVEL == 0) RESET else SET` choice of Open and Close. */
  function PinFor(logicLevel: int): (level: PinLevel)
    ensures level == Reset <==> logicLevel == 0
  {
    if logicLevel == 0 then Reset else Set
  }

  /** True when the last level written to the pin drives the relay closed. */
  predicate LastWriteCloses(writes: seq<PinLevel>)
  {
    |writes| > 0 && writes[|writes| - 1] == PinFor(ClosedLogicLevel)
  }

  class Contactor {
    /** contactor_is_closed: the last commanded state. */
    var isClosed: bool
    /** Every level written to the contactor pin, oldest first. */
    var pinWrites: seq<PinLevel>

    /** The flag always agrees with the last level written to the pin. */
    ghost predicate Valid()
      reads this
    {
      isClosed <==> LastWriteCloses(pinWrites)
    }

    /** Static initialisation: flag false, nothing written yet. */
    constructor ()
      ensures Valid() && !isClosed && pinWrites == []
    {
      isClosed := false;
      pinWrites := [];
    }

    /** Contactor_Init (GPIO configuration left out): ends open. */
    method Init()
      requires Valid()
      modifies this
      ensures Valid() && !isClosed
      ensures pinWrites == old(pinWrites) + [Reset]
    {
      Open();
    }

    /** Contactor_Open: writes the RESET level and clears the flag. */
    method Open()
      requires Valid()
      modifies this
      ensures Valid() && !isClosed
      ensures pinWrites == old(pinWrites) + [Reset]
    {
      pinWrites := pinWrites + [PinFor(OpenLogicLevel)];
      isClosed := false;
    }

    /** Contactor_Close: writes the SET level and sets the flag. */
    method Close()
      requires Valid()
      modifies this
      ensures Valid() && isClosed
      ensures pinWrites == old(pinWrites) + [Set]
    {
      pinWrites := pinWrites + [PinFor(ClosedLogicLevel)];
      isClosed := true;
    }

    /** Contactor_IsClosed: the commanded state, not a physical reading. */
    method IsClosed() returns (closed: bool)
      requires Valid()
      ensures closed == isClosed
      ensures closed <==> LastWriteCloses(pinWrites)
    {
      closed := isClosed;
    }
  }

  /**
   * The last command wins: whatever was written before, a final Open leaves
   * the relay commanded open and a final Close leaves it commanded closed;
   * repeating a command changes nothing about the commanded state.
   */
  lemma LastCommandWins(writes: seq<PinLevel>, level: PinLevel)
    ensures LastWriteCloses(writes + [level]) <==> level == Set
    ensures LastWriteCloses(writes + [level] + [level]) == LastWriteCloses(writes + [level])
  {
  }
}
