// The error latch of error_handler.c and the error codes of error_codes.h.
module ErrorHandler {

  /** ErrorCode_t, in declaration order. */
  datatype ErrorCode =
    | NoError
    | UnknownError
    | Timeout
    | BufferFull
    | InvalidParam
    | NotImplemented
    | Uart1InitFailed
    | Uart2InitFailed
    | PwmInitFailed
    | AdcInitFailed
    | OledInitFailed
    | IwdtInitFailed
    | SysTickInitFailed
    | GpioInitFailed
    | SpiInitFailed
    | HlwChecksum
    | HlwUartTimeout
    | HlwFrame
    | CpVoltageInvalid
    | PpResistanceInvalid
    | ContactorFault
    | Overcurrent
    | Overvoltage
    | Undervoltage
    | TemperatureHigh
    | GfciFault
    | StateInvalid

  /** The codes for which the handler disables interrupts and spins forever. */
  predicate IsFatal(code: ErrorCode)
  {
    code == Uart1InitFailed || code == SysTickInitFailed
  }

  /**
   * The single-slot latch `last_error_code`. The `while(1)` halt of the
   * fatal branch is the flag `halted`: once it is set no code of the
   * firmware runs again, so every operation that may report an error
   * requires `!halted`.
   */
  class ErrorLatch {
    var lastErrorCode: ErrorCode
    var halted: bool

    /** Static initialisation: the latch starts empty. */
    constructor ()
      ensures lastErrorCode == NoError && !halted
    {
      lastErrorCode := NoError;
      halted := false;
    }

    /**
     * ErrorHandler_Handle: stores the code (overwriting any earlier one),
     * then halts for the two fatal codes and returns for every other code.
     * The module name and line number are only logged.
     */
    method Handle(code: ErrorCode)
      requires !halted
      modifies this
      ensures lastErrorCode == code
      ensures halted <==> IsFatal(code)
    {
      lastErrorCode := code;
      if code == Uart1InitFailed || code == SysTickInitFailed {
        halted := true;
      }
    }

    /** ErrorHandler_GetLast: a pure read of the latch. */
    method GetLast() returns (code: ErrorCode)
      ensures code == lastErrorCode
    {
      code := lastErrorCode;
    }
  }
}
