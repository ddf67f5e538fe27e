// The receive-only UART2 driver of hlw_uart_driver.c that collects the
// HLW8032 metering frames: one ring buffer filled by the RC interrupt, which
// reports ERROR_BUFFER_FULL when a byte has to be dropped.
module HlwUartDriver {
  import opened MachineInts
  import opened RingBuffers
  import ErrorHandler

  class HlwUart {
    const rxBuffer: RingBuffer
    /** The error latch the receive handler reports into. */
    const latch: ErrorHandler.ErrorLatch

    ghost predicate Valid()
      reads this, rxBuffer, rxBuffer.buffer
    {
      rxBuffer.Valid()
    }

    /** The static hlw_rx_buffer. */
    constructor (latch: ErrorHandler.ErrorLatch)
      ensures Valid() && fresh(rxBuffer) && fresh(rxBuffer.buffer)
      ensures rxBuffer.Contents == [] && this.latch == latch
    {
      rxBuffer := new RingBuffer();
      this.latch := latch;
    }

    /** HLW_UART_Init (peripheral configuration left out): empties the buffer, reports success. */
    method Init(baudRate: u32) returns (ok: bool)
      requires Valid()
      modifies rxBuffer
      ensures Valid() && ok && rxBuffer.Contents == []
    {
      rxBuffer.Init();
      ok := true;
    }

    /** HLW_UART_Read: -1 when nothing was received, otherwise the oldest byte. */
    method Read() returns (r: int)
      requires Valid()
      modifies rxBuffer
      ensures Valid()
      ensures r == -1 <==> old(rxBuffer.Contents) == []
      ensures r != -1 ==> 0 <= r < Two8 && r == old(rxBuffer.Contents)[0] &&
                          rxBuffer.Contents == old(rxBuffer.Contents)[1..]
      ensures r == -1 ==> rxBuffer.Contents == old(rxBuffer.Contents)
    {
      var ok, data := rxBuffer.Get();
      if ok {
        r := data;
      } else {
        r := -1;
      }
    }

    /** HLW_UART_DataAvailable: the buffer is not empty. */
    method DataAvailable() returns (available: bool)
      requires Valid()
      ensures available <==> |rxBuffer.Contents| > 0
    {
      available := !rxBuffer.IsEmpty();
    }

    /**
     * HLW_UART_Handle_RC given the RC flag and the received byte: when the
     * flag is set the byte is queued; if the buffer is full it is dropped
     * and ERROR_BUFFER_FULL is reported. With the flag clear nothing happens.
     */
    method HandleRc(rcFlag: bool, data: u8)
      requires Valid() && !latch.halted
      modifies rxBuffer, rxBuffer.buffer, latch
      ensures Valid() && !latch.halted
      ensures rcFlag && |old(rxBuffer.Contents)| < BufferSize ==>
        rxBuffer.Contents == old(rxBuffer.Contents) + [data] &&
        latch.lastErrorCode == old(latch.lastErrorCode)
      ensures rcFlag && |old(rxBuffer.Contents)| == BufferSize ==>
        rxBuffer.Contents == old(rxBuffer.Contents) &&
        latch.lastErrorCode == ErrorHandler.BufferFull
      ensures !rcFlag ==>
        rxBuffer.Contents == old(rxBuffer.Contents) &&
        latch.lastErrorCode == old(latch.lastErrorCode)
    {
      if rcFlag {
        var ok := rxBuffer.Put(data);
        if !ok {
          latch.Handle(ErrorHandler.BufferFull);
        }
      }
    }
  }
}
