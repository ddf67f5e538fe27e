// The debug UART driver of uart_driver.c around its two ring buffers: the
// receive interrupt fills rx, UART_Read drains it, and the transmit-empty
// interrupt drains tx onto the wire or switches itself off.
module UartDriver {
  import opened MachineInts
  import opened RingBuffers

  class DebugUart {
    const txBuffer: RingBuffer
    const rxBuffer: RingBuffer
    /** Whether the TXE interrupt is enabled in the UART's IER. */
    var txeEnabled: bool
    /** The bytes written to the data register, oldest first. */
    var sent: seq<u8>

    ghost predicate Valid()
      reads this, txBuffer, rxBuffer, txBuffer.buffer, rxBuffer.buffer
    {
      txBuffer.Valid() && rxBuffer.Valid() &&
      txBuffer != rxBuffer && txBuffer.buffer != rxBuffer.buffer
    }

    /** The static tx_buffer and rx_buffer, TXE off, nothing sent. */
    constructor ()
      ensures Valid() && fresh(txBuffer) && fresh(rxBuffer) && fresh(txBuffer.buffer) && fresh(rxBuffer.buffer)
      ensures txBuffer.Contents == [] && rxBuffer.Contents == []
      ensures !txeEnabled && sent == []
    {
      txBuffer := new RingBuffer();
      rxBuffer := new RingBuffer();
      txeEnabled := false;
      sent := [];
    }

    /**
     * UART_Driver_Init (pin, clock and baud configuration left out): both
     * buffers emptied, TXE disabled, and success reported unconditionally.
     */
    method Init(baudRate: u32) returns (ok: bool)
      requires Valid()
      modifies this, txBuffer, rxBuffer
      ensures Valid() && ok
      ensures txBuffer.Contents == [] && rxBuffer.Contents == []
      ensures !txeEnabled && sent == old(sent)
    {
      txBuffer.Init();
      rxBuffer.Init();
      txeEnabled := false;
      ok := true;
    }

    /** UART_Read: -1 when nothing was received, otherwise the oldest byte. */
    method Read() returns (r: int)
      requires Valid()
      modifies rxBuffer
      ensures Valid()
      ensures r == -1 <==> old(rxBuffer.Contents) == []
      ensures r != -1 ==> 0 <= r < Two8 && r == old(rxBuffer.Contents)[0] &&
                          rxBuffer.Contents == old(rxBuffer.Contents)[1..]
      ensures r == -1 ==> rxBuffer.Contents == old(rxBuffer.Contents)
    {
      var ok, data := rxBuffer.Get();
      if ok {
        r := data;
      } else {
        r := -1;
      }
    }

    /** UART_DataAvailable: the receive buffer is not empty. */
    method DataAvailable() returns (available: bool)
      requires Valid()
      ensures available <==> |rxBuffer.Contents| > 0
    {
      available := !rxBuffer.IsEmpty();
    }

    /**
     * UART_Driver_Handle_TXE: sends the oldest pending byte, or disables
     * the TXE interrupt when nothing is pending.
     */
    method HandleTxe()
      requires Valid()
      modifies this, txBuffer
      ensures Valid()
      ensures old(txBuffer.Contents) != [] ==>
        sent == old(sent) + [old(txBuffer.Contents)[0]] &&
        txBuffer.Contents == old(txBuffer.Contents)[1..] && txeEnabled == old(txeEnabled)
      ensures old(txBuffer.Contents) == [] ==>
        sent == old(sent) && txBuffer.Contents == [] && !txeEnabled
    {
      var ok, data := txBuffer.Get();
      if ok {
        sent := sent + [data];
      } else {
        txeEnabled := false;
      }
    }

    /**
     * UART_Driver_Handle_RC given the RC flag and the received byte: when
     * the flag is set the byte is queued, or silently lost if rx is full.
     */
    method HandleRc(rcFlag: bool, data: u8)
      requires Valid()
      modifies rxBuffer, rxBuffer.buffer
      ensures Valid()
      ensures rcFlag && |old(rxBuffer.Contents)| < BufferSize ==>
        rxBuffer.Contents == old(rxBuffer.Contents) + [data]
      ensures !rcFlag || |old(rxBuffer.Contents)| == BufferSize ==>
        rxBuffer.Contents == old(rxBuffer.Contents)
    {
      if rcFlag {
        var _ := rxBuffer.Put(data);
      }
    }
  }
}
