// The 64-slot byte ring buffer used by both UART drivers (RingBuffer_t of
// uart_driver.c and HLW_RingBuffer_t of hlw_uart_driver.c have the same
// layout and the same Init/IsFull/IsEmpty/Put/Get code). The slots are
// updated in place through head, tail and count; the ghost sequence
// Contents is the queue they stand for, oldest byte first.
module RingBuffers {
  import opened MachineInts

  /** UART_RX_BUFFER_SIZE and HLW_UART_BUFFER_SIZE. */
  const BufferSize: int := 64

  /** Slot i positions after `from`, around the ring. */
  function Slot(from: int, i: int): int
  {
    (from + i) % BufferSize
  }

  lemma SlotShift(tail: int, i: int)
    requires 0 <= tail && 0 <= i
    ensures Slot(Slot(tail, 1), i) == Slot(tail, i + 1)
  {
  }

  /** The `count` slots from `tail` are pairwise distinct and miss `head`. */
  lemma SlotsDistinct(tail: int, i: int, j: int)
    requires 0 <= tail && 0 <= i < j <= BufferSize - 1
    ensures Slot(tail, i) != Slot(tail, j)
  {
  }

  class RingBuffer {
    const buffer: array<u8>
    var head: u16
    var tail: u16
    var count: u16
    /** The bytes held, oldest first. */
    ghost var Contents: seq<u8>

    /**
     * head, tail and count stay in range, head is count slots after tail,
     * and the count slots from tail hold Contents in order.
     */
    ghost predicate Valid()
      reads this, buffer
    {
      buffer.Length == BufferSize &&
      head < BufferSize && tail < BufferSize && count <= BufferSize &&
      head == Slot(tail, count) &&
      |Contents| == count &&
      forall i :: 0 <= i < count ==> Contents[i] == buffer[Slot(tail, i)]
    }

    /** The zero-initialised static buffer. */
    constructor ()
      ensures Valid() && fresh(buffer)
      ensures Contents == [] && head == 0 && tail == 0 && count == 0
    {
      buffer := new u8[BufferSize](_ => 0);
      head, tail, count := 0, 0, 0;
      Contents := [];
    }

    /** RingBuffer_Init: head, tail and count to 0; the slots are left as they are. */
    method Init()
      requires buffer.Length == BufferSize
      modifies this
      ensures Valid()
      ensures Contents == [] && head == 0 && tail == 0 && count == 0
    {
      head, tail, count := 0, 0, 0;
      Contents := [];
    }

    /** RingBuffer_IsFull: count has reached the buffer size. */
    function IsFull(): (full: bool)
      reads this, buffer
      requires Valid()
      ensures full <==> |Contents| == BufferSize
    {
      count >= BufferSize
    }

    /** RingBuffer_IsEmpty. */
    function IsEmpty(): (empty: bool)
      reads this, buffer
      requires Valid()
      ensures empty <==> Contents == []
    {
      count == 0
    }

    /**
     * RingBuffer_Put: on a full buffer returns false and changes nothing;
     * otherwise stores at head, advances head around the ring, counts the
     * byte and returns true.
     */
    method Put(data: u8) returns (ok: bool)
      requires Valid()
      modifies this, buffer
      ensures Valid()
      ensures ok <==> |old(Contents)| < BufferSize
      ensures ok ==> Contents == old(Contents) + [data]
      ensures !ok ==> Contents == old(Contents) && buffer[..] == old(buffer[..]) &&
                      head == old(head) && tail == old(tail) && count == old(count)
    {
      if IsFull() {
        return false;
      }
      buffer[head] := data;
      forall i | 0 <= i < count
        ensures Slot(tail, i) != head
      {
        SlotsDistinct(tail, i, count as int);
      }
      head := (head + 1) % BufferSize;
      count := count + 1;
      Contents := Contents + [data];
      ok := true;
    }

    /**
     * RingBuffer_Get: on an empty buffer returns false and changes nothing;
     * otherwise returns the byte at tail, advances tail and uncounts it.
     */
    method Get() returns (ok: bool, data: u8)
      requires Valid()
      modifies this
      ensures Valid()
      ensures ok <==> old(Contents) != []
      ensures ok ==> data == old(Contents)[0] && Contents == old(Contents)[1..]
      ensures !ok ==> Contents == old(Contents) &&
                      head == old(head) && tail == old(tail) && count == old(count)
    {
      if IsEmpty() {
        return false, 0;
      }
      data := buffer[tail];
      assert data == Contents[0] by { assert Slot(tail, 0) == tail; }
      forall i | 0 <= i < count - 1
        ensures Contents[i + 1] == buffer[Slot(Slot(tail, 1), i)]
      {
        SlotShift(tail as int, i);
      }
      tail := (tail + 1) % BufferSize;
      count := count - 1;
      Contents := Contents[1..];
      ok := true;
    }
  }
}
