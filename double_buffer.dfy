/**
 * The render-data double buffer shared by the game and render threads
 * (engine/src/main.cpp:56-60, game/src/engine/main.cpp:131-136): two
 * buffers and an atomic read index. The game thread writes the buffer the
 * renderer is not reading and then flips the index. Each buffer's mutex and
 * the atomic's memory order are not modelled: every access is one step.
 */
module DoubleBuffer {
  /** A buffer index: 0 or 1. */
  type Slot = i: nat | i < 2

  /** The other buffer. */
  function Other(i: Slot): (o: Slot)
    ensures o != i
  {
    1 - i
  }

  /** Flipping twice gives the index back. */
  lemma OtherInvolution(i: Slot)
    ensures Other(Other(i)) == i
  {
  }

  class DoubleBuffer<D> {
    /** `rend_data[2]` */
    const rendData: array<D>
    /** `current_read_buffer` */
    var currentReadBuffer: Slot

    ghost predicate Valid()
      reads this
    {
      rendData.Length == 2
    }

    /** Both buffers start as `initial`; the renderer reads buffer 0. */
    constructor (initial: D)
      ensures Valid() && fresh(rendData)
      ensures currentReadBuffer == 0 && rendData[..] == [initial, initial]
    {
      rendData := new D[2] [initial, initial];
      currentReadBuffer := 0;
    }

    /** The index `GetWriteBuffer` uses: never the buffer being read. */
    function WriteIndex(): (w: Slot)
      reads this
      ensures w != currentReadBuffer
      ensures {w, currentReadBuffer} == {0, 1}
    {
      Other(currentReadBuffer)
    }

    /** What `GetReadBuffer` refers to. */
    function ReadValue(): D
      reads this, rendData
      requires Valid()
    {
      rendData[currentReadBuffer]
    }

    /** What `GetWriteBuffer` refers to. */
    function WriteValue(): D
      reads this, rendData
      requires Valid()
    {
      rendData[WriteIndex()]
    }

    /** The producer's writes into `GetWriteBuffer()`: the read buffer is not touched. */
    method Write(d: D)
      requires Valid()
      modifies rendData
      ensures rendData[..] == old(rendData[..])[WriteIndex() := d]
      ensures WriteValue() == d && ReadValue() == old(ReadValue())
    {
      rendData[WriteIndex()] := d;
    }

    /** `SwapBuffers()`: the buffer just written becomes the one read; contents unchanged. */
    method SwapBuffers()
      requires Valid()
      modifies this`currentReadBuffer
      ensures currentReadBuffer == old(WriteIndex())
      ensures WriteIndex() == old(currentReadBuffer)
    {
      currentReadBuffer := Other(currentReadBuffer);
      OtherInvolution(old(currentReadBuffer));
    }

    /** The reader's copy of `GetReadBuffer()`. */
    method GetReadBuffer() returns (d: D)
      requires Valid()
      ensures d == rendData[currentReadBuffer]
    {
      d := rendData[currentReadBuffer];
    }
  }
}
