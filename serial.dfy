/**
 * The UART the firmware writes its frames to.  The hardware FIFO and the
 * baud-rate timing are not modelled: the port is the sequence of bytes handed
 * to it so far.
 */
module Serial {
  import opened CInt

  class Uart {
    /** Every byte handed to `uart_putc_raw`, oldest first. */
    var sent: seq<Byte>

    constructor ()
      ensures sent == []
    {
      sent := [];
    }

    /**
     * `uart_putc_raw`: the `int` argument is converted to the unsigned `char`
     * parameter, so only its low eight bits are sent (`-1` goes out as 0xFF).
     */
    method PutcRaw(c: int)
      modifies this
      ensures sent == old(sent) + [LowByte(c)]
    {
      sent := sent + [LowByte(c)];
    }
  }
}
