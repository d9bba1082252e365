/** Values that the frame codec carries between host and firmware.

    The codec itself (start/end markers, escaping, the serial port) is an
    external library and is not modelled: a frame is an id and an ordered
    sequence of typed arguments. Integer widths are bit-vectors so that the
    wrap-around of C and C# unsigned arithmetic and of `(byte)` casts is
    exactly that of the source. */
module Wire {

  type u8 = bv8
  type u16 = bv16
  type u32 = bv32

  datatype Option<+T> = None | Some(value: T) {
    predicate IsFailure() { None? }

    function PropagateFailure<U>(): Option<U>
      requires None?
    {
      None
    }

    function Extract(): T
      requires Some?
    {
      value
    }
  }

  /** One binary argument of a frame, tagged with the width it was sent with. */
  datatype Arg =
    | ByteArg(b: u8)
    | UInt16Arg(w: u16)
    | UInt32Arg(d: u32)
    | StringArg(s: string)

  /** A command (host to device) or an event (device to host). */
  datatype Frame = Frame(id: u8, args: seq<Arg>)

  /** The arguments that a loop of one-byte `AddBinArgument`/`sendCmdBinArg` calls produces. */
  function ByteArgs(bytes: seq<u8>): seq<Arg>
  {
    seq(|bytes|, i requires 0 <= i < |bytes| => ByteArg(bytes[i]))
  }

  /** The C# `(byte)n` cast of a non-negative length: `n` counted up from 0
      on eight bits, so it wraps to 0 at 256. */
  function LowByte(n: nat): u8
  {
    if n == 0 then 0 else LowByte(n - 1) + 1
  }

  /** Below 256 the cast keeps the length. */
  lemma {:induction false} LowByteBelow256(n: nat)
    requires n < 256
    ensures LowByte(n) as int == n
  {
    if n > 0 {
      LowByteBelow256(n - 1);
      IncrementBelowTop(LowByte(n - 1));
    }
  }

  lemma IncrementBelowTop(b: u8)
    requires b as int < 255
    ensures (b + 1) as int == b as int + 1
  {
  }
}
