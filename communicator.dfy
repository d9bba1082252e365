/** The firmware's event serialiser (`Communicator`): each `dispatch*`
    method starts a frame, appends its arguments one `sendCmdBinArg` at a
    time and ends it, which hands the frame to the messenger.

    The frame each dispatcher produces is also given as a pure function, so
    that the host's `Decode` can be run on it (see module `RoundTrip`). */
module FirmwareEvents {
  import opened Wire
  import opened FirmwareIds

  /** The identity the firmware reports. */
  const MANUFACTURER: string := "Spark"
  const PRODUCT: string := "SLOT-IO-Card"
  const VERSION: string := "v0.0.1"
  const PROTOCOL_VERSION: u32 := 20170123

  function GetInfoFrame(): Frame
  {
    Frame(FW_EVT_GET_INFO_RESULT,
          [StringArg(MANUFACTURER), StringArg(PRODUCT), StringArg(VERSION), UInt32Arg(PROTOCOL_VERSION)])
  }

  function CoinCounterFrame(track: u8, coins: u32): Frame
  {
    Frame(FW_EVT_COIN_COUNTER_RESULT, [ByteArg(track), UInt32Arg(coins)])
  }

  /** Always three masks behind a count of 3. */
  function KeyMasksFrame(mask0: u8, mask1: u8, mask2: u8): Frame
  {
    Frame(FW_EVT_KEY_MASKS_RESULT, [ByteArg(3), ByteArg(mask0), ByteArg(mask1), ByteArg(mask2)])
  }

  /** The count, then the first `length` bytes of the key buffer. */
  function KeysFrame(length: u8, keys: seq<u8>): Frame
    requires length as nat <= |keys|
  {
    Frame(FW_EVT_KEYS_RESULT, [ByteArg(length)] + ByteArgs(keys[..length]))
  }

  function WriteStorageFrame(address: u16, length: u8): Frame
  {
    Frame(FW_EVT_WRITE_STORAGE_RESULT, [UInt16Arg(address), ByteArg(length)])
  }

  function ReadStorageFrame(address: u16, length: u8, buffer: seq<u8>): Frame
    requires length as nat <= |buffer|
  {
    Frame(FW_EVT_READ_STORAGE_RESULT, [UInt16Arg(address), ByteArg(length)] + ByteArgs(buffer[..length]))
  }

  function ErrorEjectInterruptedFrame(track: u8, count: u8): Frame
  {
    Frame(FW_EVT_ERROR, [ByteArg(FW_ERR_EJECT_INTERRUPTED), ByteArg(track), ByteArg(count)])
  }

  function ErrorEjectTimeoutFrame(track: u8, coins: u8): Frame
  {
    Frame(FW_EVT_ERROR, [ByteArg(FW_ERR_EJECT_TIMEOUT), ByteArg(track), ByteArg(coins)])
  }

  /** `code` is what the `ERR_NOT_A_TRACK` macro expands to where the
      dispatcher is compiled: 0x03 from the id table, 0xFF once
      `Configuration.h` has redefined it. */
  function ErrorNotATrackFrame(code: u8, track: u8): Frame
  {
    Frame(FW_EVT_ERROR, [ByteArg(code), ByteArg(track)])
  }

  function ErrorNotACounterFrame(counter: u8): Frame
  {
    Frame(FW_EVT_ERROR, [ByteArg(FW_ERR_NOT_A_COUNTER), ByteArg(counter)])
  }

  function ErrorProtectedStorageFrame(address: u16): Frame
  {
    Frame(FW_EVT_ERROR, [ByteArg(FW_ERR_PROTECTED_STORAGE), UInt16Arg(address)])
  }

  /** The largest length the firmware accepts, then the length it was asked for. */
  function ErrorTooLongFrame(maxBytesLength: u8, length: u8): Frame
  {
    Frame(FW_EVT_ERROR, [ByteArg(FW_ERR_TOO_LONG), ByteArg(maxBytesLength), ByteArg(length)])
  }

  function ErrorUnknownCommandFrame(command: u8): Frame
  {
    Frame(FW_EVT_ERROR, [ByteArg(FW_ERR_UNKNOWN_COMMAND), ByteArg(command)])
  }

  class Communicator {
    /** What `ERR_NOT_A_TRACK` expands to in this translation unit. */
    const notATrackCode: u8
    /** `MAX_BYTES_LENGTH` and `IN_MASK_0..2`, defined outside the files modelled. */
    const maxBytesLength: u8
    const inMask0: u8
    const inMask1: u8
    const inMask2: u8

    /** The frames handed to the messenger, oldest first. */
    var sent: seq<Frame>
    /** The frame being built between `sendCmdStart` and `sendCmdEnd`. */
    var cmdId: u8
    var cmdArgs: seq<Arg>

    constructor (notATrackCode: u8, maxBytesLength: u8, inMask0: u8, inMask1: u8, inMask2: u8)
      ensures this.notATrackCode == notATrackCode && this.maxBytesLength == maxBytesLength
      ensures this.inMask0 == inMask0 && this.inMask1 == inMask1 && this.inMask2 == inMask2
      ensures sent == [] && cmdArgs == []
    {
      this.notATrackCode := notATrackCode;
      this.maxBytesLength := maxBytesLength;
      this.inMask0 := inMask0;
      this.inMask1 := inMask1;
      this.inMask2 := inMask2;
      sent := [];
      cmdArgs := [];
    }

    /** The last frame built is `f` and it has been handed over. */
    predicate Emitted(f: Frame)
      reads this
    {
      cmdId == f.id && cmdArgs == f.args
    }

    method SendCmdStart(id: u8)
      modifies this
      ensures cmdId == id && cmdArgs == [] && sent == old(sent)
    {
      cmdId := id;
      cmdArgs := [];
    }

    method SendCmdArg(a: Arg)
      modifies this
      ensures cmdId == old(cmdId) && cmdArgs == old(cmdArgs) + [a] && sent == old(sent)
    {
      cmdArgs := cmdArgs + [a];
    }

    method SendCmdEnd()
      modifies this
      ensures cmdId == old(cmdId) && cmdArgs == old(cmdArgs)
      ensures sent == old(sent) + [Frame(cmdId, cmdArgs)]
    {
      sent := sent + [Frame(cmdId, cmdArgs)];
    }

    method DispatchGetInfoResult()
      modifies this
      ensures sent == old(sent) + [GetInfoFrame()] && Emitted(GetInfoFrame())
    {
      SendCmdStart(FW_EVT_GET_INFO_RESULT);
      SendCmdArg(StringArg(MANUFACTURER));
      SendCmdArg(StringArg(PRODUCT));
      SendCmdArg(StringArg(VERSION));
      SendCmdArg(UInt32Arg(PROTOCOL_VERSION));
      assert cmdArgs == GetInfoFrame().args;
      SendCmdEnd();
    }

    method DispatchCoinCounterResult(track: u8, coins: u32)
      modifies this
      ensures sent == old(sent) + [CoinCounterFrame(track, coins)] && Emitted(CoinCounterFrame(track, coins))
    {
      SendCmdStart(FW_EVT_COIN_COUNTER_RESULT);
      SendCmdArg(ByteArg(track));
      SendCmdArg(UInt32Arg(coins));
      assert cmdArgs == CoinCounterFrame(track, coins).args;
      SendCmdEnd();
    }

    method DispatchKeyMasksResult()
      modifies this
      ensures sent == old(sent) + [KeyMasksFrame(inMask0, inMask1, inMask2)]
      ensures Emitted(KeyMasksFrame(inMask0, inMask1, inMask2))
    {
      SendCmdStart(FW_EVT_KEY_MASKS_RESULT);
      SendCmdArg(ByteArg(3));
      SendCmdArg(ByteArg(inMask0));
      SendCmdArg(ByteArg(inMask1));
      SendCmdArg(ByteArg(inMask2));
      assert cmdArgs == KeyMasksFrame(inMask0, inMask1, inMask2).args;
      SendCmdEnd();
    }

    /** `keys` must hold at least `length` bytes. */
    method DispatchKeysResult(length: u8, keys: seq<u8>)
      requires length as nat <= |keys|
      modifies this
      ensures sent == old(sent) + [KeysFrame(length, keys)] && Emitted(KeysFrame(length, keys))
    {
      SendCmdStart(FW_EVT_KEYS_RESULT);
      SendCmdArg(ByteArg(length));
      var i := 0;
      while i < length as nat
        invariant 0 <= i <= length as nat && cmdId == FW_EVT_KEYS_RESULT && sent == old(sent)
        invariant |cmdArgs| == 1 + i && cmdArgs[0] == ByteArg(length)
        invariant forall k :: 0 <= k < i ==> cmdArgs[1 + k] == ByteArg(keys[k])
      {
        SendCmdArg(ByteArg(keys[i]));
        i := i + 1;
      }
      assert cmdArgs == KeysFrame(length, keys).args;
      SendCmdEnd();
    }

    method DispatchWriteStorageResult(address: u16, length: u8)
      modifies this
      ensures sent == old(sent) + [WriteStorageFrame(address, length)]
      ensures Emitted(WriteStorageFrame(address, length))
    {
      SendCmdStart(FW_EVT_WRITE_STORAGE_RESULT);
      SendCmdArg(UInt16Arg(address));
      SendCmdArg(ByteArg(length));
      assert cmdArgs == WriteStorageFrame(address, length).args;
      SendCmdEnd();
    }

    /** `buffer` must hold at least `length` bytes. */
    method DispatchReadStorageResult(address: u16, length: u8, buffer: seq<u8>)
      requires length as nat <= |buffer|
      modifies this
      ensures sent == old(sent) + [ReadStorageFrame(address, length, buffer)]
      ensures Emitted(ReadStorageFrame(address, length, buffer))
    {
      SendCmdStart(FW_EVT_READ_STORAGE_RESULT);
      SendCmdArg(UInt16Arg(address));
      SendCmdArg(ByteArg(length));
      var i := 0;
      while i < length as nat
        invariant 0 <= i <= length as nat && cmdId == FW_EVT_READ_STORAGE_RESULT && sent == old(sent)
        invariant |cmdArgs| == 2 + i && cmdArgs[0] == UInt16Arg(address) && cmdArgs[1] == ByteArg(length)
        invariant forall k :: 0 <= k < i ==> cmdArgs[2 + k] == ByteArg(buffer[k])
      {
        SendCmdArg(ByteArg(buffer[i]));
        i := i + 1;
      }
      assert cmdArgs == ReadStorageFrame(address, length, buffer).args;
      SendCmdEnd();
    }

    method DispatchErrorEjectInterrupted(track: u8, count: u8)
      modifies this
      ensures sent == old(sent) + [ErrorEjectInterruptedFrame(track, count)]
      ensures Emitted(ErrorEjectInterruptedFrame(track, count))
    {
      SendCmdStart(FW_EVT_ERROR);
      SendCmdArg(ByteArg(FW_ERR_EJECT_INTERRUPTED));
      SendCmdArg(ByteArg(track));
      SendCmdArg(ByteArg(count));
      assert cmdArgs == ErrorEjectInterruptedFrame(track, count).args;
      SendCmdEnd();
    }

    method DispatchErrorEjectTimeout(track: u8, coins: u8)
      modifies this
      ensures sent == old(sent) + [ErrorEjectTimeoutFrame(track, coins)]
      ensures Emitted(ErrorEjectTimeoutFrame(track, coins))
    {
      SendCmdStart(FW_EVT_ERROR);
      SendCmdArg(ByteArg(FW_ERR_EJECT_TIMEOUT));
      SendCmdArg(ByteArg(track));
      SendCmdArg(ByteArg(coins));
      assert cmdArgs == ErrorEjectTimeoutFrame(track, coins).args;
      SendCmdEnd();
    }

    method DispatchErrorNotATrack(track: u8)
      modifies this
      ensures sent == old(sent) + [ErrorNotATrackFrame(notATrackCode, track)]
      ensures Emitted(ErrorNotATrackFrame(notATrackCode, track))
    {
      SendCmdStart(FW_EVT_ERROR);
      SendCmdArg(ByteArg(notATrackCode));
      SendCmdArg(ByteArg(track));
      assert cmdArgs == ErrorNotATrackFrame(notATrackCode, track).args;
      SendCmdEnd();
    }

    method DispatchErrorNotACounter(counter: u8)
      modifies this
      ensures sent == old(sent) + [ErrorNotACounterFrame(counter)]
      ensures Emitted(ErrorNotACounterFrame(counter))
    {
      SendCmdStart(FW_EVT_ERROR);
      SendCmdArg(ByteArg(FW_ERR_NOT_A_COUNTER));
      SendCmdArg(ByteArg(counter));
      assert cmdArgs == ErrorNotACounterFrame(counter).args;
      SendCmdEnd();
    }

    method DispatchErrorProtectedStorage(address: u16)
      modifies this
      ensures sent == old(sent) + [ErrorProtectedStorageFrame(address)]
      ensures Emitted(ErrorProtectedStorageFrame(address))
    {
      SendCmdStart(FW_EVT_ERROR);
      SendCmdArg(ByteArg(FW_ERR_PROTECTED_STORAGE));
      SendCmdArg(UInt16Arg(address));
      assert cmdArgs == ErrorProtectedStorageFrame(address).args;
      SendCmdEnd();
    }

    method DispatchErrorTooLong(length: u8)
      modifies this
      ensures sent == old(sent) + [ErrorTooLongFrame(maxBytesLength, length)]
      ensures Emitted(ErrorTooLongFrame(maxBytesLength, length))
    {
      SendCmdStart(FW_EVT_ERROR);
      SendCmdArg(ByteArg(FW_ERR_TOO_LONG));
      SendCmdArg(ByteArg(maxBytesLength));
      SendCmdArg(ByteArg(length));
      assert cmdArgs == ErrorTooLongFrame(maxBytesLength, length).args;
      SendCmdEnd();
    }

    method DispatchErrorUnknownCommand(command: u8)
      modifies this
      ensures sent == old(sent) + [ErrorUnknownCommandFrame(command)]
      ensures Emitted(ErrorUnknownCommandFrame(command))
    {
      SendCmdStart(FW_EVT_ERROR);
      SendCmdArg(ByteArg(FW_ERR_UNKNOWN_COMMAND));
      SendCmdArg(ByteArg(command));
      assert cmdArgs == ErrorUnknownCommandFrame(command).args;
      SendCmdEnd();
    }
  }
}
