/** The connection side of the C# driver (`IOCard`): the `Query*` command
    encoders, `Connect`/`Disconnect`, and the receive path that runs the
    decode table of `_attachCallbacks` over a received frame.

    The `CmdMessenger` instance is represented by `connected` (whether
    `mMessenger` is set) and `sendQueue` (the commands handed to it and not
    yet transmitted). Transmission, the serial port and the lock are left to
    the external codec. */
module IOCardDriver {
  import opened Wire
  import opened HostProtocol

  /** CommandMessenger's `SendQueue` argument. */
  datatype SendQueue = InFrontQueue | AtEndQueue

  /** The `OnConnected` / `OnDisconnected` notifications. */
  datatype Notice = Connected | Disconnected

  /** `Connect` reports its two failures with an exception; here they are results. */
  datatype ConnectResult = ConnectOk | AlreadyConnected | ConnectFailed

  /** Where `SendCommand` puts a command in the send queue. */
  function Enqueue(q: seq<Frame>, cmd: Frame, pos: SendQueue): seq<Frame>
  {
    if pos == InFrontQueue then [cmd] + q else q + [cmd]
  }

  /** The default `queuePosition` of the `Query*` method for a command id. */
  function DefaultPosition(cmdId: u8): SendQueue
  {
    if cmdId in {CMD_GET_INFO, CMD_GET_KEYS, CMD_SET_OUTPUT, CMD_READ_STORAGE} then AtEndQueue
    else InFrontQueue
  }

  /** Passive queries go to the end of the queue; everything else, the
      ejection and audit commands in particular, goes to the front. */
  lemma DefaultPositions()
    ensures DefaultPosition(CMD_GET_INFO) == AtEndQueue
    ensures DefaultPosition(CMD_GET_KEYS) == AtEndQueue
    ensures DefaultPosition(CMD_SET_OUTPUT) == AtEndQueue
    ensures DefaultPosition(CMD_READ_STORAGE) == AtEndQueue
    ensures DefaultPosition(CMD_EJECT_COIN) == InFrontQueue
    ensures DefaultPosition(CMD_GET_COIN_COUNTER) == InFrontQueue
    ensures DefaultPosition(CMD_GET_KEY_MASKS) == InFrontQueue
    ensures DefaultPosition(CMD_SET_EJECT_TIMEOUT) == InFrontQueue
    ensures DefaultPosition(CMD_SET_TRACK_LEVEL) == InFrontQueue
    ensures DefaultPosition(CMD_TICK_AUDIT_COUNTER) == InFrontQueue
    ensures DefaultPosition(CMD_WRITE_STORAGE) == InFrontQueue
    ensures DefaultPosition(CMD_RESET_COIN_COINTER) == InFrontQueue
  {
  }

  /** The SET_OUTPUT command: the length cast to a byte, then the bytes. */
  function SetOutputCommand(outputs: seq<u8>): Frame
  {
    Frame(CMD_SET_OUTPUT, [ByteArg(LowByte(|outputs|))] + ByteArgs(outputs))
  }

  /** The WRITE_STORAGE command: address, the length cast to a byte, then the bytes. */
  function WriteStorageCommand(address: u16, data: seq<u8>): Frame
  {
    Frame(CMD_WRITE_STORAGE, [UInt16Arg(address), ByteArg(LowByte(|data|))] + ByteArgs(data))
  }

  /** The length prefix is the true length only below 256: there is no range
      check, so 256 bytes go out behind a prefix of 0. */
  lemma LengthPrefixTruncates(data: seq<u8>)
    ensures SetOutputCommand(data).args[0] == ByteArg(LowByte(|data|))
    ensures |SetOutputCommand(data).args| == 1 + |data|
    ensures (LowByte(|data|) as int == |data|) <==> |data| < 256
    ensures |data| == 256 ==> LowByte(|data|) == 0
  {
    if |data| < 256 {
      LowByteBelow256(|data|);
    } else if |data| == 256 {
      LowByteBelow256(255);
    }
  }

  /** The argument cursor of a received frame (`ReceivedCommand`). */
  class ReceivedCommand {
    const args: seq<Arg>
    var pos: nat

    constructor (args: seq<Arg>)
      ensures this.args == args && pos == 0
    {
      this.args := args;
      pos := 0;
    }

    method ReadBinByteArg() returns (r: Option<u8>)
      modifies this
      ensures r == ByteAt(args, old(pos)) && pos == old(pos) + 1
    {
      r := ByteAt(args, pos);
      pos := pos + 1;
    }

    method ReadBinUInt16Arg() returns (r: Option<u16>)
      modifies this
      ensures r == UInt16At(args, old(pos)) && pos == old(pos) + 1
    {
      r := UInt16At(args, pos);
      pos := pos + 1;
    }

    method ReadBinUInt32Arg() returns (r: Option<u32>)
      modifies this
      ensures r == UInt32At(args, old(pos)) && pos == old(pos) + 1
    {
      r := UInt32At(args, pos);
      pos := pos + 1;
    }

    method ReadBinStringArg() returns (r: Option<string>)
      modifies this
      ensures r == StringAt(args, old(pos)) && pos == old(pos) + 1
    {
      r := StringAt(args, pos);
      pos := pos + 1;
    }

    /** The loop that fills a `byte[count]` from one-byte arguments. */
    method ReadByteArray(count: nat) returns (r: Option<seq<u8>>)
      modifies this
      ensures r == BytesAt(args, old(pos), count)
      ensures r.Some? ==> pos == old(pos) + count
    {
      ghost var p0 := pos;
      var bytes: seq<u8> := [];
      var i := 0;
      while i < count
        invariant 0 <= i <= count && pos == p0 + i && (i == 0 || p0 + i <= |args|)
        invariant forall k :: p0 <= k < p0 + i ==> args[k].ByteArg?
        invariant bytes == seq(i, k requires 0 <= k < i => args[p0 + k].b)
      {
        var b := ReadBinByteArg();
        if b.None? {
          return None;
        }
        bytes := bytes + [b.value];
        i := i + 1;
      }
      return Some(bytes);
    }
  }

  class IOCard {
    /** `mMessenger != null` */
    var connected: bool
    /** The commands queued on `mMessenger`, front first. */
    var sendQueue: seq<Frame>
    /** The connection notifications raised so far, oldest first. */
    var raised: seq<Notice>

    constructor ()
      ensures !connected && sendQueue == [] && raised == []
    {
      connected := false;
      sendQueue := [];
      raised := [];
    }

    predicate IsConnected()
      reads this
    {
      connected
    }

    /** `mMessenger.SendCommand(cmd, queuePosition)` */
    method Send(cmd: Frame, pos: SendQueue)
      requires connected
      modifies this
      ensures sendQueue == Enqueue(old(sendQueue), cmd, pos)
      ensures connected == old(connected) && raised == old(raised)
    {
      sendQueue := Enqueue(sendQueue, cmd, pos);
    }

    method QueryGetInfo(pos: SendQueue := DefaultPosition(CMD_GET_INFO)) returns (queued: bool)
      modifies this
      ensures queued == old(connected)
      ensures connected == old(connected) && raised == old(raised)
      ensures sendQueue == if queued then Enqueue(old(sendQueue), Frame(CMD_GET_INFO, []), pos)
                           else old(sendQueue)
    {
      if connected {
        Send(Frame(CMD_GET_INFO, []), pos);
        return true;
      }
      return false;
    }

    method QueryEjectCoin(track: u8, count: u8, pos: SendQueue := DefaultPosition(CMD_EJECT_COIN))
      returns (queued: bool)
      modifies this
      ensures queued == old(connected)
      ensures connected == old(connected) && raised == old(raised)
      ensures sendQueue == if queued
                           then Enqueue(old(sendQueue), Frame(CMD_EJECT_COIN, [ByteArg(track), ByteArg(count)]), pos)
                           else old(sendQueue)
    {
      if connected {
        var args := [ByteArg(track), ByteArg(count)];
        Send(Frame(CMD_EJECT_COIN, args), pos);
        return true;
      }
      return false;
    }

    method QueryGetCoinCounter(track: u8, pos: SendQueue := DefaultPosition(CMD_GET_COIN_COUNTER))
      returns (queued: bool)
      modifies this
      ensures queued == old(connected)
      ensures connected == old(connected) && raised == old(raised)
      ensures sendQueue == if queued
                           then Enqueue(old(sendQueue), Frame(CMD_GET_COIN_COUNTER, [ByteArg(track)]), pos)
                           else old(sendQueue)
    {
      if connected {
        Send(Frame(CMD_GET_COIN_COUNTER, [ByteArg(track)]), pos);
        return true;
      }
      return false;
    }

    method QueryGetKeys(pos: SendQueue := DefaultPosition(CMD_GET_KEYS)) returns (queued: bool)
      modifies this
      ensures queued == old(connected)
      ensures connected == old(connected) && raised == old(raised)
      ensures sendQueue == if queued then Enqueue(old(sendQueue), Frame(CMD_GET_KEYS, []), pos)
                           else old(sendQueue)
    {
      if connected {
        Send(Frame(CMD_GET_KEYS, []), pos);
        return true;
      }
      return false;
    }

    method QueryGetKeyMasks(pos: SendQueue := DefaultPosition(CMD_GET_KEY_MASKS)) returns (queued: bool)
      modifies this
      ensures queued == old(connected)
      ensures connected == old(connected) && raised == old(raised)
      ensures sendQueue == if queued then Enqueue(old(sendQueue), Frame(CMD_GET_KEY_MASKS, []), pos)
                           else old(sendQueue)
    {
      if connected {
        Send(Frame(CMD_GET_KEY_MASKS, []), pos);
        return true;
      }
      return false;
    }

    method QuerySetEjectTimeout(track: u8, timeout: u32, pos: SendQueue := DefaultPosition(CMD_SET_EJECT_TIMEOUT))
      returns (queued: bool)
      modifies this
      ensures queued == old(connected)
      ensures connected == old(connected) && raised == old(raised)
      ensures sendQueue == if queued
                           then Enqueue(old(sendQueue), Frame(CMD_SET_EJECT_TIMEOUT, [ByteArg(track), UInt32Arg(timeout)]), pos)
                           else old(sendQueue)
    {
      if connected {
        var args := [ByteArg(track), UInt32Arg(timeout)];
        Send(Frame(CMD_SET_EJECT_TIMEOUT, args), pos);
        return true;
      }
      return false;
    }

    method QuerySetOutput(outputs: seq<u8>, pos: SendQueue := DefaultPosition(CMD_SET_OUTPUT))
      returns (queued: bool)
      modifies this
      ensures queued == old(connected)
      ensures connected == old(connected) && raised == old(raised)
      ensures sendQueue == if queued then Enqueue(old(sendQueue), SetOutputCommand(outputs), pos)
                           else old(sendQueue)
    {
      if connected {
        var args := [ByteArg(LowByte(|outputs|))];
        for i := 0 to |outputs|
          invariant |args| == 1 + i && args[0] == ByteArg(LowByte(|outputs|))
          invariant forall k :: 0 <= k < i ==> args[1 + k] == ByteArg(outputs[k])
        {
          args := args + [ByteArg(outputs[i])];
        }
        assert args == [ByteArg(LowByte(|outputs|))] + ByteArgs(outputs);
        Send(Frame(CMD_SET_OUTPUT, args), pos);
        return true;
      }
      return false;
    }

    method QuerySetTrackLevel(track: u8, level: ActiveLevel, pos: SendQueue := DefaultPosition(CMD_SET_TRACK_LEVEL))
      returns (queued: bool)
      modifies this
      ensures queued == old(connected)
      ensures connected == old(connected) && raised == old(raised)
      ensures sendQueue == if queued
                           then Enqueue(old(sendQueue),
                                        Frame(CMD_SET_TRACK_LEVEL, [ByteArg(track), ByteArg(ActiveLevelByte(level))]), pos)
                           else old(sendQueue)
    {
      if connected {
        var args := [ByteArg(track), ByteArg(ActiveLevelByte(level))];
        Send(Frame(CMD_SET_TRACK_LEVEL, args), pos);
        return true;
      }
      return false;
    }

    method QueryTickAuditCounter(counter: u8, ticks: u32, pos: SendQueue := DefaultPosition(CMD_TICK_AUDIT_COUNTER))
      returns (queued: bool)
      modifies this
      ensures queued == old(connected)
      ensures connected == old(connected) && raised == old(raised)
      ensures sendQueue == if queued
                           then Enqueue(old(sendQueue), Frame(CMD_TICK_AUDIT_COUNTER, [ByteArg(counter), UInt32Arg(ticks)]), pos)
                           else old(sendQueue)
    {
      if connected {
        var args := [ByteArg(counter), UInt32Arg(ticks)];
        Send(Frame(CMD_TICK_AUDIT_COUNTER, args), pos);
        return true;
      }
      return false;
    }

    method QueryWriteStorage(address: u16, data: seq<u8>, pos: SendQueue := DefaultPosition(CMD_WRITE_STORAGE))
      returns (queued: bool)
      modifies this
      ensures queued == old(connected)
      ensures connected == old(connected) && raised == old(raised)
      ensures sendQueue == if queued then Enqueue(old(sendQueue), WriteStorageCommand(address, data), pos)
                           else old(sendQueue)
    {
      if connected {
        var args := [UInt16Arg(address)];
        args := args + [ByteArg(LowByte(|data|))];
        var i := 0;
        while i < |data|
          invariant 0 <= i <= |data| && |args| == 2 + i
          invariant args[0] == UInt16Arg(address) && args[1] == ByteArg(LowByte(|data|))
          invariant forall k :: 0 <= k < i ==> args[2 + k] == ByteArg(data[k])
        {
          args := args + [ByteArg(data[i])];
          i := i + 1;
        }
        assert args == [UInt16Arg(address), ByteArg(LowByte(|data|))] + ByteArgs(data);
        Send(Frame(CMD_WRITE_STORAGE, args), pos);
        return true;
      }
      return false;
    }

    method QueryReadStorage(address: u16, length: u8, pos: SendQueue := DefaultPosition(CMD_READ_STORAGE))
      returns (queued: bool)
      modifies this
      ensures queued == old(connected)
      ensures connected == old(connected) && raised == old(raised)
      ensures sendQueue == if queued
                           then Enqueue(old(sendQueue), Frame(CMD_READ_STORAGE, [UInt16Arg(address), ByteArg(length)]), pos)
                           else old(sendQueue)
    {
      if connected {
        var args := [UInt16Arg(address), ByteArg(length)];
        Send(Frame(CMD_READ_STORAGE, args), pos);
        return true;
      }
      return false;
    }

    method QueryResetCoinCounter(track: u8, pos: SendQueue := DefaultPosition(CMD_RESET_COIN_COINTER))
      returns (queued: bool)
      modifies this
      ensures queued == old(connected)
      ensures connected == old(connected) && raised == old(raised)
      ensures sendQueue == if queued
                           then Enqueue(old(sendQueue), Frame(CMD_RESET_COIN_COINTER, [ByteArg(track)]), pos)
                           else old(sendQueue)
    {
      if connected {
        Send(Frame(CMD_RESET_COIN_COINTER, [ByteArg(track)]), pos);
        return true;
      }
      return false;
    }

    /** Opens a new messenger unless one is already open. `openSucceeds` is
        the outcome of `messenger.Connect()` on the serial port. */
    method Connect(openSucceeds: bool) returns (r: ConnectResult)
      modifies this
      ensures old(connected) ==> r == AlreadyConnected && unchanged(this)
      ensures !old(connected) && !openSucceeds ==> r == ConnectFailed && unchanged(this)
      ensures !old(connected) && openSucceeds ==>
                r == ConnectOk && connected && sendQueue == [] && raised == old(raised) + [Connected]
    {
      if connected {
        return AlreadyConnected;
      }
      if openSucceeds {
        connected := true;
        sendQueue := [];
        raised := raised + [Connected];
        return ConnectOk;
      }
      return ConnectFailed;
    }

    /** Closes the messenger if there is one. `closeSucceeds` is the outcome
        of `mMessenger.Disconnect()`; when it fails the card stays connected.
        Commands still queued on the closed messenger are abandoned. */
    method Disconnect(closeSucceeds: bool) returns (ok: bool)
      modifies this
      ensures ok == (old(connected) && closeSucceeds)
      ensures ok ==> !connected && sendQueue == [] && raised == old(raised) + [Disconnected]
      ensures !ok ==> unchanged(this)
    {
      if connected {
        var status := closeSucceeds;
        if status {
          connected := false;
          sendQueue := [];
          raised := raised + [Disconnected];
        }
        return status;
      }
      return false;
    }

    /** A frame arriving on the messenger: the callback attached for its id
        reads its arguments and raises the event, and a COIN_COUNTER_RESULT
        is first acknowledged at the front of the queue while connected. */
    method Receive(f: Frame) returns (ev: Option<Event>)
      modifies this
      ensures ev == Decode(f)
      ensures connected == old(connected) && raised == old(raised)
      ensures sendQueue == if f.id == EVT_COIN_COUNTER_RESULT && old(connected)
                           then [Frame(CMD_ACK, [])] + old(sendQueue)
                           else old(sendQueue)
    {
      var cmd := new ReceivedCommand(f.args);
      if f.id == EVT_GET_INFO_RESULT {
        var manufacturer :- cmd.ReadBinStringArg();
        var product :- cmd.ReadBinStringArg();
        var version :- cmd.ReadBinStringArg();
        var protocol :- cmd.ReadBinUInt32Arg();
        ev := Some(GetInfoResult(DeviceInfo(manufacturer, product, version, protocol)));
      } else if f.id == EVT_COIN_COUNTER_RESULT {
        if connected {
          Send(Frame(CMD_ACK, []), InFrontQueue);
        }
        var track :- cmd.ReadBinByteArg();
        var coins :- cmd.ReadBinUInt32Arg();
        ev := Some(CoinCounterResult(track, coins));
      } else if f.id == EVT_KEY_MASKS_RESULT {
        var count :- cmd.ReadBinByteArg();
        var masks :- cmd.ReadByteArray(count as nat);
        ev := Some(KeyMasks(masks));
      } else if f.id == EVT_KEYS_RESULT {
        var count :- cmd.ReadBinByteArg();
        var keys :- cmd.ReadByteArray(count as nat);
        ev := Some(Keys(keys));
      } else if f.id == EVT_WRITE_STORAGE_RESULT {
        var address :- cmd.ReadBinUInt16Arg();
        var length :- cmd.ReadBinByteArg();
        ev := Some(WriteStorageResult(address, length));
      } else if f.id == EVT_READ_STORAGE_RESULT {
        var address :- cmd.ReadBinUInt16Arg();
        var length :- cmd.ReadBinByteArg();
        var data :- cmd.ReadByteArray(length as nat);
        ev := Some(ReadStorageResult(address, data));
      } else if f.id == EVT_ERROR {
        var e :- ReceiveError(cmd);
        ev := Some(Error(e));
      } else if f.id == EVT_DEBUG {
        var message :- cmd.ReadBinStringArg();
        ev := Some(Debug(message));
      } else {
        ev := Some(Unknown(f));
      }
    }
  }

  /** The EVT_ERROR callback: the switch on the code byte. */
  method ReceiveError(cmd: ReceivedCommand) returns (e: Option<ErrorEvent>)
    requires cmd.pos == 0
    modifies cmd
    ensures e == DecodeError(cmd.args)
  {
    var err :- cmd.ReadBinByteArg();
    if err == ERR_EJECT_INTERRUPTED {
      var track :- cmd.ReadBinByteArg();
      var coins :- cmd.ReadBinByteArg();
      e := Some(EjectInterrupted(track, coins));
    } else if err == ERR_EJECT_TIMEOUT {
      var track :- cmd.ReadBinByteArg();
      var coins :- cmd.ReadBinByteArg();
      e := Some(EjectTimeout(track, coins));
    } else if err == ERR_NOT_A_TRACK {
      var track :- cmd.ReadBinByteArg();
      e := Some(NotATrack(track));
    } else if err == ERR_NOT_A_COUNTER {
      var counter :- cmd.ReadBinByteArg();
      e := Some(NotACounter(counter));
    } else if err == ERR_PROTECTED_STORAGE {
      var address :- cmd.ReadBinUInt16Arg();
      e := Some(ProtectedStorage(address));
    } else if err == ERR_TOO_LONG {
      var desired :- cmd.ReadBinByteArg();
      var requested :- cmd.ReadBinByteArg();
      e := Some(TooLong(desired, requested));
    } else if err == ERR_UNKNOWN_COMMAND {
      var command :- cmd.ReadBinByteArg();
      e := Some(UnknownCommand(command as u16));
    } else {
      var raw :- cmd.ReadBinByteArg();
      e := Some(UnknownError(err, raw as u16));
    }
  }
}
