/** Firmware frames read by the host: every `dispatch*` layout decodes, with
    the host's `Decode`, to the event that carries the same values, and the
    host's callback reads exactly the arguments the firmware sent. */
module RoundTrip {
  import opened Wire
  import opened HostProtocol
  import opened FirmwareIds
  import opened FirmwareEvents
  import FramConfig

  /** A run of one-byte arguments after a prefix reads back as the bytes. */
  lemma BytesAfterPrefix(prefix: seq<Arg>, bytes: seq<u8>)
    ensures BytesAt(prefix + ByteArgs(bytes), |prefix|, |bytes|) == Some(bytes)
  {
    var a := prefix + ByteArgs(bytes);
    assert forall k :: |prefix| <= k < |prefix| + |bytes| ==> a[k] == ByteArg(bytes[k - |prefix|]);
    assert seq(|bytes|, k requires 0 <= k < |bytes| => a[|prefix| + k].b) == bytes;
  }

  /** The frame decodes to `ev` and the callback reads every argument sent. */
  predicate ReadsBack(f: Frame, ev: Event)
  {
    Decode(f) == Some(ev) && Arity(ev) == |f.args|
  }

  lemma GetInfoRoundTrip()
    ensures ReadsBack(GetInfoFrame(), GetInfoResult(DeviceInfo(MANUFACTURER, PRODUCT, VERSION, PROTOCOL_VERSION)))
    ensures PROTOCOL_VERSION == 20170123
  {
  }

  lemma CoinCounterRoundTrip(track: u8, coins: u32)
    ensures ReadsBack(CoinCounterFrame(track, coins), CoinCounterResult(track, coins))
  {
  }

  /** The three masks come back in order, behind the fixed count of 3. */
  lemma KeyMasksRoundTrip(mask0: u8, mask1: u8, mask2: u8)
    ensures ReadsBack(KeyMasksFrame(mask0, mask1, mask2), KeyMasks([mask0, mask1, mask2]))
  {
    BytesAfterPrefix([ByteArg(3)], [mask0, mask1, mask2]);
    assert KeyMasksFrame(mask0, mask1, mask2).args == [ByteArg(3)] + ByteArgs([mask0, mask1, mask2]);
  }

  /** The host gets exactly the first `length` key bytes, in order. */
  lemma KeysRoundTrip(length: u8, keys: seq<u8>)
    requires length as nat <= |keys|
    ensures ReadsBack(KeysFrame(length, keys), Keys(keys[..length]))
  {
    BytesAfterPrefix([ByteArg(length)], keys[..length]);
  }

  lemma WriteStorageRoundTrip(address: u16, length: u8)
    ensures ReadsBack(WriteStorageFrame(address, length), WriteStorageResult(address, length))
  {
  }

  /** The host gets the address and exactly the first `length` buffer bytes. */
  lemma ReadStorageRoundTrip(address: u16, length: u8, buffer: seq<u8>)
    requires length as nat <= |buffer|
    ensures ReadsBack(ReadStorageFrame(address, length, buffer), ReadStorageResult(address, buffer[..length]))
  {
    BytesAfterPrefix([UInt16Arg(address), ByteArg(length)], buffer[..length]);
  }

  lemma ErrorEjectInterruptedRoundTrip(track: u8, count: u8)
    ensures ReadsBack(ErrorEjectInterruptedFrame(track, count), Error(EjectInterrupted(track, count)))
  {
  }

  lemma ErrorEjectTimeoutRoundTrip(track: u8, coins: u8)
    ensures ReadsBack(ErrorEjectTimeoutFrame(track, coins), Error(EjectTimeout(track, coins)))
  {
  }

  lemma ErrorNotACounterRoundTrip(counter: u8)
    ensures ReadsBack(ErrorNotACounterFrame(counter), Error(NotACounter(counter)))
  {
  }

  lemma ErrorProtectedStorageRoundTrip(address: u16)
    ensures ReadsBack(ErrorProtectedStorageFrame(address), Error(ProtectedStorage(address)))
  {
  }

  /** The firmware's limit arrives as the desired length, the rejected length as the requested one. */
  lemma ErrorTooLongRoundTrip(maxBytesLength: u8, length: u8)
    ensures ReadsBack(ErrorTooLongFrame(maxBytesLength, length), Error(TooLong(maxBytesLength, length)))
  {
  }

  /** The command byte arrives widened to 16 bits. */
  lemma ErrorUnknownCommandRoundTrip(command: u8)
    ensures ReadsBack(ErrorUnknownCommandFrame(command), Error(UnknownCommand(command as u16)))
  {
  }

  /** With `ERR_NOT_A_TRACK` expanded to the value `Configuration.h`
      redefines it to, the frame carries the UNKNOWN_COMMAND code: the host
      reports an unknown command whose id is the track. */
  lemma ErrorNotATrackAsCompiled(track: u8)
    ensures ReadsBack(ErrorNotATrackFrame(FramConfig.CONFIG_ERR_NOT_A_TRACK, track), Error(UnknownCommand(track as u16)))
    ensures Decode(ErrorNotATrackFrame(FramConfig.CONFIG_ERR_NOT_A_TRACK, track)) != Some(Error(NotATrack(track)))
  {
  }

  /** With the id table's value the host reports the track as not a track. */
  lemma ErrorNotATrackRoundTrip(track: u8)
    ensures ReadsBack(ErrorNotATrackFrame(FW_ERR_NOT_A_TRACK, track), Error(NotATrack(track)))
  {
  }
}
