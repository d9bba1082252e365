/** The firmware's id tables (`Communication.h`): the commands it accepts,
    the events it emits and the error codes it reports, and how they line up
    with the host driver's `Commands`, `Events` and `Errors` enums. */
module FirmwareIds {
  import opened Wire
  import opened HostProtocol

  const FW_CMD_ACK: u8 := 0x00
  const FW_CMD_GET_INFO: u8 := 0x01
  const FW_CMD_GET_KEY_MASKS: u8 := 0x02
  const FW_CMD_GET_KEYS: u8 := 0x10
  const FW_CMD_SET_OUTPUT: u8 := 0x11
  const FW_CMD_GET_COIN_COUNTER: u8 := 0x20
  const FW_CMD_RESET_COIN_COINTER: u8 := 0x21
  const FW_CMD_TICK_AUDIT_COUNTER: u8 := 0x30
  const FW_CMD_EJECT_COIN: u8 := 0x40
  const FW_CMD_SET_TRACK_LEVEL: u8 := 0x41
  const FW_CMD_SET_EJECT_TIMEOUT: u8 := 0x42
  const FW_CMD_READ_STORAGE: u8 := 0x50
  const FW_CMD_WRITE_STORAGE: u8 := 0x58
  /** Firmware only: the host has no encoder for it. */
  const FW_CMD_REBOOT: u8 := 0xFF

  const FW_EVT_GET_INFO_RESULT: u8 := 0x01
  const FW_EVT_KEY_MASKS_RESULT: u8 := 0x02
  const FW_EVT_KEYS_RESULT: u8 := 0x10
  const FW_EVT_COIN_COUNTER_RESULT: u8 := 0x20
  const FW_EVT_READ_STORAGE_RESULT: u8 := 0x50
  const FW_EVT_WRITE_STORAGE_RESULT: u8 := 0x58
  /** Firmware only: the host attaches no callback to it. */
  const FW_EVT_BOOT: u8 := 0x80
  const FW_EVT_DEBUG: u8 := 0xFE
  const FW_EVT_ERROR: u8 := 0xFF

  const FW_ERR_EJECT_INTERRUPTED: u8 := 0x01
  const FW_ERR_EJECT_TIMEOUT: u8 := 0x02
  const FW_ERR_NOT_A_TRACK: u8 := 0x03
  const FW_ERR_PROTECTED_STORAGE: u8 := 0x04
  const FW_ERR_TOO_LONG: u8 := 0x05
  const FW_ERR_NOT_A_COUNTER: u8 := 0x06
  /** Firmware only: the host's error switch has no arm for it. */
  const FW_ERR_OUT_OF_RANGE: u8 := 0x07
  const FW_ERR_UNKNOWN_COMMAND: u8 := 0xFF

  /** The command table in declaration order. */
  function CommandIds(): seq<u8>
  {
    [FW_CMD_ACK, FW_CMD_GET_INFO, FW_CMD_GET_KEY_MASKS, FW_CMD_GET_KEYS, FW_CMD_SET_OUTPUT,
     FW_CMD_GET_COIN_COUNTER, FW_CMD_RESET_COIN_COINTER, FW_CMD_TICK_AUDIT_COUNTER,
     FW_CMD_EJECT_COIN, FW_CMD_SET_TRACK_LEVEL, FW_CMD_SET_EJECT_TIMEOUT,
     FW_CMD_READ_STORAGE, FW_CMD_WRITE_STORAGE, FW_CMD_REBOOT]
  }

  /** The event table in declaration order. */
  function EventIds(): seq<u8>
  {
    [FW_EVT_GET_INFO_RESULT, FW_EVT_KEY_MASKS_RESULT, FW_EVT_KEYS_RESULT,
     FW_EVT_COIN_COUNTER_RESULT, FW_EVT_READ_STORAGE_RESULT, FW_EVT_WRITE_STORAGE_RESULT,
     FW_EVT_BOOT, FW_EVT_DEBUG, FW_EVT_ERROR]
  }

  /** The error table in declaration order. */
  function ErrorCodes(): seq<u8>
  {
    [FW_ERR_EJECT_INTERRUPTED, FW_ERR_EJECT_TIMEOUT, FW_ERR_NOT_A_TRACK,
     FW_ERR_PROTECTED_STORAGE, FW_ERR_TOO_LONG, FW_ERR_NOT_A_COUNTER,
     FW_ERR_OUT_OF_RANGE, FW_ERR_UNKNOWN_COMMAND]
  }

  predicate Distinct(ids: seq<u8>)
  {
    forall i, j :: 0 <= i < j < |ids| ==> ids[i] != ids[j]
  }

  /** No two entries of a table share a value, so a receiver can tell them apart. */
  lemma TablesAreDistinct()
    ensures Distinct(CommandIds()) && |CommandIds()| == 14
    ensures Distinct(EventIds()) && |EventIds()| == 9
    ensures Distinct(ErrorCodes()) && |ErrorCodes()| == 8
  {
  }

  /** Every id that the host also names has the host's value. */
  lemma TablesAgreeWithHost()
    ensures [FW_CMD_ACK, FW_CMD_GET_INFO, FW_CMD_GET_KEY_MASKS, FW_CMD_GET_KEYS, FW_CMD_SET_OUTPUT,
             FW_CMD_GET_COIN_COUNTER, FW_CMD_RESET_COIN_COINTER, FW_CMD_TICK_AUDIT_COUNTER,
             FW_CMD_EJECT_COIN, FW_CMD_SET_TRACK_LEVEL, FW_CMD_SET_EJECT_TIMEOUT,
             FW_CMD_READ_STORAGE, FW_CMD_WRITE_STORAGE]
         == [CMD_ACK, CMD_GET_INFO, CMD_GET_KEY_MASKS, CMD_GET_KEYS, CMD_SET_OUTPUT,
             CMD_GET_COIN_COUNTER, CMD_RESET_COIN_COINTER, CMD_TICK_AUDIT_COUNTER,
             CMD_EJECT_COIN, CMD_SET_TRACK_LEVEL, CMD_SET_EJECT_TIMEOUT,
             CMD_READ_STORAGE, CMD_WRITE_STORAGE]
    ensures [FW_EVT_GET_INFO_RESULT, FW_EVT_KEY_MASKS_RESULT, FW_EVT_KEYS_RESULT,
             FW_EVT_COIN_COUNTER_RESULT, FW_EVT_READ_STORAGE_RESULT, FW_EVT_WRITE_STORAGE_RESULT,
             FW_EVT_DEBUG, FW_EVT_ERROR]
         == [EVT_GET_INFO_RESULT, EVT_KEY_MASKS_RESULT, EVT_KEYS_RESULT,
             EVT_COIN_COUNTER_RESULT, EVT_READ_STORAGE_RESULT, EVT_WRITE_STORAGE_RESULT,
             EVT_DEBUG, EVT_ERROR]
    ensures [FW_ERR_EJECT_INTERRUPTED, FW_ERR_EJECT_TIMEOUT, FW_ERR_NOT_A_TRACK,
             FW_ERR_PROTECTED_STORAGE, FW_ERR_TOO_LONG, FW_ERR_NOT_A_COUNTER, FW_ERR_UNKNOWN_COMMAND]
         == [ERR_EJECT_INTERRUPTED, ERR_EJECT_TIMEOUT, ERR_NOT_A_TRACK,
             ERR_PROTECTED_STORAGE, ERR_TOO_LONG, ERR_NOT_A_COUNTER, ERR_UNKNOWN_COMMAND]
  {
  }

  /** A BOOT event, whatever it carries, reaches the host's unknown-id fallback. */
  lemma BootEventIsUnknownToHost(args: seq<Arg>)
    ensures !IsAttachedEvent(FW_EVT_BOOT)
    ensures Decode(Frame(FW_EVT_BOOT, args)) == Some(Unknown(Frame(FW_EVT_BOOT, args)))
  {
  }

  /** An OUT_OF_RANGE error falls into the host's default arm: the raw
      code is kept and one more byte is read as the unknown error code. */
  lemma OutOfRangeIsUnknownErrorToHost(extra: u8)
    ensures !IsListedErrorCode(FW_ERR_OUT_OF_RANGE)
    ensures Decode(Frame(FW_EVT_ERROR, [ByteArg(FW_ERR_OUT_OF_RANGE), ByteArg(extra)]))
            == Some(Error(UnknownError(FW_ERR_OUT_OF_RANGE, extra as u16)))
  {
  }

  /** REBOOT shares its value with no host command, so no host encoder can produce it. */
  lemma RebootHasNoHostEncoder()
    ensures FW_CMD_REBOOT !in [CMD_ACK, CMD_GET_INFO, CMD_GET_KEY_MASKS, CMD_GET_KEYS, CMD_SET_OUTPUT,
                               CMD_GET_COIN_COUNTER, CMD_RESET_COIN_COINTER, CMD_TICK_AUDIT_COUNTER,
                               CMD_EJECT_COIN, CMD_SET_TRACK_LEVEL, CMD_SET_EJECT_TIMEOUT,
                               CMD_READ_STORAGE, CMD_WRITE_STORAGE]
  {
  }
}
