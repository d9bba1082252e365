/** The host side of the device protocol: the `Commands`, `Events` and
    `Errors` vocabularies of the C# driver, the typed events its callbacks
    raise, and the decode table that turns a received frame into one of them.

    `Decode` is the pure reading of the table that `IOCardDriver.IOCard.Receive`
    executes with an argument cursor. */
module HostProtocol {
  import opened Wire

  // IOCard.Commands
  const CMD_ACK: u8 := 0x00
  const CMD_GET_INFO: u8 := 0x01
  const CMD_GET_KEY_MASKS: u8 := 0x02
  const CMD_GET_KEYS: u8 := 0x10
  const CMD_SET_OUTPUT: u8 := 0x11
  const CMD_GET_COIN_COUNTER: u8 := 0x20
  const CMD_RESET_COIN_COINTER: u8 := 0x21
  const CMD_TICK_AUDIT_COUNTER: u8 := 0x30
  const CMD_EJECT_COIN: u8 := 0x40
  const CMD_SET_TRACK_LEVEL: u8 := 0x41
  const CMD_SET_EJECT_TIMEOUT: u8 := 0x42
  const CMD_READ_STORAGE: u8 := 0x50
  const CMD_WRITE_STORAGE: u8 := 0x58

  // IOCard.Events
  const EVT_GET_INFO_RESULT: u8 := 0x01
  const EVT_KEY_MASKS_RESULT: u8 := 0x02
  const EVT_KEYS_RESULT: u8 := 0x10
  const EVT_COIN_COUNTER_RESULT: u8 := 0x20
  const EVT_READ_STORAGE_RESULT: u8 := 0x50
  const EVT_WRITE_STORAGE_RESULT: u8 := 0x58
  const EVT_DEBUG: u8 := 0xFE
  const EVT_ERROR: u8 := 0xFF

  // IOCard.Errors
  const ERR_UNKNOWN_ERROR: u8 := 0x00
  const ERR_EJECT_INTERRUPTED: u8 := 0x01
  const ERR_EJECT_TIMEOUT: u8 := 0x02
  const ERR_NOT_A_TRACK: u8 := 0x03
  const ERR_PROTECTED_STORAGE: u8 := 0x04
  const ERR_TOO_LONG: u8 := 0x05
  const ERR_NOT_A_COUNTER: u8 := 0x06
  const ERR_UNKNOWN_COMMAND: u8 := 0xFF

  /** IOCard.ActiveLevel */
  datatype ActiveLevel = ActiveLow | ActiveHigh

  function ActiveLevelByte(level: ActiveLevel): u8
  {
    if level == ActiveLow then 0x00 else 0x01
  }

  /** The identity fields of a GET_INFO_RESULT. */
  datatype DeviceInfo = DeviceInfo(manufacturer: string, product: string, version: string, protocolVersion: u32)

  /** The `ErrorEventArgs` family as one tagged union. `UnknownError` keeps
      the raw code, which is what `ErrorEventArgs.ErrorCode` holds there. */
  datatype ErrorEvent =
    | EjectInterrupted(track: u8, coinsFailed: u8)
    | EjectTimeout(track: u8, coinsFailed: u8)
    | NotATrack(track: u8)
    | NotACounter(auditCounter: u8)
    | ProtectedStorage(address: u16)
    | TooLong(desiredLength: u8, requestedLength: u8)
    | UnknownCommand(command: u16)
    | UnknownError(code: u8, unknownErrorCode: u16)

  /** The events an `IOCard` raises for received frames. */
  datatype Event =
    | GetInfoResult(info: DeviceInfo)
    | CoinCounterResult(track: u8, coins: u32)
    | KeyMasks(keyMasks: seq<u8>)
    | Keys(keys: seq<u8>)
    | WriteStorageResult(address: u16, length: u8)
    | ReadStorageResult(address: u16, data: seq<u8>)
    | Error(error: ErrorEvent)
    | Debug(message: string)
    | Unknown(frame: Frame)

  /** `ErrorEventArgs.ErrorCode`. */
  function ErrorCode(e: ErrorEvent): u8
  {
    match e
    case EjectInterrupted(_, _) => ERR_EJECT_INTERRUPTED
    case EjectTimeout(_, _) => ERR_EJECT_TIMEOUT
    case NotATrack(_) => ERR_NOT_A_TRACK
    case NotACounter(_) => ERR_NOT_A_COUNTER
    case ProtectedStorage(_) => ERR_PROTECTED_STORAGE
    case TooLong(_, _) => ERR_TOO_LONG
    case UnknownCommand(_) => ERR_UNKNOWN_COMMAND
    case UnknownError(code, _) => code
  }

  /** An error code that has its own arm in the decode switch. */
  predicate IsListedErrorCode(code: u8)
  {
    code in {ERR_EJECT_INTERRUPTED, ERR_EJECT_TIMEOUT, ERR_NOT_A_TRACK, ERR_NOT_A_COUNTER,
             ERR_PROTECTED_STORAGE, ERR_TOO_LONG, ERR_UNKNOWN_COMMAND}
  }

  /** An id that has a callback attached by `_attachCallbacks`. */
  predicate IsAttachedEvent(id: u8)
  {
    id in {EVT_GET_INFO_RESULT, EVT_COIN_COUNTER_RESULT, EVT_KEY_MASKS_RESULT, EVT_KEYS_RESULT,
           EVT_WRITE_STORAGE_RESULT, EVT_READ_STORAGE_RESULT, EVT_ERROR, EVT_DEBUG}
  }

  // The argument readers of a received frame (ReadBinByteArg and friends),
  // reading position `i`. An argument that is missing or was sent with another
  // width gives None: what the external codec does then is not modelled.

  function ByteAt(args: seq<Arg>, i: nat): Option<u8>
  {
    if i < |args| && args[i].ByteArg? then Some(args[i].b) else None
  }

  function UInt16At(args: seq<Arg>, i: nat): Option<u16>
  {
    if i < |args| && args[i].UInt16Arg? then Some(args[i].w) else None
  }

  function UInt32At(args: seq<Arg>, i: nat): Option<u32>
  {
    if i < |args| && args[i].UInt32Arg? then Some(args[i].d) else None
  }

  function StringAt(args: seq<Arg>, i: nat): Option<string>
  {
    if i < |args| && args[i].StringArg? then Some(args[i].s) else None
  }

  /** `n` one-byte arguments starting at position `i`, in order. */
  function BytesAt(args: seq<Arg>, i: nat, n: nat): Option<seq<u8>>
  {
    if (n == 0 || i + n <= |args|) && forall k :: i <= k < i + n ==> args[k].ByteArg?
    then Some(seq(n, k requires 0 <= k < n => args[i + k].b))
    else None
  }

  /** The EVT_ERROR callback: the code byte, then the fields of its arm. */
  function DecodeError(args: seq<Arg>): Option<ErrorEvent>
  {
    var code :- ByteAt(args, 0);
    if code == ERR_EJECT_INTERRUPTED then
      var track :- ByteAt(args, 1);
      var coins :- ByteAt(args, 2);
      Some(EjectInterrupted(track, coins))
    else if code == ERR_EJECT_TIMEOUT then
      var track :- ByteAt(args, 1);
      var coins :- ByteAt(args, 2);
      Some(EjectTimeout(track, coins))
    else if code == ERR_NOT_A_TRACK then
      var track :- ByteAt(args, 1);
      Some(NotATrack(track))
    else if code == ERR_NOT_A_COUNTER then
      var counter :- ByteAt(args, 1);
      Some(NotACounter(counter))
    else if code == ERR_PROTECTED_STORAGE then
      var address :- UInt16At(args, 1);
      Some(ProtectedStorage(address))
    else if code == ERR_TOO_LONG then
      var desired :- ByteAt(args, 1);
      var requested :- ByteAt(args, 2);
      Some(TooLong(desired, requested))
    else if code == ERR_UNKNOWN_COMMAND then
      var command :- ByteAt(args, 1);
      Some(UnknownCommand(command as u16))
    else
      var raw :- ByteAt(args, 1);
      Some(UnknownError(code, raw as u16))
  }

  /** The decode table of `_attachCallbacks`, with the fallback for ids
      that have no callback. */
  function Decode(f: Frame): Option<Event>
  {
    var a := f.args;
    if f.id == EVT_GET_INFO_RESULT then
      var manufacturer :- StringAt(a, 0);
      var product :- StringAt(a, 1);
      var version :- StringAt(a, 2);
      var protocol :- UInt32At(a, 3);
      Some(GetInfoResult(DeviceInfo(manufacturer, product, version, protocol)))
    else if f.id == EVT_COIN_COUNTER_RESULT then
      var track :- ByteAt(a, 0);
      var coins :- UInt32At(a, 1);
      Some(CoinCounterResult(track, coins))
    else if f.id == EVT_KEY_MASKS_RESULT then
      var count :- ByteAt(a, 0);
      var masks :- BytesAt(a, 1, count as nat);
      Some(KeyMasks(masks))
    else if f.id == EVT_KEYS_RESULT then
      var count :- ByteAt(a, 0);
      var keys :- BytesAt(a, 1, count as nat);
      Some(Keys(keys))
    else if f.id == EVT_WRITE_STORAGE_RESULT then
      var address :- UInt16At(a, 0);
      var length :- ByteAt(a, 1);
      Some(WriteStorageResult(address, length))
    else if f.id == EVT_READ_STORAGE_RESULT then
      var address :- UInt16At(a, 0);
      var length :- ByteAt(a, 1);
      var data :- BytesAt(a, 2, length as nat);
      Some(ReadStorageResult(address, data))
    else if f.id == EVT_ERROR then
      var e :- DecodeError(a);
      Some(Error(e))
    else if f.id == EVT_DEBUG then
      var message :- StringAt(a, 0);
      Some(Debug(message))
    else
      Some(Unknown(f))
  }

  /** How many arguments the arm for an error reads, the code included. */
  function ErrorArity(e: ErrorEvent): nat
  {
    match e
    case EjectInterrupted(_, _) => 3
    case EjectTimeout(_, _) => 3
    case TooLong(_, _) => 3
    case _ => 2
  }

  /** How many arguments the callback for an event reads. */
  function Arity(ev: Event): nat
  {
    match ev
    case GetInfoResult(_) => 4
    case CoinCounterResult(_, _) => 2
    case KeyMasks(masks) => 1 + |masks|
    case Keys(keys) => 1 + |keys|
    case WriteStorageResult(_, _) => 2
    case ReadStorageResult(_, data) => 2 + |data|
    case Error(e) => ErrorArity(e)
    case Debug(_) => 1
    case Unknown(_) => 0
  }

  /** The callback for `f.id` reads exactly the first `n` arguments of `f`. */
  ghost predicate ReadsExactly(f: Frame, n: nat)
  {
    && 1 <= n <= |f.args|
    && Decode(Frame(f.id, f.args[..n])) == Decode(f)
    && Decode(Frame(f.id, f.args[..n - 1])).None?
  }

  /** Every callback reads exactly `Arity` arguments: what follows them is
      ignored, and without the last of them the frame does not decode. */
  lemma DecodeReadsExactly(f: Frame)
    requires Decode(f).Some? && !Decode(f).value.Unknown?
    ensures ReadsExactly(f, Arity(Decode(f).value))
  {
    if f.id == EVT_KEY_MASKS_RESULT || f.id == EVT_KEYS_RESULT {
      CountPrefixedReadsExactly(f);
    } else if f.id == EVT_READ_STORAGE_RESULT {
      ReadStorageReadsExactly(f);
    } else if f.id == EVT_ERROR {
      ErrorReadsExactly(f);
    } else {
      FixedLayoutReadsExactly(f);
    }
  }

  lemma FixedLayoutReadsExactly(f: Frame)
    requires f.id in {EVT_GET_INFO_RESULT, EVT_COIN_COUNTER_RESULT, EVT_WRITE_STORAGE_RESULT, EVT_DEBUG}
    requires Decode(f).Some?
    ensures ReadsExactly(f, Arity(Decode(f).value))
  {
  }

  lemma CountPrefixedReadsExactly(f: Frame)
    requires f.id == EVT_KEY_MASKS_RESULT || f.id == EVT_KEYS_RESULT
    requires Decode(f).Some?
    ensures ReadsExactly(f, Arity(Decode(f).value))
  {
    var a := f.args;
    var n := 1 + a[0].b as nat;
    CountPrefixedLayout(a);
    assert Arity(Decode(f).value) == n;
    assert Decode(Frame(f.id, a[..n])) == Decode(f);
    assert Decode(Frame(f.id, a[..n - 1])).None?;
  }

  /** A u8 count followed by that many bytes: the first `1 + count`
      arguments hold the same count and bytes, and one argument fewer does
      not hold them. */
  lemma CountPrefixedLayout(a: seq<Arg>)
    requires ByteAt(a, 0).Some? && BytesAt(a, 1, ByteAt(a, 0).value as nat).Some?
    ensures var c := a[0].b as nat;
            && 1 + c <= |a|
            && ByteAt(a[..1 + c], 0) == ByteAt(a, 0)
            && BytesAt(a[..1 + c], 1, c) == BytesAt(a, 1, c)
            && (ByteAt(a[..c], 0).None? || BytesAt(a[..c], 1, c).None?)
  {
    var c := a[0].b as nat;
    BytesAtPrefix(a, 1, c, 1 + c);
    if c > 0 {
      assert BytesAt(a[..c], 1, c).None?;
    }
  }

  lemma ReadStorageReadsExactly(f: Frame)
    requires f.id == EVT_READ_STORAGE_RESULT
    requires Decode(f).Some?
    ensures ReadsExactly(f, Arity(Decode(f).value))
  {
    var a := f.args;
    var c := a[1].b as nat;
    var n := 2 + c;
    assert Arity(Decode(f).value) == n;
    var p := a[..n];
    var q := a[..n - 1];
    assert UInt16At(p, 0) == UInt16At(a, 0);
    assert ByteAt(p, 1) == ByteAt(a, 1);
    BytesAtPrefix(a, 2, c, n);
    if c == 0 {
      assert ByteAt(q, 1).None?;
    } else {
      assert UInt16At(q, 0) == UInt16At(a, 0);
      assert ByteAt(q, 1) == ByteAt(a, 1);
      assert BytesAt(q, 2, c).None?;
    }
  }

  lemma ErrorReadsExactly(f: Frame)
    requires f.id == EVT_ERROR
    requires Decode(f).Some?
    ensures ReadsExactly(f, Arity(Decode(f).value))
  {
    var a := f.args;
    var e := DecodeError(a).value;
    var n := ErrorArity(e);
    var p := a[..n];
    var q := a[..n - 1];
    assert ByteAt(p, 0) == ByteAt(a, 0);
    assert ByteAt(p, 1) == ByteAt(a, 1);
    assert UInt16At(p, 1) == UInt16At(a, 1);
    assert n == 3 ==> ByteAt(p, 2) == ByteAt(a, 2);
    assert DecodeError(p) == DecodeError(a);
    assert n == 3 ==> ByteAt(q, 0) == ByteAt(a, 0) && ByteAt(q, 1) == ByteAt(a, 1) && ByteAt(q, 2).None?;
    assert n == 2 ==> ByteAt(q, 0) == ByteAt(a, 0) && ByteAt(q, 1).None? && UInt16At(q, 1).None?;
    assert DecodeError(q).None?;
  }

  /** Reading bytes is unaffected by arguments after them. */
  lemma BytesAtPrefix(a: seq<Arg>, i: nat, n: nat, m: nat)
    requires i + n <= m <= |a|
    ensures BytesAt(a[..m], i, n) == BytesAt(a, i, n)
  {
    assert forall k :: i <= k < i + n ==> a[..m][k] == a[k];
    if BytesAt(a, i, n).Some? {
      assert BytesAt(a[..m], i, n).value == BytesAt(a, i, n).value;
    }
  }

  /** An error code without an arm of its own (0x00 included) keeps the raw
      code and reads exactly one more byte, widened to 16 bits. */
  lemma UnlistedErrorCodeFallsBack(code: u8, raw: u8, rest: seq<Arg>)
    requires !IsListedErrorCode(code)
    ensures Decode(Frame(EVT_ERROR, [ByteArg(code), ByteArg(raw)] + rest))
         == Some(Error(UnknownError(code, raw as u16)))
    ensures ErrorCode(UnknownError(code, raw as u16)) == code
  {
  }

  /** A frame whose id has no callback is delivered whole, as Unknown. */
  lemma UnattachedIdIsUnknown(f: Frame)
    requires !IsAttachedEvent(f.id)
    ensures Decode(f) == Some(Unknown(f))
  {
  }

  /** The arm chosen for an error is the one its code names. */
  lemma DecodedErrorKeepsCode(args: seq<Arg>)
    requires DecodeError(args).Some?
    ensures args[0] == ByteArg(ErrorCode(DecodeError(args).value))
  {
  }
}
