# SLOT IO card: host driver, state cache and firmware core in Dafny

This project models the IO card of a slot machine cabinet. The card is a
microcontroller that counts coins, drives an ejector, reads keys and keeps
its settings in a FRAM chip. A host program talks to it over a serial link.

On the host side (C#):

- `IOCard` queues commands, tracks the connection, and decodes the frames the
  card sends into typed events. Modules `HostProtocol` and `IOCardDriver`
  model it.
- `IOCardStateCache` folds those events into the card's identity, coin
  counters, key states, a bounded error queue and an `IsChanged` flag. Module
  `StateCache` models it. Module `CardSession` wires a card to a cache.

On the firmware side (C++):

- The id tables (`Communication.h`) are module `FirmwareIds`.
- The event serialiser (`Communicator.h`) is module `FirmwareEvents`.
- The double-bank FRAM configuration store (`Configuration.h`) is module
  `FramConfig`.
- The pulse generator is module `PulseGen`.
- The input debouncer is module `Debouncing`.
- The two timeout trackers share module `Timeouts`, with one class each in
  `TimeoutTracking` and `EjectTimeoutTracking`.

Module `RoundTrip` connects the two sides. For every firmware dispatcher, the
host decoder yields the event that carries the same values and reads exactly
the arguments sent. The one exception is `dispatchErrorNotATrack` when
`ERR_NOT_A_TRACK` expands to 0xFF. It round-trips when the macro expands to
the id table's 0x03 (see Findings).

A frame is an id plus a sequence of typed arguments (u8, u16, u32, string);
the serial framing is the job of an external codec. Objects whose fields the
source updates in place are classes with `modifies` clauses. Each method is
specified by a pure function of the old state (`Fields() ==
Updated(old(Fields()), ...)`), and the lemmas about those functions carry the
properties. Unsigned 32-bit time and counters are integers reduced modulo 2^32
(module `Words`). Protocol bytes and words are bit-vectors.

Behaviours of the code that the model keeps:

- Connecting does not set `IsChanged`
  (csharp_driver/IOCardLibrary/IOCardStateCache.cs:221-226).
- A mask bit of 1 never turns a NotAKey entry back into a key
  (csharp_driver/IOCardLibrary/IOCardStateCache.cs:271-275).
- The length prefixes of SET_OUTPUT and WRITE_STORAGE are cast to a byte
  without any check (csharp_driver/IOCardLibrary/IOCard.cs:194-206 and
  267-280).
- The default arm of the error switch reads one byte
  (csharp_driver/IOCardLibrary/IOCard.cs:482-484).
- No setter advances the bank sequence number
  (firmware/src/Configuration.h:152-228).

## Model

| member | source | states |
|---|---|---|
| Words.ToInt32 | firmware/src/Debounce.h:31 | storing into an `int32_t` gives a value in int32 range, and a value already in range is kept |
| Words.ElapsedAcrossWrap | firmware/src/TimeoutTracker.h:47 | `now - start` on `uint32_t` recovers the elapsed time even when the clock wrapped past 2^32 |
| HostProtocol.DecodeReadsExactly | csharp_driver/IOCardLibrary/IOCard.cs:380-500 | every attached callback reads exactly as many arguments as its event carries: later arguments are ignored, and without the last one the frame does not decode |
| HostProtocol.FixedLayoutReadsExactly | csharp_driver/IOCardLibrary/IOCard.cs:382-431 | GET_INFO, COIN_COUNTER, WRITE_STORAGE and DEBUG callbacks read exactly their fixed fields |
| HostProtocol.CountPrefixedReadsExactly | csharp_driver/IOCardLibrary/IOCard.cs:404-423 | KEY_MASKS and KEYS read a u8 count and then exactly that many bytes |
| HostProtocol.ReadStorageReadsExactly | csharp_driver/IOCardLibrary/IOCard.cs:432-442 | READ_STORAGE reads address, length, then exactly `length` bytes |
| HostProtocol.ErrorReadsExactly | csharp_driver/IOCardLibrary/IOCard.cs:443-489 | every arm of the error switch, default included, reads exactly its fields after the code |
| HostProtocol.UnlistedErrorCodeFallsBack | csharp_driver/IOCardLibrary/IOCard.cs:482-484 | any code without its own arm, 0x00 included, keeps the raw code and reads one more byte widened to 16 bits |
| HostProtocol.UnattachedIdIsUnknown | csharp_driver/IOCardLibrary/IOCard.cs:495-499 | a frame with an id that has no callback is delivered whole as an Unknown event |
| HostProtocol.DecodedErrorKeepsCode | csharp_driver/IOCardLibrary/IOCard.cs:446-447 | the error event chosen always reports, as its `ErrorCode`, the code byte that was received |
| HostProtocol.Decode | csharp_driver/IOCardLibrary/IOCard.cs:380-500 | the attached callbacks as one function from a frame to its event, None when an argument is missing or has another width; it has no contract of its own, and `DecodeReadsExactly`, `UnattachedIdIsUnknown` and the `RoundTrip` lemmas state its behaviour |
| HostProtocol.DecodeError | csharp_driver/IOCardLibrary/IOCard.cs:443-489 | the EVT_ERROR switch on the code; it has no contract of its own, and `ErrorReadsExactly`, `UnlistedErrorCodeFallsBack` and `DecodedErrorKeepsCode` state its behaviour |
| IOCardDriver.DefaultPositions | csharp_driver/IOCardLibrary/IOCard.cs:64-326 | GET_INFO, GET_KEYS, SET_OUTPUT and READ_STORAGE default to the end of the send queue, every other command to the front |
| IOCardDriver.LengthPrefixTruncates | csharp_driver/IOCardLibrary/IOCard.cs:194-206 | SET_OUTPUT sends the length modulo 256 and then every byte; the prefix is the true length iff fewer than 256 bytes are sent, and 256 bytes go out behind a prefix of 0 |
| Wire.LowByteBelow256 | csharp_driver/IOCardLibrary/IOCard.cs:198 | the `(byte)` cast of a length below 256 keeps its value |
| IOCardDriver.ReceivedCommand.ReadBinByteArg | csharp_driver/IOCardLibrary/IOCard.cs:398 | reads the byte at the cursor, None if it is missing or of another width, and advances |
| IOCardDriver.ReceivedCommand.ReadBinUInt16Arg | csharp_driver/IOCardLibrary/IOCard.cs:426 | reads the u16 at the cursor and advances |
| IOCardDriver.ReceivedCommand.ReadBinUInt32Arg | csharp_driver/IOCardLibrary/IOCard.cs:387 | reads the u32 at the cursor and advances |
| IOCardDriver.ReceivedCommand.ReadBinStringArg | csharp_driver/IOCardLibrary/IOCard.cs:384 | reads the string at the cursor and advances |
| IOCardDriver.ReceivedCommand.ReadByteArray | csharp_driver/IOCardLibrary/IOCard.cs:407-409 | the loop filling `byte[count]` yields exactly the `count` bytes at the cursor, in order, and moves past them |
| IOCardDriver.IOCard.constructor | csharp_driver/IOCardLibrary/IOCard.cs:516 | a new card has no messenger: disconnected, nothing queued, nothing raised |
| IOCardDriver.IOCard.IsConnected | csharp_driver/IOCardLibrary/IOCard.cs:502 | `mMessenger != null` as the connection flag; it has no contract of its own: `Connect` sets it, `Disconnect` clears it, and every `Query*` method queues its command exactly when it holds (`queued == old(connected)`) |
| IOCardDriver.IOCard.Send | csharp_driver/IOCardLibrary/IOCard.cs:68 | a command is placed at the front or the end of the send queue, and nothing else changes |
| IOCardDriver.IOCard.QueryGetInfo | csharp_driver/IOCardLibrary/IOCard.cs:64-72 | returns whether connected; if so queues one argument-less GET_INFO at the given position, otherwise queues nothing |
| IOCardDriver.IOCard.QueryEjectCoin | csharp_driver/IOCardLibrary/IOCard.cs:85-96 | returns whether connected; if so queues EJECT_COIN [u8 track, u8 count], otherwise nothing |
| IOCardDriver.IOCard.QueryGetCoinCounter | csharp_driver/IOCardLibrary/IOCard.cs:108-118 | returns whether connected; if so queues GET_COIN_COUNTER [u8 track], otherwise nothing |
| IOCardDriver.IOCard.QueryGetKeys | csharp_driver/IOCardLibrary/IOCard.cs:129-137 | returns whether connected; if so queues GET_KEYS, otherwise nothing |
| IOCardDriver.IOCard.QueryGetKeyMasks | csharp_driver/IOCardLibrary/IOCard.cs:148-156 | returns whether connected; if so queues GET_KEY_MASKS, otherwise nothing |
| IOCardDriver.IOCard.QuerySetEjectTimeout | csharp_driver/IOCardLibrary/IOCard.cs:171-182 | returns whether connected; if so queues SET_EJECT_TIMEOUT [u8 track, u32 timeout], otherwise nothing |
| IOCardDriver.IOCard.QuerySetOutput | csharp_driver/IOCardLibrary/IOCard.cs:194-206 | returns whether connected; if so the loop queues SET_OUTPUT [u8 length mod 256, the bytes in order], otherwise nothing |
| IOCardDriver.IOCard.QuerySetTrackLevel | csharp_driver/IOCardLibrary/IOCard.cs:219-230 | returns whether connected; if so queues SET_TRACK_LEVEL [u8 track, u8 level 0/1], otherwise nothing |
| IOCardDriver.IOCard.QueryTickAuditCounter | csharp_driver/IOCardLibrary/IOCard.cs:243-254 | returns whether connected; if so queues TICK_AUDIT_COUNTER [u8 counter, u32 ticks], otherwise nothing |
| IOCardDriver.IOCard.QueryWriteStorage | csharp_driver/IOCardLibrary/IOCard.cs:267-280 | returns whether connected; if so the loop queues WRITE_STORAGE [u16 address, u8 length mod 256, the bytes in order], otherwise nothing |
| IOCardDriver.IOCard.QueryReadStorage | csharp_driver/IOCardLibrary/IOCard.cs:293-304 | returns whether connected; if so queues READ_STORAGE [u16 address, u8 length], otherwise nothing |
| IOCardDriver.IOCard.QueryResetCoinCounter | csharp_driver/IOCardLibrary/IOCard.cs:316-326 | returns whether connected; if so queues RESET_COIN_COUNTER [u8 track], otherwise nothing |
| IOCardDriver.IOCard.Connect | csharp_driver/IOCardLibrary/IOCard.cs:334-356 | connecting while connected fails and keeps the connection; a failed open leaves the card disconnected; success connects with an empty queue and raises Connected exactly once |
| IOCardDriver.IOCard.Disconnect | csharp_driver/IOCardLibrary/IOCard.cs:361-378 | returns true iff the card was connected and the close succeeded; only then does it disconnect and raise Disconnected; otherwise nothing changes |
| IOCardDriver.IOCard.Receive | csharp_driver/IOCardLibrary/IOCard.cs:380-500 | the callbacks, run with an argument cursor, raise exactly the event of the decode table; a COIN_COUNTER_RESULT first puts an ACK at the front of the queue iff connected |
| IOCardDriver.ReceiveError | csharp_driver/IOCardLibrary/IOCard.cs:443-489 | the error switch run with the cursor agrees with the decode table's error arms |
| StateCache.KeyIndexValue | csharp_driver/IOCardLibrary/IOCardStateCache.cs:255 | `(byte)(i * 8 + b)` is `(i mod 32) * 8 + b`: indices wrap after 32 key bytes |
| StateCache.KeyBitsEffect | csharp_driver/IOCardLibrary/IOCardStateCache.cs:253-257 | the inner loop over one key byte sets each of its bit indices to High or Low by the bit, unless NotAKey, and touches nothing else |
| StateCache.KeysEffect | csharp_driver/IOCardLibrary/IOCardStateCache.cs:251-259 | after a key report, each reported index is High iff its bit is set, else Low, unless it was NotAKey; unreported indices are unchanged |
| StateCache.KeysKeepNotAKey | csharp_driver/IOCardLibrary/IOCardStateCache.cs:256-257 | a key report of any length never changes a NotAKey entry |
| StateCache.ApplyKeys | csharp_driver/IOCardLibrary/IOCardStateCache.cs:251-259 | the key fold, one byte after another with the index cast to a byte; it has no contract of its own, and `KeysEffect` and `KeysKeepNotAKey` state its effect on every index |
| StateCache.MaskBitsEffect | csharp_driver/IOCardLibrary/IOCardStateCache.cs:271-275 | the inner loop over one mask byte marks NotAKey exactly the indices of its 0 bits and touches nothing else |
| StateCache.MasksEffect | csharp_driver/IOCardLibrary/IOCardStateCache.cs:269-276 | after a mask report an index is NotAKey if some mask has a 0 bit for it, and is otherwise unchanged, an existing NotAKey included |
| StateCache.ApplyMasks | csharp_driver/IOCardLibrary/IOCardStateCache.cs:269-276 | the mask fold; it has no contract of its own, and `MasksEffect` states its effect on every index |
| StateCache.MaskedOutByBit | csharp_driver/IOCardLibrary/IOCardStateCache.cs:271-274 | for reports of at most 32 bytes, an index is masked out iff it lies in a reported byte and its bit there is 0 |
| StateCache.MaskedKeyIgnoresLevels | csharp_driver/IOCardLibrary/IOCardStateCache.cs:256-274 | for any mask report and any later key reports, an index that a mask bit cleared stays NotAKey, whatever the key bits say |
| StateCache.PushedBound | csharp_driver/IOCardLibrary/IOCardStateCache.cs:287-298 | with capacity at least 1, pushing an error leaves at most `capacity` entries with the new one at the tail, and only the oldest are dropped |
| StateCache.Pushed | csharp_driver/IOCardLibrary/IOCardStateCache.cs:287-295 | the bounded push of one error; it has no contract of its own, and `PushedBound` and `PushedAllKeepsNewest` state what it keeps |
| StateCache.PushedAllKeepsNewest | csharp_driver/IOCardLibrary/IOCardStateCache.cs:287-298 | after any run of errors the queue holds exactly the newest `capacity` errors ever received, in arrival order |
| StateCache.IOCardStateCache.constructor | csharp_driver/IOCardLibrary/IOCardStateCache.cs:125-129 | a new cache has the given card and capacity and knows nothing: no identity, no counters, no keys, no errors, not changed |
| StateCache.IOCardStateCache.SetCard | csharp_driver/IOCardLibrary/IOCardStateCache.cs:22-40 | changing the card attaches the cache to the new card and leaves the cached state alone |
| StateCache.IOCardStateCache.SetErrorQueueCapacity | csharp_driver/IOCardLibrary/IOCardStateCache.cs:47-68 | the dequeue loop drops the oldest errors until at most `capacity` remain, and nothing else changes |
| StateCache.IOCardStateCache.PopError | csharp_driver/IOCardLibrary/IOCardStateCache.cs:135-141 | returns and removes the oldest error (FIFO), None on an empty queue |
| StateCache.IOCardStateCache.ErrorQueueCount | csharp_driver/IOCardLibrary/IOCardStateCache.cs:75-81 | the count is 0 exactly when the queue is empty (`IsErrorQueueEmpty`) |
| StateCache.IOCardStateCache.Manufacturer | csharp_driver/IOCardLibrary/IOCardStateCache.cs:89-96 | null (None) exactly while no identity has been received |
| StateCache.IOCardStateCache.Product | csharp_driver/IOCardLibrary/IOCardStateCache.cs:98-105 | null (None) exactly while no identity has been received |
| StateCache.IOCardStateCache.Version | csharp_driver/IOCardLibrary/IOCardStateCache.cs:107-114 | null (None) exactly while no identity has been received |
| StateCache.IOCardStateCache.ProtocolVersion | csharp_driver/IOCardLibrary/IOCardStateCache.cs:116-123 | -1 exactly while no identity has been received, and otherwise the received protocol version |
| StateCache.IOCardStateCache.GetCoinCounter | csharp_driver/IOCardLibrary/IOCardStateCache.cs:148-158 | a track never reported reads 0 |
| StateCache.IOCardStateCache.GetKey | csharp_driver/IOCardLibrary/IOCardStateCache.cs:164-174 | a key never reported reads StateUnknown |
| StateCache.IOCardStateCache.Processed | csharp_driver/IOCardLibrary/IOCardStateCache.cs:178-181 | clears `IsChanged` and nothing else, so calling it twice is the same as once |
| StateCache.IOCardStateCache.OnConnected | csharp_driver/IOCardLibrary/IOCardStateCache.cs:221-226 | on a connected card, GET_KEY_MASKS lands at the front of the send queue and GET_INFO at the end; the cache itself, `IsChanged` included, is untouched |
| StateCache.IOCardStateCache.OnDisconnected | csharp_driver/IOCardLibrary/IOCardStateCache.cs:228-245 | afterwards Manufacturer is null, ProtocolVersion is -1, every counter reads 0, every key reads Unknown, the error queue is empty and `IsChanged` is set |
| StateCache.IOCardStateCache.OnKeys | csharp_driver/IOCardLibrary/IOCardStateCache.cs:247-263 | the nested bit loops compute the key fold (`ApplyKeys`) and set `IsChanged`; counters, identity and errors are untouched |
| StateCache.IOCardStateCache.OnKeyMasks | csharp_driver/IOCardLibrary/IOCardStateCache.cs:265-280 | the nested bit loops compute the mask fold (`ApplyMasks`) and set `IsChanged` |
| StateCache.IOCardStateCache.OnError | csharp_driver/IOCardLibrary/IOCardStateCache.cs:287-298 | the eviction loop then the append give the bounded push (`Pushed`) and set `IsChanged` |
| StateCache.IOCardStateCache.OnGetInfoResult | csharp_driver/IOCardLibrary/IOCardStateCache.cs:305-311 | the identity getters now report the received identity, and `IsChanged` is set |
| StateCache.IOCardStateCache.OnCoinCounterResult | csharp_driver/IOCardLibrary/IOCardStateCache.cs:313-319 | the reported track now reads the reported count (last write wins), every other track keeps its value, and `IsChanged` is set |
| StateCache.IOCardStateCache.Fold | csharp_driver/IOCardLibrary/IOCardStateCache.cs:206-219 | each subscribed event reaches its handler; `IsChanged` is set exactly by info, coin, key, mask and error events; storage, debug and unknown events leave the state alone |
| CardSession.Session.Connect | csharp_driver/IOCardLibrary/IOCardStateCache.cs:221-226 | a connect succeeds iff the card was disconnected and the port opened; on success the card raises Connected and an attached cache leaves exactly [GET_KEY_MASKS, GET_INFO] queued; on failure the card is unchanged; the cache never changes |
| CardSession.Session.Disconnect | csharp_driver/IOCardLibrary/IOCard.cs:361-378 | a successful disconnect clears the send queue and raises Disconnected on the card, and empties an attached cache and sets its `IsChanged`; on failure card and cache are unchanged |
| CardSession.Session.Receive | csharp_driver/IOCardLibrary/IOCardStateCache.cs:206-219 | a received frame is decoded and its event folded into the attached cache; a coin-counter result on a connected card puts an ACK at the front of the send queue, and every other frame leaves the queue alone; an unattached cache never changes |
| CardSession.KeysReportReachesCache | firmware/src/Communicator.h:46-52 | a firmware key report, decoded by the host, sets each reported key's state from its bit unless the key is NotAKey |
| CardSession.MaskReportReachesCache | firmware/src/Communicator.h:36-43 | the firmware's three key masks, decoded by the host, mark NotAKey exactly the first-24 keys with a 0 mask bit and leave every other key alone |
| FirmwareIds.TablesAreDistinct | firmware/src/Communication.h:4-36 | the 14 command ids, the 9 event ids and the 8 error codes are each pairwise distinct |
| FirmwareIds.TablesAgreeWithHost | firmware/src/Communication.h:4-36 | every command, event and error the host also names has the host's numeric value |
| FirmwareIds.BootEventIsUnknownToHost | firmware/src/Communication.h:25 | a BOOT event, whatever it carries, reaches the host's unknown-event fallback |
| FirmwareIds.OutOfRangeIsUnknownErrorToHost | firmware/src/Communication.h:35 | OUT_OF_RANGE has no arm on the host and decodes as an unknown error that keeps the code 0x07 |
| FirmwareIds.RebootHasNoHostEncoder | firmware/src/Communication.h:17 | REBOOT's value is no host command, so the host can never send it |
| FirmwareEvents.Communicator.constructor | firmware/src/Communicator.h:12-15 | a new communicator has sent nothing and carries the compile-time constants it was built with |
| FirmwareEvents.GetInfoFrame | firmware/src/Communicator.h:18-25 | the frame that `dispatchGetInfo` sends: GET_INFO_RESULT: the three identity strings and the u32 protocol version; it has no contract of its own, and the `RoundTrip` lemmas state what the host decodes from it |
| FirmwareEvents.CoinCounterFrame | firmware/src/Communicator.h:28-33 | the frame that `dispatchCoinCounter` sends: COIN_COUNTER_RESULT: the track byte and the u32 count; it has no contract of its own, and the `RoundTrip` lemmas state what the host decodes from it |
| FirmwareEvents.KeyMasksFrame | firmware/src/Communicator.h:36-43 | the frame that `dispatchKeyMasks` sends: KEY_MASKS_RESULT: a count of 3 and the three mask bytes; it has no contract of its own, and the `RoundTrip` lemmas state what the host decodes from it |
| FirmwareEvents.KeysFrame | firmware/src/Communicator.h:46-52 | the frame that `dispatchKeys` sends: KEYS_RESULT: the length byte and that many key bytes; it has no contract of its own, and the `RoundTrip` lemmas state what the host decodes from it |
| FirmwareEvents.WriteStorageFrame | firmware/src/Communicator.h:55-60 | the frame that `dispatchWriteStorage` sends: WRITE_STORAGE_RESULT: the u16 address and the length byte; it has no contract of its own, and the `RoundTrip` lemmas state what the host decodes from it |
| FirmwareEvents.ReadStorageFrame | firmware/src/Communicator.h:63-70 | the frame that `dispatchReadStorage` sends: READ_STORAGE_RESULT: address, length, then the buffer's bytes; it has no contract of its own, and the `RoundTrip` lemmas state what the host decodes from it |
| FirmwareEvents.ErrorEjectInterruptedFrame | firmware/src/Communicator.h:73-79 | the frame that `dispatchErrorEjectInterrupted` sends: ERROR with EJECT_INTERRUPTED, the track and the count; it has no contract of its own, and the `RoundTrip` lemmas state what the host decodes from it |
| FirmwareEvents.ErrorEjectTimeoutFrame | firmware/src/Communicator.h:82-88 | the frame that `dispatchErrorEjectTimeout` sends: ERROR with EJECT_TIMEOUT, the track and the coins; it has no contract of its own, and the `RoundTrip` lemmas state what the host decodes from it |
| FirmwareEvents.ErrorNotATrackFrame | firmware/src/Communicator.h:91-96 | the frame that `dispatchErrorNotATrack` sends: ERROR with the not-a-track code passed in, and the track; it has no contract of its own, and the `RoundTrip` lemmas state what the host decodes from it |
| FirmwareEvents.ErrorNotACounterFrame | firmware/src/Communicator.h:99-104 | the frame that `dispatchErrorNotACounter` sends: ERROR with NOT_A_COUNTER and the counter; it has no contract of its own, and the `RoundTrip` lemmas state what the host decodes from it |
| FirmwareEvents.ErrorProtectedStorageFrame | firmware/src/Communicator.h:107-112 | the frame that `dispatchErrorProtectedStorage` sends: ERROR with PROTECTED_STORAGE and the u16 address; it has no contract of its own, and the `RoundTrip` lemmas state what the host decodes from it |
| FirmwareEvents.ErrorTooLongFrame | firmware/src/Communicator.h:114-120 | the frame that `dispatchErrorTooLong` sends: ERROR with TOO_LONG, the maximum and the length; it has no contract of its own, and the `RoundTrip` lemmas state what the host decodes from it |
| FirmwareEvents.ErrorUnknownCommandFrame | firmware/src/Communicator.h:123-128 | the frame that `dispatchErrorUnknownCommand` sends: ERROR with UNKNOWN_COMMAND and the command; it has no contract of its own, and the `RoundTrip` lemmas state what the host decodes from it |
| FirmwareEvents.Communicator.SendCmdStart | firmware/src/Communicator.h:19 | starts an empty frame with the given id without sending anything |
| FirmwareEvents.Communicator.SendCmdArg | firmware/src/Communicator.h:23 | appends one argument to the frame being built |
| FirmwareEvents.Communicator.SendCmdEnd | firmware/src/Communicator.h:24 | hands the frame built so far to the messenger |
| FirmwareEvents.Communicator.DispatchGetInfoResult | firmware/src/Communicator.h:18-25 | sends exactly one frame: GET_INFO_RESULT with the three identity strings and u32 20170123 |
| FirmwareEvents.Communicator.DispatchCoinCounterResult | firmware/src/Communicator.h:28-33 | sends exactly COIN_COUNTER_RESULT [u8 track, u32 coins] |
| FirmwareEvents.Communicator.DispatchKeyMasksResult | firmware/src/Communicator.h:36-43 | sends exactly KEY_MASKS_RESULT [3, IN_MASK_0, IN_MASK_1, IN_MASK_2] |
| FirmwareEvents.Communicator.DispatchKeysResult | firmware/src/Communicator.h:46-52 | the loop sends KEYS_RESULT with the length and exactly the first `length` key bytes, in order |
| FirmwareEvents.Communicator.DispatchWriteStorageResult | firmware/src/Communicator.h:55-60 | sends exactly WRITE_STORAGE_RESULT [u16 address, u8 length] |
| FirmwareEvents.Communicator.DispatchReadStorageResult | firmware/src/Communicator.h:63-70 | the loop sends READ_STORAGE_RESULT [u16 address, u8 length, the first `length` buffer bytes] |
| FirmwareEvents.Communicator.DispatchErrorEjectInterrupted | firmware/src/Communicator.h:73-79 | sends ERROR [EJECT_INTERRUPTED, u8 track, u8 count] |
| FirmwareEvents.Communicator.DispatchErrorEjectTimeout | firmware/src/Communicator.h:82-88 | sends ERROR [EJECT_TIMEOUT, u8 track, u8 coins] |
| FirmwareEvents.Communicator.DispatchErrorNotATrack | firmware/src/Communicator.h:91-96 | sends ERROR [the code `ERR_NOT_A_TRACK` expands to, u8 track] |
| FirmwareEvents.Communicator.DispatchErrorNotACounter | firmware/src/Communicator.h:99-104 | sends ERROR [NOT_A_COUNTER, u8 counter] |
| FirmwareEvents.Communicator.DispatchErrorProtectedStorage | firmware/src/Communicator.h:107-112 | sends ERROR [PROTECTED_STORAGE, u16 address] |
| FirmwareEvents.Communicator.DispatchErrorTooLong | firmware/src/Communicator.h:114-120 | sends ERROR [TOO_LONG, MAX_BYTES_LENGTH, u8 length] |
| FirmwareEvents.Communicator.DispatchErrorUnknownCommand | firmware/src/Communicator.h:123-128 | sends ERROR [UNKNOWN_COMMAND, u8 command] |
| RoundTrip.GetInfoRoundTrip | firmware/src/Communicator.h:18-25 | the host decodes the firmware's identity frame to the same three strings and protocol version 20170123, reading every argument |
| RoundTrip.CoinCounterRoundTrip | firmware/src/Communicator.h:28-33 | the host decodes the same track and coin count, reading every argument |
| RoundTrip.KeyMasksRoundTrip | firmware/src/Communicator.h:36-43 | the host decodes the three masks in order |
| RoundTrip.KeysRoundTrip | firmware/src/Communicator.h:46-52 | the host decodes exactly the first `length` key bytes, in order |
| RoundTrip.WriteStorageRoundTrip | firmware/src/Communicator.h:55-60 | the host decodes the same address and length |
| RoundTrip.ReadStorageRoundTrip | firmware/src/Communicator.h:63-70 | the host decodes the same address and exactly the first `length` buffer bytes |
| RoundTrip.ErrorEjectInterruptedRoundTrip | firmware/src/Communicator.h:73-79 | the host decodes an eject-interrupted error with the same track and count |
| RoundTrip.ErrorEjectTimeoutRoundTrip | firmware/src/Communicator.h:82-88 | the host decodes an eject-timeout error with the same track and coins |
| RoundTrip.ErrorNotACounterRoundTrip | firmware/src/Communicator.h:99-104 | the host decodes a not-a-counter error with the same counter |
| RoundTrip.ErrorProtectedStorageRoundTrip | firmware/src/Communicator.h:107-112 | the host decodes a protected-storage error with the same address |
| RoundTrip.ErrorTooLongRoundTrip | firmware/src/Communicator.h:114-120 | the firmware's limit arrives as the desired length and the rejected length as the requested one |
| RoundTrip.ErrorUnknownCommandRoundTrip | firmware/src/Communicator.h:123-128 | the host decodes an unknown-command error with the command widened to 16 bits |
| RoundTrip.ErrorNotATrackAsCompiled | firmware/src/Communicator.h:91-96 | with the code as compiled (0xFF) the host decodes an unknown-command error naming the track, never a not-a-track error |
| RoundTrip.ErrorNotATrackRoundTrip | firmware/src/Communicator.h:91-96 | with the id table's code 0x03 the host decodes a not-a-track error with the same track |
| FramConfig.TrackIndexMapping | firmware/src/Configuration.h:192-206 | exactly the five tracks have a slot, each a distinct one below 5; every other byte has none |
| FramConfig.RecordLayout | firmware/src/Configuration.h:7-18 | seq, track levels, coins_to_eject[8], coin_count[8] and the checksum fill 43 bytes in that order, which fits in a 256-byte bank |
| FramConfig.SealedIsGood | firmware/src/Configuration.h:231-236 | the checksum does not read its own byte, so writing it makes the record good and leaves the other bytes alone |
| FramConfig.Checksum | firmware/src/Configuration.h:231-236 | the seed 0x87 XOR-ed with every record byte but the last; it has no contract of its own, and `SealedIsGood`, `XorFoldUpdate` and `SingleByteCorruptionDetected` state its properties |
| FramConfig.XorFoldUpdate | firmware/src/Configuration.h:231-236 | changing one byte changes the XOR checksum by the XOR of the old and new byte |
| FramConfig.SingleByteCorruptionDetected | firmware/src/Configuration.h:231-236 | any change to a single byte of a good record, the checksum byte included, makes the checksum fail |
| FramConfig.XorFoldZeros | firmware/src/Configuration.h:105-106 | the checksum of an all-zero record is the seed |
| FramConfig.BlankIsGood | firmware/src/Configuration.h:104-108 | the reset record is all zeros with checksum 0x87, and it is good |
| FramConfig.BootRecordIsGood | firmware/src/Configuration.h:40-136 | whatever the banks hold, `begin` settles on a record whose checksum is good |
| FramConfig.BootSelect | firmware/src/Configuration.h:84-122 | the bank choice from the two images; it has no contract of its own, and `BootRecordIsGood`, `BootPrefersGoodAndNewer` and `SeqWrapsAround` state its properties |
| FramConfig.BootPrefersGoodAndNewer | firmware/src/Configuration.h:83-123 | a good bank is never discarded for a bad one; of two good banks bank 1 wins iff its seq is bank 0's plus 1 mod 256; two bad banks give the blank record on bank 0 |
| FramConfig.SeqWrapsAround | firmware/src/Configuration.h:45 | a good bank 1 at seq 0x00 is newer than a good bank 0 at seq 0xFF |
| FramConfig.StoreThenLoad | firmware/src/Configuration.h:253 | a u32 stored little-endian reads back, and no byte outside its four changes |
| FramConfig.CoinCountOffsetCounterexample | firmware/src/Configuration.h:225 | on blank banks, writing 1 for track INSERT_2 where `setCoinCount` writes it leaves that slot reading 0 in FRAM and makes slot 0 read 256 |
| FramConfig.CoinCountOffsetAligned | firmware/src/Configuration.h:225 | writing a slot at 10 + 4 * index reads back and leaves every other slot and the checksum byte alone |
| FramConfig.StoredSlotSurvivesChecksum | firmware/src/Configuration.h:225-226 | the checksum write that follows the count write does not disturb the stored count |
| FramConfig.SealedKeepsSlot | firmware/src/Configuration.h:222-224 | recomputing the checksum after storing a count into a slot before the checksum byte keeps that slot's value |
| FramConfig.WithBitSetsOnlyThatBit | firmware/src/Configuration.h:243-250 | a one-bit field assignment sets that bit to the level and keeps the other seven |
| FramConfig.TrackLevel | firmware/src/Configuration.h:138-150 | the level is 0xFF exactly for an unknown track and otherwise 0 or 1 |
| FramConfig.SetLevelThenGet | firmware/src/Configuration.h:152-162 | a level set for a track reads back, and no other track's level moves |
| FramConfig.Configuration.constructor | firmware/src/Configuration.h:34-38 | a new configuration uses bank flag false over the two given banks |
| FramConfig.Configuration.GetChecksum | firmware/src/Configuration.h:231-236 | the XOR loop computes the checksum of `_data` |
| FramConfig.Configuration.ReadBank | firmware/src/Configuration.h:53 | `readArray` copies the bank's 43-byte record into `_data` |
| FramConfig.Configuration.WriteBank | firmware/src/Configuration.h:107-108 | `writeArray` copies `_data` into the first 43 bytes of a bank and leaves the rest |
| FramConfig.Configuration.CheckBank | firmware/src/Configuration.h:52-55 | loads a bank and reports whether its checksum is good, and its seq |
| FramConfig.Configuration.ResetBanks | firmware/src/Configuration.h:104-108 | `_data` and both banks receive the blank record |
| FramConfig.Configuration.Begin | firmware/src/Configuration.h:40-136 | `_data` ends as the record bank selection picks and the flag names it; the banks are rewritten only when both are bad |
| FramConfig.Configuration.Settle | firmware/src/Configuration.h:84-122 | from the two checked banks, `_data` and the bank flag end as bank selection picks; both banks are rewritten blank only when both are bad, and otherwise left alone |
| FramConfig.Configuration.Reseal | firmware/src/Configuration.h:165 | rewrites the checksum byte so that `_data` is good |
| FramConfig.Configuration.GetTrackLevel | firmware/src/Configuration.h:138-150 | 0xFF (`ERR_NOT_A_TRACK` as Configuration.h defines it) exactly for a byte that names no track, and otherwise a level 0 or 1; the value is `TrackLevel` of the level byte, which `SetLevelThenGet` ties to the setter |
| FramConfig.Configuration.GetCoinsToEject | firmware/src/Configuration.h:170-176 | 0 for every track but EJECT, and EJECT's slot (index 4) of `coins_to_eject` otherwise |
| FramConfig.Configuration.GetCoinCount | firmware/src/Configuration.h:192-206 | 0 for a byte that names no track, and otherwise the little-endian u32 in that track's 4-byte slot of `coin_count` |
| FramConfig.Configuration.WriteByte | firmware/src/Configuration.h:166 | `writeByte` changes exactly one byte of one bank |
| FramConfig.Configuration.WriteLong | firmware/src/Configuration.h:225 | `writeLong` stores four bytes little-endian at the offset |
| FramConfig.Configuration.SetTrackLevel | firmware/src/Configuration.h:152-168 | flips the bank even for an unknown track; sets the level that then reads back; keeps every other track's level and a good checksum; writes the level and checksum bytes to the target bank only |
| FramConfig.Configuration.SetCoinsToEject | firmware/src/Configuration.h:178-190 | a track other than EJECT changes nothing at all; EJECT flips the bank, stores the count that then reads back, reseals, and writes those two bytes to the target bank only |
| FramConfig.Configuration.StoreCoinCount | firmware/src/Configuration.h:222-224 | the count lands in the track's slot of `_data`, reads back, and the record is resealed |
| FramConfig.Configuration.SetCoinCount | firmware/src/Configuration.h:208-228 | as written: an unknown track changes nothing; otherwise `_data` holds the count, but the bank receives it at 10 + index |
| FramConfig.Configuration.SetCoinCountAligned | firmware/src/Configuration.h:208-228 | corrected: the bank receives the count at the slot's own offset, so the FRAM copy reads back the same count as `_data` |
| PulseGen.Added | firmware/src/Pulse.h:22-24 | `pulse(n)` adds n to the pending count modulo 2^32 and changes nothing else |
| PulseGen.UpdateReportsLevelChange | firmware/src/Pulse.h:27-54 | `update` returns true exactly when `get()` changes |
| PulseGen.UpdateKeepsPending | firmware/src/Pulse.h:45-51 | if a pulse is pending whenever the output is active, `update` keeps that, and its decrement never wraps below zero |
| PulseGen.AddKeepsPending | firmware/src/Pulse.h:22-24 | `pulse(n)` keeps that invariant whenever the count does not overflow |
| PulseGen.AddOverflowBreaksPending | firmware/src/Pulse.h:22-24 | an overflowing `pulse(n)` can leave an active output with nothing pending, so the no-overflow condition is needed |
| PulseGen.OnePulseCycle | firmware/src/Pulse.h:27-54 | from PAUSED with k pending: HIGH (reported), then after more than HIGH_US LOW (reported), then after more than LOW_US PAUSED with k - 1 pending (not reported), across clock wrap |
| PulseGen.Pulse.constructor | firmware/src/Pulse.h:16-19 | only the pending count is cleared; the state and start time are whatever memory held |
| PulseGen.Pulse.AddPulses | firmware/src/Pulse.h:22-24 | the fields become `Added` of the old ones |
| PulseGen.Pulse.Update | firmware/src/Pulse.h:27-54 | the fields step as the PAUSED/HIGH/LOW machine (any other state acts as LOW), and the result is true iff `get()` changed |
| PulseGen.Updated | firmware/src/Pulse.h:27-54 | `update(now)` on a state value; it has no contract of its own, and `UpdateReportsLevelChange`, `UpdateKeepsPending` and `OnePulseCycle` state its behaviour |
| PulseGen.Pulse.Get | firmware/src/Pulse.h:56-59 | `get()`: the output level of the object's state; `UpdateReportsLevelChange` relates it to `update` |
| Debouncing.Integrated | firmware/src/Debounce.h:30-34 | the energy goes down by the elapsed time at the active level and up otherwise, wrapped into int32 |
| Debouncing.Fed | firmware/src/Debounce.h:29-50 | after a feed the energy is within [-T, T] and the feed time is now; Rise fires iff the output goes false to true and Fall iff true to false, on crossing T or -T; inside [-T, T] the output is kept |
| Debouncing.IntegratedWithoutWrap | firmware/src/Debounce.h:30-34 | between clamps, with feeds closer than 2^31 - T, the energy moves by exactly the elapsed time |
| Debouncing.HeldActiveLevelFalls | firmware/src/Debounce.h:43-48 | holding the active level for more than 2T drives a high output low and fires Fall |
| Debouncing.HeldInactiveLevelRises | firmware/src/Debounce.h:37-42 | holding the inactive level for more than 2T drives a low output high and fires Rise |
| Debouncing.Debounce.constructor | firmware/src/Debounce.h:9-14 | output false, energy 0, feed time 0 |
| Debouncing.Debounce.Begin | firmware/src/Debounce.h:17-21 | sets the output and the time stamp and keeps the energy |
| Debouncing.Debounce.FeedAt | firmware/src/Debounce.h:29-50 | the two-level feed steps the fields as `Fed` and keeps the energy in [-T, T] |
| Debouncing.Debounce.Feed | firmware/src/Debounce.h:24-26 | the one-level feed is the two-level feed at ACTIVE_LEVEL |
| Timeouts.FiresAfterTimeout | firmware/src/TimeoutTracker.h:46-47 | a started tracker fires exactly when more than the timeout has passed since the start, across clock wrap |
| Timeouts.FiresOnce | firmware/src/TimeoutTracker.h:46-58 | a firing trigger disarms, so no later trigger fires before the next start; a trigger that does not fire changes nothing |
| Timeouts.StoppedNeverFires | firmware/src/TimeoutTracker.h:31-43 | a stopped tracker never fires |
| Timeouts.BeginKeepsArming | firmware/src/TimeoutTracker.h:20-23 | `begin` changes only the timeout |
| Timeouts.Begun | firmware/src/TimeoutTracker.h:21-24 | `begin` on a tracker value; it has no contract of its own, and `BeginKeepsArming` states its behaviour |
| Timeouts.Started | firmware/src/TimeoutTracker.h:26-30 | `start` on a tracker value; it has no contract of its own, and `FiresAfterTimeout` states its behaviour |
| Timeouts.Stopped | firmware/src/TimeoutTracker.h:32-43 | `stop` on a tracker value; it has no contract of its own, and `StoppedNeverFires` states its behaviour |
| Timeouts.Triggered | firmware/src/TimeoutTracker.h:46-59 | a trigger that fires was armed and only disarms the tracker; a trigger that does not fire changes nothing |
| TimeoutTracking.TimeoutTracker.constructor | firmware/src/TimeoutTracker.h:8-18 | a new tracker is disarmed |
| TimeoutTracking.TimeoutTracker.Begin | firmware/src/TimeoutTracker.h:20-23 | sets the timeout only |
| TimeoutTracking.TimeoutTracker.Start | firmware/src/TimeoutTracker.h:25-29 | arms the tracker from now |
| TimeoutTracking.TimeoutTracker.Stop | firmware/src/TimeoutTracker.h:31-43 | disarms the tracker |
| TimeoutTracking.TimeoutTracker.Trigger | firmware/src/TimeoutTracker.h:45-59 | fires iff armed and more than the timeout has elapsed modulo 2^32, disarming; otherwise nothing changes |
| EjectTimeoutTracking.EjectTimeoutTracker.constructor | firmware/src/EjectTimeoutTracker.h:8-11 | a new tracker is disarmed |
| EjectTimeoutTracking.EjectTimeoutTracker.Begin | firmware/src/EjectTimeoutTracker.h:14-16 | sets the timeout only |
| EjectTimeoutTracking.EjectTimeoutTracker.Start | firmware/src/EjectTimeoutTracker.h:19-22 | arms the tracker from now |
| EjectTimeoutTracking.EjectTimeoutTracker.Stop | firmware/src/EjectTimeoutTracker.h:25-27 | disarms the tracker |
| EjectTimeoutTracking.EjectTimeoutTracker.Trigger | firmware/src/EjectTimeoutTracker.h:30-36 | fires iff armed and more than the timeout has elapsed modulo 2^32, disarming; otherwise nothing changes |

## Left out

- The CmdMessenger frame codec and the serial transport: byte framing, escaping, baud rate and port name are an external library. A frame is an id plus typed arguments, and `Connect`/`Disconnect` take the transport's outcome as a boolean parameter.
- HostProtocol.Decode: a frame whose argument is missing or was sent with another width decodes to None. What the external codec returns then is not part of this model.
- Locks, `ConcurrentQueue` thread safety and multicast delegates: every handler is one atomic sequential step. A subscription is the cache's `card` field, and the `Session` class routes a card's notices to its cache.
- The exceptions of `IOCard.Connect` are `ConnectResult` values.
- Event time stamps and `EventArgs.DateTime`: wall-clock data with no effect on behaviour.
- `Debug.WriteLine` and `DEBUG_SERIAL` output, including the debug-only name of `TimeoutTracker`: logging only. The debug and unknown handlers of the cache only log, so `Fold` leaves the state alone for them.
- `IsErrorQueueEmpty` is `ErrorQueueCount() == 0` and has no member of its own.
- The FRAM I2C driver: the chip is two 256-byte arrays. `writeLong` is taken to store least significant byte first.
- StateCache.IOCardStateCache.OnError: requires a capacity of at least 1. With a smaller capacity the eviction loop of the source never ends.
- StateCache.IOCardStateCache.SetErrorQueueCapacity: a negative capacity with errors queued is excluded, because the dequeue loop of the source never ends then.
- StateCache.KeysEffect: stated for reports of at most 32 key bytes. Longer reports wrap their indices through the byte cast. `OnKeys` and `ApplyKeys` model those too, and `KeysKeepNotAKey` holds for any length.
- FirmwareEvents.Communicator.DispatchKeysResult: requires the key buffer to hold `length` bytes. The C++ reads past the buffer otherwise. `DispatchReadStorageResult` has the same requirement.
- Debouncing.Debounce: requires `DEBOUNCE_TIMEOUT_US` to be non-negative. A negative template argument is not modelled.
- `Pulse::_state` and `_start_us`, and the trackers' `_timeout_us` and `_start_us`, are never initialised in the source. They are constructor parameters here.
- `TimeoutTracker.h` and `EjectTimeoutTracker.h` share one include guard, so a file that includes both sees only the first class. The two classes are modelled independently.
- `MAX_BYTES_LENGTH` and `IN_MASK_0..2` are defined outside the modelled files. They are constructor parameters of `Communicator`, and so is the value `ERR_NOT_A_TRACK` expands to.
- The byte image of the configuration's `_data` struct assumes the AVR layout: no padding before `coin_count` at offset 10, bit-fields allocated least significant bit first, and `uint32_t` stored little-endian. Another compiler's layout is not modelled.
- `main.cpp`, `Ports.h`, `util.h`, `WreckedSPI.h` and the GTK test application: hardware I/O, wiring and UI outside the core.

## Findings

| source | as written | input that shows it | evidently intended | confidence | as-written member | corrected member |
|---|---|---|---|---|---|---|
| firmware/src/Communicator.h:93 | the value sent depends on include order. Communicator.h includes `Communication.h` (0x03) and then `Configuration.h` (0xFF), and the later `#define` wins. So when Communicator.h is included first, the frame carries 0xFF, the UNKNOWN_COMMAND code. When `Configuration.h` was already included (directly, or via `util.h`:5 or `Pulse.h`), its include guard skips it, and 0x03 is sent. No translation unit among the repository's firmware sources includes Communicator.h. | `dispatchErrorNotATrack(5)` is decoded by the host as an unknown command 0x0005 | the code 0x03 of the id table, decoded as not-a-track for track 5 | not executed | RoundTrip.ErrorNotATrackAsCompiled | RoundTrip.ErrorNotATrackRoundTrip |
| firmware/src/Configuration.h:225 | the u32 count goes to FRAM at `CONF_OFFSET_COIN_COUNT + track_idx`, not scaled by the 4-byte slot width | blank banks, `setCoinCount(TRACK_INSERT_2, 1)`: the bank's slot 1 reads 0 and slot 0 reads 256 | offset `CONF_OFFSET_COIN_COUNT + 4 * track_idx`, matching `coin_count[track_idx]` in `_data` | not executed | FramConfig.CoinCountOffsetCounterexample | FramConfig.Configuration.SetCoinCountAligned |
