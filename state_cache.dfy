/** The host-side state cache (`IOCardStateCache`): it folds the events of an
    attached card into the device identity, a map of coin counters, a map of
    key states, a bounded queue of errors and an `IsChanged` flag.

    Key and mask updates are specified by folds over the received bytes
    (`ApplyKeys`, `ApplyMasks`); the handlers run the source's nested bit
    loops and are proved to compute those folds. */
module StateCache {
  import opened Wire
  import opened HostProtocol
  import opened IOCardDriver

  /** IOCardStateCache.KeyState */
  datatype KeyState = StateLow | StateHigh | StateUnknown | StateNotAKey

  const DEFAULT_ERROR_QUEUE_CAPACITY: int := 3000

  /** A C# `byte` used as a dictionary key. */
  type ByteKey = k: int | 0 <= k < 256

  /** Bit `b` of a received byte. */
  predicate Bit(x: u8, b: nat)
    requires b < 8
  {
    (x >> b) & 1 == 1
  }

  /** `(byte)(i * 8 + b)`: the key index of bit `b` of byte `i`. */
  function KeyIndex(i: nat, b: nat): ByteKey
  {
    (i * 8 + b) % 256
  }

  /** The index of bit 0 of byte `i`, after the byte cast. */
  function Base(i: nat): int
  {
    (i % 32) * 8
  }

  lemma KeyIndexValue(i: nat, b: nat)
    requires b < 8
    ensures KeyIndex(i, b) == Base(i) + b
  {
    var q, r := i / 32, i % 32;
    assert i == 32 * q + r;
    assert i * 8 == 256 * q + r * 8 by {
      MulDistributes(32 * q, r, 8);
    }
    WrapByte(q, r * 8 + b);
  }

  /** Before the byte cast wraps, byte `i` starts at key index `8 * i`. */
  lemma BaseBelow32(i: nat)
    requires i < 32
    ensures Base(i) == 8 * i
  {
  }

  lemma MulDistributes(x: int, y: int, z: int)
    ensures (x + y) * z == x * z + y * z
  {
  }

  lemma {:induction false} WrapByte(q: nat, r: nat)
    requires r < 256
    ensures (256 * q + r) % 256 == r
  {
    if q > 0 {
      WrapByte(q - 1, r);
      assert 256 * q + r == 256 * (q - 1) + r + 256;
    }
  }

  function LevelOf(x: u8, b: nat): KeyState
    requires b < 8
  {
    if Bit(x, b) then StateHigh else StateLow
  }

  /** Entry `idx` is the same in both maps. */
  predicate Same(m: map<ByteKey, KeyState>, r: map<ByteKey, KeyState>, idx: ByteKey)
  {
    (idx in m <==> idx in r) && (idx in m ==> m[idx] == r[idx])
  }

  predicate IsNotAKey(m: map<ByteKey, KeyState>, idx: ByteKey)
  {
    idx in m && m[idx] == StateNotAKey
  }

  /** What a key update leaves at `idx` when the bit it carries is `level`. */
  function KeyResult(m: map<ByteKey, KeyState>, idx: ByteKey, level: KeyState): KeyState
  {
    if IsNotAKey(m, idx) then StateNotAKey else level
  }

  // ---- key updates -------------------------------------------------------

  /** One step of the inner loop of `Card_OnKey`. */
  function KeyBit(m: map<ByteKey, KeyState>, i: nat, k: u8, b: nat): map<ByteKey, KeyState>
    requires b < 8
  {
    var idx := KeyIndex(i, b);
    if !IsNotAKey(m, idx) then m[idx := LevelOf(k, b)] else m
  }

  /** The first `n` bits of byte `i`. */
  function ApplyKeyBits(m: map<ByteKey, KeyState>, i: nat, k: u8, n: nat): map<ByteKey, KeyState>
    requires n <= 8
  {
    if n == 0 then m else KeyBit(ApplyKeyBits(m, i, k, n - 1), i, k, n - 1)
  }

  /** All bits of all key bytes, in order. */
  function ApplyKeys(m: map<ByteKey, KeyState>, keys: seq<u8>): map<ByteKey, KeyState>
  {
    if |keys| == 0 then m
    else ApplyKeyBits(ApplyKeys(m, keys[..|keys| - 1]), |keys| - 1, keys[|keys| - 1], 8)
  }

  lemma {:induction false} KeyBitsEffect(m: map<ByteKey, KeyState>, i: nat, k: u8, n: nat, idx: ByteKey)
    requires n <= 8
    ensures var r := ApplyKeyBits(m, i, k, n);
            Base(i) <= idx < Base(i) + n ==>
              idx in r && r[idx] == KeyResult(m, idx, LevelOf(k, idx - Base(i)))
    ensures !(Base(i) <= idx < Base(i) + n) ==> Same(m, ApplyKeyBits(m, i, k, n), idx)
  {
    if n > 0 {
      KeyBitsEffect(m, i, k, n - 1, idx);
      KeyIndexValue(i, n - 1);
    }
  }

  /** With at most 32 key bytes no two bits share an index: every bit sets its
      own entry to its level unless that entry is NotAKey, and entries past
      the last bit keep their value. */
  lemma {:induction false} KeysEffect(m: map<ByteKey, KeyState>, keys: seq<u8>, idx: ByteKey)
    requires |keys| <= 32
    ensures var r := ApplyKeys(m, keys);
            idx < 8 * |keys| ==>
              idx in r && r[idx] == KeyResult(m, idx, LevelOf(keys[idx / 8], idx % 8))
    ensures idx >= 8 * |keys| ==> Same(m, ApplyKeys(m, keys), idx)
  {
    if |keys| > 0 {
      var last := |keys| - 1;
      var pre := keys[..last];
      KeysEffect(m, pre, idx);
      if idx < 8 * last {
        EarlierByteKept(m, keys, idx);
      } else {
        LastByteApplied(m, keys, idx);
      }
    }
  }

  /** The step of `KeysEffect` for a bit of an earlier byte: the last byte
      leaves it as the earlier bytes set it. */
  lemma EarlierByteKept(m: map<ByteKey, KeyState>, keys: seq<u8>, idx: ByteKey)
    requires 0 < |keys| <= 32 && idx < 8 * (|keys| - 1)
    requires var r := ApplyKeys(m, keys[..|keys| - 1]);
             idx in r && r[idx] == KeyResult(m, idx, LevelOf(keys[..|keys| - 1][idx / 8], idx % 8))
    ensures var r := ApplyKeys(m, keys);
            idx in r && r[idx] == KeyResult(m, idx, LevelOf(keys[idx / 8], idx % 8))
  {
    var last := |keys| - 1;
    var pre := keys[..last];
    assert ApplyKeys(m, keys) == ApplyKeyBits(ApplyKeys(m, pre), last, keys[last], 8);
    KeyBitsEffect(ApplyKeys(m, pre), last, keys[last], 8, idx);
    BaseBelow32(last);
    var i := idx / 8;
    assert i < last && keys[i] == pre[i];
  }

  /** The step of `KeysEffect` for a bit of the last byte, or past it. */
  lemma LastByteApplied(m: map<ByteKey, KeyState>, keys: seq<u8>, idx: ByteKey)
    requires 0 < |keys| <= 32 && idx >= 8 * (|keys| - 1)
    requires Same(m, ApplyKeys(m, keys[..|keys| - 1]), idx)
    ensures var r := ApplyKeys(m, keys);
            idx < 8 * |keys| ==>
              idx in r && r[idx] == KeyResult(m, idx, LevelOf(keys[idx / 8], idx % 8))
    ensures idx >= 8 * |keys| ==> Same(m, ApplyKeys(m, keys), idx)
  {
    var last := |keys| - 1;
    var mid := ApplyKeys(m, keys[..last]);
    assert ApplyKeys(m, keys) == ApplyKeyBits(mid, last, keys[last], 8);
    KeyBitsEffect(mid, last, keys[last], 8, idx);
    BaseBelow32(last);
    if idx < 8 * |keys| {
      ByteOfIndex(idx, last);
      var level := LevelOf(keys[last], idx - Base(last));
      assert level == LevelOf(keys[idx / 8], idx % 8);
      assert KeyResult(mid, idx, level) == KeyResult(m, idx, level);
    }
  }

  /** Key index `idx` falls in byte `i`, at bit `idx - 8 * i`. */
  lemma ByteOfIndex(idx: int, i: int)
    requires 0 <= i && 8 * i <= idx < 8 * i + 8
    ensures idx / 8 == i && idx % 8 == idx - 8 * i
  {
  }

  /** A key update never turns a NotAKey entry into a level, however many bytes it carries. */
  lemma {:induction false} KeysKeepNotAKey(m: map<ByteKey, KeyState>, keys: seq<u8>, idx: ByteKey)
    requires IsNotAKey(m, idx)
    ensures IsNotAKey(ApplyKeys(m, keys), idx)
  {
    if |keys| > 0 {
      var last := |keys| - 1;
      KeysKeepNotAKey(m, keys[..last], idx);
      KeyBitsEffect(ApplyKeys(m, keys[..last]), last, keys[last], 8, idx);
    }
  }

  // ---- mask updates ------------------------------------------------------

  /** One step of the inner loop of `Card_OnKeyMasks`. */
  function MaskBit(m: map<ByteKey, KeyState>, i: nat, k: u8, b: nat): map<ByteKey, KeyState>
    requires b < 8
  {
    if !Bit(k, b) then m[KeyIndex(i, b) := StateNotAKey] else m
  }

  function ApplyMaskBits(m: map<ByteKey, KeyState>, i: nat, k: u8, n: nat): map<ByteKey, KeyState>
    requires n <= 8
  {
    if n == 0 then m else MaskBit(ApplyMaskBits(m, i, k, n - 1), i, k, n - 1)
  }

  function ApplyMasks(m: map<ByteKey, KeyState>, masks: seq<u8>): map<ByteKey, KeyState>
  {
    if |masks| == 0 then m
    else ApplyMaskBits(ApplyMasks(m, masks[..|masks| - 1]), |masks| - 1, masks[|masks| - 1], 8)
  }

  /** Byte `i` of the masks has a 0 bit at key index `idx`. */
  predicate ClearsIndex(i: nat, k: u8, idx: ByteKey)
  {
    Base(i) <= idx < Base(i) + 8 && !Bit(k, idx - Base(i))
  }

  /** Some mask byte has a 0 bit at key index `idx`. */
  predicate MaskedOut(masks: seq<u8>, idx: ByteKey)
  {
    exists i :: 0 <= i < |masks| && ClearsIndex(i, masks[i], idx)
  }

  lemma {:induction false} MaskBitsEffect(m: map<ByteKey, KeyState>, i: nat, k: u8, n: nat, idx: ByteKey)
    requires n <= 8
    ensures var r := ApplyMaskBits(m, i, k, n);
            if Base(i) <= idx < Base(i) + n && !Bit(k, idx - Base(i))
            then IsNotAKey(r, idx)
            else Same(m, r, idx)
  {
    if n > 0 {
      MaskBitsEffect(m, i, k, n - 1, idx);
      KeyIndexValue(i, n - 1);
    }
  }

  /** A mask update marks NotAKey exactly the indices some 0 bit names, for
      any number of mask bytes; a 1 bit leaves its entry as it was, so a
      NotAKey entry is never re-admitted. */
  lemma {:induction false} MasksEffect(m: map<ByteKey, KeyState>, masks: seq<u8>, idx: ByteKey)
    ensures MaskedOut(masks, idx) ==> IsNotAKey(ApplyMasks(m, masks), idx)
    ensures !MaskedOut(masks, idx) ==> Same(m, ApplyMasks(m, masks), idx)
  {
    if |masks| > 0 {
      var last := |masks| - 1;
      var pre := masks[..last];
      MasksEffect(m, pre, idx);
      MaskBitsEffect(ApplyMasks(m, pre), last, masks[last], 8, idx);
      if MaskedOut(pre, idx) {
        var i :| 0 <= i < |pre| && ClearsIndex(i, pre[i], idx);
        assert masks[i] == pre[i];
      }
      if MaskedOut(masks, idx) && !ClearsIndex(last, masks[last], idx) {
        var i :| 0 <= i < |masks| && ClearsIndex(i, masks[i], idx);
        assert i < last && pre[i] == masks[i];
      }
      if ClearsIndex(last, masks[last], idx) {
        assert MaskedOut(masks, idx);
      }
    }
  }

  /** With at most 32 mask bytes, a key is masked out exactly when its own
      bit in its own byte is 0. */
  lemma MaskedOutByBit(masks: seq<u8>, idx: ByteKey)
    requires |masks| <= 32
    ensures MaskedOut(masks, idx) <==> idx < 8 * |masks| && !Bit(masks[idx / 8], idx % 8)
  {
    var i := idx / 8;
    forall j | 0 <= j < |masks| && ClearsIndex(j, masks[j], idx)
      ensures j == i
    {
      BaseBelow32(j);
      ByteOfIndex(idx, j);
    }
    if idx < 8 * |masks| {
      BaseBelow32(i);
      ByteOfIndex(idx, i);
      assert ClearsIndex(i, masks[i], idx) == !Bit(masks[i], idx % 8);
    }
  }

  /** Once some mask byte has a 0 bit for a key, that key stays NotAKey
      through any later key report, whatever levels it carries. */
  lemma MaskedKeyIgnoresLevels(m: map<ByteKey, KeyState>, masks: seq<u8>, keys: seq<u8>, idx: ByteKey)
    requires MaskedOut(masks, idx)
    ensures IsNotAKey(ApplyKeys(ApplyMasks(m, masks), keys), idx)
  {
    MasksEffect(m, masks, idx);
    KeysKeepNotAKey(ApplyMasks(m, masks), keys, idx);
  }

  // ---- the error queue ---------------------------------------------------

  /** The newest `n` errors of `q`. */
  function Trim(q: seq<ErrorEvent>, n: nat): seq<ErrorEvent>
  {
    if |q| > n then q[|q| - n..] else q
  }

  /** `Card_OnError` on a queue of capacity `cap`. */
  function Pushed(q: seq<ErrorEvent>, cap: nat, e: ErrorEvent): seq<ErrorEvent>
    requires cap >= 1
  {
    Trim(q, cap - 1) + [e]
  }

  /** `Card_OnError` for each error of `es`, oldest first. */
  function PushedAll(q: seq<ErrorEvent>, cap: nat, es: seq<ErrorEvent>): seq<ErrorEvent>
    requires cap >= 1
    decreases |es|
  {
    if |es| == 0 then q else PushedAll(Pushed(q, cap, es[0]), cap, es[1..])
  }

  /** Pushing one error keeps the queue within capacity, puts the error at
      the tail, and drops only the oldest entries. */
  lemma PushedBound(q: seq<ErrorEvent>, cap: nat, e: ErrorEvent)
    requires cap >= 1
    ensures var r := Pushed(q, cap, e);
            && |r| <= cap && |r| == (if |q| < cap then |q| + 1 else cap)
            && r[|r| - 1] == e
            && r[..|r| - 1] == q[|q| - (|r| - 1)..]
  {
  }

  /** Pushing the first error of a run and then the rest from the new queue
      leaves the same newest `cap` errors as the whole run from the old one. */
  lemma PushedShift(q: seq<ErrorEvent>, cap: nat, es: seq<ErrorEvent>)
    requires cap >= 1 && |q| <= cap && |es| > 0
    ensures Trim(Pushed(q, cap, es[0]) + es[1..], cap) == Trim(q + es, cap)
  {
    assert Pushed(q, cap, es[0]) + es[1..] == Trim(q, cap - 1) + es;
    if |q| == cap {
      assert Trim(q, cap - 1) + es == (q + es)[1..];
    }
  }

  /** However many errors arrive, the queue holds exactly the newest
      `cap` of all errors seen. */
  lemma {:induction false} PushedAllKeepsNewest(q: seq<ErrorEvent>, cap: nat, es: seq<ErrorEvent>)
    requires cap >= 1 && |q| <= cap
    ensures PushedAll(q, cap, es) == Trim(q + es, cap)
    decreases |es|
  {
    if |es| > 0 {
      PushedAllKeepsNewest(Pushed(q, cap, es[0]), cap, es[1..]);
      PushedShift(q, cap, es);
    }
  }

  class IOCardStateCache {
    /** The attached card: its notifications reach this cache. */
    var card: IOCard?
    /** `ErrorQueueCapacity` */
    var capacity: int
    /** `mGetInfoResultEventArgs` */
    var info: Option<DeviceInfo>
    var coinCounters: map<ByteKey, u32>
    var keyStates: map<ByteKey, KeyState>
    /** `mErrors`, oldest first. */
    var errors: seq<ErrorEvent>
    var isChanged: bool

    constructor (card: IOCard? := null, capacity: int := DEFAULT_ERROR_QUEUE_CAPACITY)
      ensures this.card == card && this.capacity == capacity
      ensures info == None && coinCounters == map[] && keyStates == map[] && errors == [] && !isChanged
    {
      this.card := card;
      this.capacity := capacity;
      info := None;
      coinCounters := map[];
      keyStates := map[];
      errors := [];
      isChanged := false;
    }

    /** The `Card` setter: detaches from the old card and attaches to the new one. */
    method SetCard(c: IOCard?)
      modifies this
      ensures card == c
      ensures capacity == old(capacity) && info == old(info) && coinCounters == old(coinCounters)
      ensures keyStates == old(keyStates) && errors == old(errors) && isChanged == old(isChanged)
    {
      card := c;
    }

    /** Unknown until a GET_INFO result arrives. */
    function Manufacturer(): (r: Option<string>)
      reads this
      ensures r.Some? <==> info.Some?
    {
      if info.Some? then Some(info.value.manufacturer) else None
    }

    /** Unknown until a GET_INFO result arrives. */
    function Product(): (r: Option<string>)
      reads this
      ensures r.Some? <==> info.Some?
    {
      if info.Some? then Some(info.value.product) else None
    }

    /** Unknown until a GET_INFO result arrives. */
    function Version(): (r: Option<string>)
      reads this
      ensures r.Some? <==> info.Some?
    {
      if info.Some? then Some(info.value.version) else None
    }

    /** -1 while the identity is unknown. */
    function ProtocolVersion(): (r: int)
      reads this
      ensures r == -1 <==> info.None?
      ensures info.Some? ==> r == info.value.protocolVersion as int
    {
      if info.Some? then info.value.protocolVersion as int else -1
    }

    /** A track never reported reads 0. */
    function GetCoinCounter(track: u8): (r: u32)
      reads this
      ensures track as int !in coinCounters ==> r == 0
    {
      if track as int in coinCounters then coinCounters[track as int] else 0
    }

    /** A key never reported reads StateUnknown. */
    function GetKey(key: u8): (r: KeyState)
      reads this
      ensures key as int !in keyStates ==> r == StateUnknown
    {
      if key as int in keyStates then keyStates[key as int] else StateUnknown
    }

    /** `IsErrorQueueEmpty` is this count being 0. */
    function ErrorQueueCount(): (r: nat)
      reads this
      ensures r == 0 <==> errors == []
    {
      |errors|
    }

    /** The `ErrorQueueCapacity` setter. A negative capacity with errors
        queued would spin for ever, so it is excluded. */
    method SetErrorQueueCapacity(value: int)
      requires value >= 0 || errors == []
      modifies this
      ensures capacity == value
      ensures errors == if value >= 0 then Trim(old(errors), value) else old(errors)
      ensures card == old(card) && info == old(info) && coinCounters == old(coinCounters)
      ensures keyStates == old(keyStates) && isChanged == old(isChanged)
    {
      capacity := value;
      if errors != [] {
        var q := errors;
        while |q| > value
          invariant |q| <= |old(errors)| && q == old(errors)[|old(errors)| - |q|..]
          invariant |old(errors)| <= value ==> q == old(errors)
          invariant |old(errors)| > value ==> |q| >= value
          decreases |q|
        {
          q := q[1..];
        }
        errors := q;
      }
    }

    /** The oldest error, removed from the queue; None when it is empty. */
    method PopError() returns (e: Option<ErrorEvent>)
      modifies this
      ensures old(errors) == [] ==> e == None && errors == []
      ensures old(errors) != [] ==> e == Some(old(errors)[0]) && errors == old(errors)[1..]
      ensures card == old(card) && capacity == old(capacity) && info == old(info)
      ensures coinCounters == old(coinCounters) && keyStates == old(keyStates) && isChanged == old(isChanged)
    {
      if errors == [] {
        return None;
      }
      e := Some(errors[0]);
      errors := errors[1..];
    }

    /** `Processed`: the changes have been seen. */
    method Processed()
      modifies this
      ensures !isChanged
      ensures card == old(card) && capacity == old(capacity) && info == old(info)
      ensures coinCounters == old(coinCounters) && keyStates == old(keyStates) && errors == old(errors)
    {
      isChanged := false;
    }

    /** `Card_OnConnected`: asks the card for its identity (end of the send
        queue) and its key masks (front of the queue). The cache itself, and
        `IsChanged` in particular, is left alone. */
    method OnConnected()
      requires card != null
      modifies card
      ensures card.connected == old(card.connected) && card.raised == old(card.raised)
      ensures card.sendQueue == if card.connected
                                then [Frame(CMD_GET_KEY_MASKS, [])] + old(card.sendQueue) + [Frame(CMD_GET_INFO, [])]
                                else old(card.sendQueue)
    {
      var _ := card.QueryGetInfo();
      var _ := card.QueryGetKeyMasks();
    }

    /** `Card_OnDisconnected`: forget everything the card reported. */
    method OnDisconnected()
      modifies this
      ensures info == None && coinCounters == map[] && keyStates == map[] && errors == [] && isChanged
      ensures card == old(card) && capacity == old(capacity)
      ensures Manufacturer() == None && ProtocolVersion() == -1
      ensures forall t :: GetCoinCounter(t) == 0
      ensures forall k :: GetKey(k) == StateUnknown
    {
      info := None;
      coinCounters := map[];
      keyStates := map[];
      if errors != [] {
        var q := errors;
        while q != []
          decreases |q|
        {
          q := q[1..];
        }
        errors := q;
      }
      isChanged := true;
    }

    /** `Card_OnKey`: every bit of every byte sets its key High or Low,
        except keys marked NotAKey. */
    method OnKeys(keys: seq<u8>)
      modifies this
      ensures keyStates == ApplyKeys(old(keyStates), keys) && isChanged
      ensures card == old(card) && capacity == old(capacity) && info == old(info)
      ensures coinCounters == old(coinCounters) && errors == old(errors)
    {
      var states := keyStates;
      for i := 0 to |keys|
        invariant states == ApplyKeys(old(keyStates), keys[..i])
      {
        for b := 0 to 8
          invariant states == ApplyKeyBits(ApplyKeys(old(keyStates), keys[..i]), i, keys[i], b)
        {
          var index := KeyIndex(i, b);
          if !(index in states) || states[index] != StateNotAKey {
            states := states[index := if Bit(keys[i], b) then StateHigh else StateLow];
          }
        }
        assert keys[..i + 1][..i] == keys[..i];
      }
      assert keys[..|keys|] == keys;
      keyStates := states;
      isChanged := true;
    }

    /** `Card_OnKeyMasks`: every 0 bit marks its key NotAKey. */
    method OnKeyMasks(masks: seq<u8>)
      modifies this
      ensures keyStates == ApplyMasks(old(keyStates), masks) && isChanged
      ensures card == old(card) && capacity == old(capacity) && info == old(info)
      ensures coinCounters == old(coinCounters) && errors == old(errors)
    {
      var states := keyStates;
      for i := 0 to |masks|
        invariant states == ApplyMasks(old(keyStates), masks[..i])
      {
        for b := 0 to 8
          invariant states == ApplyMaskBits(ApplyMasks(old(keyStates), masks[..i]), i, masks[i], b)
        {
          if !Bit(masks[i], b) {
            states := states[KeyIndex(i, b) := StateNotAKey];
          }
        }
        assert masks[..i + 1][..i] == masks[..i];
      }
      assert masks[..|masks|] == masks;
      keyStates := states;
      isChanged := true;
    }

    /** `Card_OnError`: drop the oldest errors until there is room, then
        append. A capacity below 1 would spin for ever, so it is excluded. */
    method OnError(e: ErrorEvent)
      requires capacity >= 1
      modifies this
      ensures capacity == old(capacity)
      ensures errors == Pushed(old(errors), capacity, e) && isChanged
      ensures card == old(card) && info == old(info)
      ensures coinCounters == old(coinCounters) && keyStates == old(keyStates)
    {
      var q := errors;
      while |q| >= capacity
        invariant |q| <= |old(errors)| && q == old(errors)[|old(errors)| - |q|..]
        invariant |old(errors)| <= capacity - 1 ==> q == old(errors)
        invariant |old(errors)| > capacity - 1 ==> |q| >= capacity - 1
        decreases |q|
      {
        q := q[1..];
      }
      errors := q + [e];
      isChanged := true;
    }

    /** `Card_OnGetInfoResult` */
    method OnGetInfoResult(i: DeviceInfo)
      modifies this
      ensures info == Some(i) && isChanged
      ensures Manufacturer() == Some(i.manufacturer) && ProtocolVersion() == i.protocolVersion as int
      ensures card == old(card) && capacity == old(capacity) && coinCounters == old(coinCounters)
      ensures keyStates == old(keyStates) && errors == old(errors)
    {
      info := Some(i);
      isChanged := true;
    }

    /** `Card_OnCoinCounterResult`: the last report for a track wins. */
    method OnCoinCounterResult(track: u8, coins: u32)
      modifies this
      ensures coinCounters == old(coinCounters)[track as int := coins] && isChanged
      ensures GetCoinCounter(track) == coins
      ensures forall t :: t != track ==> GetCoinCounter(t) == old(GetCoinCounter(t))
      ensures card == old(card) && capacity == old(capacity) && info == old(info)
      ensures keyStates == old(keyStates) && errors == old(errors)
    {
      coinCounters := coinCounters[track as int := coins];
      isChanged := true;
    }

    /** Routes one decoded event to its handler. Storage results have no
        handler in the cache; debug and unknown events are only logged. */
    method Fold(ev: Event)
      requires ev.Error? ==> capacity >= 1
      modifies this
      ensures card == old(card) && capacity == old(capacity)
      ensures isChanged == (old(isChanged) || MarksChanged(ev))
      ensures info == if ev.GetInfoResult? then Some(ev.info) else old(info)
      ensures coinCounters == if ev.CoinCounterResult? then old(coinCounters)[ev.track as int := ev.coins] else old(coinCounters)
      ensures keyStates == if ev.Keys? then ApplyKeys(old(keyStates), ev.keys)
                           else if ev.KeyMasks? then ApplyMasks(old(keyStates), ev.keyMasks)
                           else old(keyStates)
      ensures errors == if ev.Error? then Pushed(old(errors), capacity, ev.error) else old(errors)
    {
      match ev
      case GetInfoResult(i) => OnGetInfoResult(i);
      case CoinCounterResult(track, coins) => OnCoinCounterResult(track, coins);
      case KeyMasks(masks) => OnKeyMasks(masks);
      case Keys(keys) => OnKeys(keys);
      case Error(e) => OnError(e);
      case _ =>
    }
  }

  /** The events whose handler sets `IsChanged`. */
  predicate MarksChanged(ev: Event)
  {
    ev.GetInfoResult? || ev.CoinCounterResult? || ev.KeyMasks? || ev.Keys? || ev.Error?
  }
}
