/** A card with a state cache attached to it (`IOCardStateCache.Card`): the
    card's connection notices and decoded events reach the cache's handlers
    while the cache's `Card` is that card. End-to-end lemmas follow a
    firmware report through the host decoder into the cache. */
module CardSession {
  import opened Wire
  import opened HostProtocol
  import opened IOCardDriver
  import opened StateCache
  import FirmwareEvents
  import RoundTrip

  class Session {
    const card: IOCard
    const cache: IOCardStateCache

    constructor (card: IOCard, cache: IOCardStateCache)
      ensures this.card == card && this.cache == cache
    {
      this.card := card;
      this.cache := cache;
    }

    /** The cache's handlers are subscribed to this card. */
    predicate Attached()
      reads this, cache
    {
      cache.card == card
    }

    /** `IOCard.Connect`; on success the attached cache asks for the card's
        identity and key masks, masks first. */
    method Connect(openSucceeds: bool) returns (r: ConnectResult)
      modifies card, cache
      ensures r == ConnectOk <==> !old(card.connected) && openSucceeds
      ensures r == ConnectOk ==> card.connected && card.raised == old(card.raised) + [Connected]
      ensures r == ConnectOk && Attached() ==>
                card.sendQueue == [Frame(CMD_GET_KEY_MASKS, []), Frame(CMD_GET_INFO, [])]
      ensures r == ConnectOk && !Attached() ==> card.sendQueue == []
      ensures r != ConnectOk ==> unchanged(card)
      ensures unchanged(cache)
    {
      r := card.Connect(openSucceeds);
      if r == ConnectOk && cache.card == card {
        cache.OnConnected();
      }
    }

    /** `IOCard.Disconnect`; on success the attached cache forgets everything. */
    method Disconnect(closeSucceeds: bool) returns (ok: bool)
      modifies card, cache
      ensures ok == (old(card.connected) && closeSucceeds)
      ensures ok ==> !card.connected && card.sendQueue == [] && card.raised == old(card.raised) + [Disconnected]
      ensures !ok ==> unchanged(card)
      ensures ok && Attached() ==>
                cache.info == None && cache.coinCounters == map[] && cache.keyStates == map[]
                && cache.errors == [] && cache.isChanged
      ensures !(ok && Attached()) ==> unchanged(cache)
      ensures cache.card == old(cache.card) && cache.capacity == old(cache.capacity)
    {
      ok := card.Disconnect(closeSucceeds);
      if ok && cache.card == card {
        cache.OnDisconnected();
      }
    }

    /** A frame arriving from the card: it is decoded, and the event is folded
        into the attached cache. An error event needs room in the queue. */
    method Receive(f: Frame) returns (ev: Option<Event>)
      requires Attached() && Decode(f).Some? && Decode(f).value.Error? ==> cache.capacity >= 1
      modifies card, cache
      ensures ev == Decode(f)
      ensures card.connected == old(card.connected) && card.raised == old(card.raised)
      ensures card.sendQueue == if f.id == EVT_COIN_COUNTER_RESULT && old(card.connected)
                                then [Frame(CMD_ACK, [])] + old(card.sendQueue)
                                else old(card.sendQueue)
      ensures cache.card == old(cache.card) && cache.capacity == old(cache.capacity)
      ensures !(Attached() && ev.Some?) ==> unchanged(cache)
      ensures Attached() && ev.Some? ==>
                && cache.isChanged == (old(cache.isChanged) || MarksChanged(ev.value))
                && cache.keyStates == (if ev.value.Keys? then ApplyKeys(old(cache.keyStates), ev.value.keys)
                                       else if ev.value.KeyMasks? then ApplyMasks(old(cache.keyStates), ev.value.keyMasks)
                                       else old(cache.keyStates))
                && cache.errors == (if ev.value.Error? then Pushed(old(cache.errors), cache.capacity, ev.value.error)
                                    else old(cache.errors))
                && cache.coinCounters == (if ev.value.CoinCounterResult?
                                          then old(cache.coinCounters)[ev.value.track as int := ev.value.coins]
                                          else old(cache.coinCounters))
                && cache.info == (if ev.value.GetInfoResult? then Some(ev.value.info) else old(cache.info))
    {
      ev := card.Receive(f);
      if ev.Some? && cache.card == card {
        cache.Fold(ev.value);
      }
    }
  }

  /** The firmware's key report, decoded by the host, sets each reported key
      to the level of its bit unless a mask has ruled it out. */
  lemma KeysReportReachesCache(m: map<ByteKey, KeyState>, length: u8, keys: seq<u8>, idx: ByteKey)
    requires length as nat <= |keys| && length <= 32 && idx < 8 * length as int
    ensures Decode(FirmwareEvents.KeysFrame(length, keys)) == Some(Keys(keys[..length]))
    ensures var r := ApplyKeys(m, keys[..length]);
            idx in r && r[idx] == KeyResult(m, idx, LevelOf(keys[idx / 8], idx % 8))
  {
    RoundTrip.KeysRoundTrip(length, keys);
    KeysEffect(m, keys[..length], idx);
  }

  /** The firmware's three key masks, decoded by the host, rule out exactly
      the keys whose mask bit is 0 among the first 24, and leave the rest. */
  lemma MaskReportReachesCache(m: map<ByteKey, KeyState>, mask0: u8, mask1: u8, mask2: u8, idx: ByteKey)
    ensures Decode(FirmwareEvents.KeyMasksFrame(mask0, mask1, mask2)) == Some(KeyMasks([mask0, mask1, mask2]))
    ensures var r := ApplyMasks(m, [mask0, mask1, mask2]);
            && (idx < 24 && !Bit([mask0, mask1, mask2][idx / 8], idx % 8) ==> IsNotAKey(r, idx))
            && (idx < 24 && Bit([mask0, mask1, mask2][idx / 8], idx % 8) ==> Same(m, r, idx))
            && (idx >= 24 ==> Same(m, r, idx))
  {
    RoundTrip.KeyMasksRoundTrip(mask0, mask1, mask2);
    MasksEffect(m, [mask0, mask1, mask2], idx);
    MaskedOutByBit([mask0, mask1, mask2], idx);
  }
}
