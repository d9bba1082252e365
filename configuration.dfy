/** The firmware's persistent configuration (`Configuration`): a 43-byte
    record kept in two banks of a FRAM chip and mirrored in RAM.

    Record layout (byte offsets): `seq` at 0, one track-level bit per track
    at 1, `coins_to_eject[8]` at 2..9, `coin_count[8]` (u32, least
    significant byte first) at 10..41, `checksum` at 42. The checksum is
    0x87 XOR-ed with bytes 0..41.

    The FRAM chip is two 256-byte arrays, one per bank. */
module FramConfig {
  import opened Wire

  const CONF_OFFSET_SEQ: nat := 0
  const CONF_OFFSET_COIN_TRACK_LEVEL: nat := 1
  const CONF_OFFSET_COINS_TO_EJECT: nat := 2
  const CONF_SIZE_COINS_TO_EJECT: nat := 8
  const CONF_OFFSET_COIN_COUNT: nat := 10
  const CONF_SIZE_COIN_COUNT: nat := 32
  const CONF_OFFSET_CHECKSUM: nat := 42
  const CONF_SIZE_ALL: nat := 43
  const BANK_SIZE: nat := 256

  const TRACK_EJECT: u8 := 0x80
  const TRACK_INSERT_1: u8 := 0x00
  const TRACK_INSERT_2: u8 := 0x01
  const TRACK_INSERT_3: u8 := 0x02
  const TRACK_BANKNOTE: u8 := 0x40

  /** `ERR_NOT_A_TRACK` as this header (re)defines it. */
  const CONFIG_ERR_NOT_A_TRACK: u8 := 0xFF

  /** The checksum seed. */
  const SEED: u8 := 0x87

  /** A track's slot in the per-track fields, 0xFF for an unknown track. */
  function TrackIndex(track: u8): u8
  {
    if track == TRACK_EJECT then 4
    else if track == TRACK_INSERT_1 then 0
    else if track == TRACK_INSERT_2 then 1
    else if track == TRACK_INSERT_3 then 2
    else if track == TRACK_BANKNOTE then 3
    else 0xFF
  }

  /** The five tracks own five distinct slots; every other byte is no track. */
  lemma TrackIndexMapping(track: u8)
    ensures TrackIndex(track) != 0xFF <==> track in {TRACK_EJECT, TRACK_INSERT_1, TRACK_INSERT_2, TRACK_INSERT_3, TRACK_BANKNOTE}
    ensures TrackIndex(track) != 0xFF ==> TrackIndex(track) < 5
    ensures forall t :: TrackIndex(t) != 0xFF && TrackIndex(t) == TrackIndex(track) ==> t == track
  {
  }

  /** The fields fill the record exactly, checksum last. */
  lemma RecordLayout()
    ensures CONF_OFFSET_COIN_TRACK_LEVEL == CONF_OFFSET_SEQ + 1
    ensures CONF_OFFSET_COINS_TO_EJECT == CONF_OFFSET_COIN_TRACK_LEVEL + 1
    ensures CONF_OFFSET_COIN_COUNT == CONF_OFFSET_COINS_TO_EJECT + CONF_SIZE_COINS_TO_EJECT
    ensures CONF_OFFSET_CHECKSUM == CONF_OFFSET_COIN_COUNT + CONF_SIZE_COIN_COUNT
    ensures CONF_SIZE_ALL == CONF_OFFSET_CHECKSUM + 1 == 43
    ensures CONF_SIZE_ALL <= BANK_SIZE
  {
  }

  /** `seed` XOR-ed with every byte of `s`, in order. */
  function XorFold(seed: u8, s: seq<u8>): u8
  {
    if |s| == 0 then seed else XorFold(seed, s[..|s| - 1]) ^ s[|s| - 1]
  }

  /** `_getChecksum`: the seed XOR-ed with every byte but the checksum byte. */
  function Checksum(rec: seq<u8>): u8
    requires |rec| == CONF_SIZE_ALL
  {
    XorFold(SEED, rec[..CONF_OFFSET_CHECKSUM])
  }

  predicate ChecksumGood(rec: seq<u8>)
    requires |rec| == CONF_SIZE_ALL
  {
    Checksum(rec) == rec[CONF_OFFSET_CHECKSUM]
  }

  /** The record with its checksum byte recomputed. */
  function Sealed(rec: seq<u8>): seq<u8>
    requires |rec| == CONF_SIZE_ALL
  {
    rec[CONF_OFFSET_CHECKSUM := Checksum(rec)]
  }

  /** The checksum does not read its own byte, so writing it makes the record consistent. */
  lemma SealedIsGood(rec: seq<u8>)
    requires |rec| == CONF_SIZE_ALL
    ensures |Sealed(rec)| == CONF_SIZE_ALL && ChecksumGood(Sealed(rec))
    ensures Sealed(rec)[..CONF_OFFSET_CHECKSUM] == rec[..CONF_OFFSET_CHECKSUM]
  {
    assert Sealed(rec)[..CONF_OFFSET_CHECKSUM] == rec[..CONF_OFFSET_CHECKSUM];
  }

  /** Replacing byte `i` of `s` by `v` changes the fold by `s[i] ^ v`. */
  lemma {:induction false} XorFoldUpdate(seed: u8, s: seq<u8>, i: nat, v: u8)
    requires i < |s|
    ensures XorFold(seed, s[i := v]) == XorFold(seed, s) ^ s[i] ^ v
    decreases |s|
  {
    var t := s[i := v];
    if i == |s| - 1 {
      assert t[..|t| - 1] == s[..|s| - 1];
    } else {
      assert t[..|t| - 1] == s[..|s| - 1][i := v];
      XorFoldUpdate(seed, s[..|s| - 1], i, v);
    }
  }

  /** The checksum catches every corruption of a single byte of the record. */
  lemma SingleByteCorruptionDetected(rec: seq<u8>, i: nat, v: u8)
    requires |rec| == CONF_SIZE_ALL && ChecksumGood(rec)
    requires i < CONF_SIZE_ALL && v != rec[i]
    ensures !ChecksumGood(rec[i := v])
  {
    var r := rec[i := v];
    if i < CONF_OFFSET_CHECKSUM {
      assert r[..CONF_OFFSET_CHECKSUM] == rec[..CONF_OFFSET_CHECKSUM][i := v];
      XorFoldUpdate(SEED, rec[..CONF_OFFSET_CHECKSUM], i, v);
      assert rec[i] ^ v != 0;
    } else {
      assert r[..CONF_OFFSET_CHECKSUM] == rec[..CONF_OFFSET_CHECKSUM];
    }
  }

  function Zeros(n: nat): seq<u8>
  {
    seq(n, _ => 0)
  }

  lemma {:induction false} XorFoldZeros(seed: u8, n: nat)
    ensures XorFold(seed, Zeros(n)) == seed
  {
    if n > 0 {
      assert Zeros(n)[..n - 1] == Zeros(n - 1);
      assert Zeros(n)[n - 1] == 0;
      XorFoldZeros(seed, n - 1);
    }
  }

  /** The record `begin` writes when neither bank is good: all zeros, sealed. */
  function Blank(): seq<u8>
  {
    Zeros(CONF_OFFSET_CHECKSUM) + [SEED]
  }

  lemma BlankIsGood()
    ensures |Blank()| == CONF_SIZE_ALL && ChecksumGood(Blank())
    ensures forall i :: 0 <= i < CONF_OFFSET_CHECKSUM ==> Blank()[i] == 0
    ensures Blank()[CONF_OFFSET_CHECKSUM] == 0x87
  {
    assert Blank()[..CONF_OFFSET_CHECKSUM] == Zeros(CONF_OFFSET_CHECKSUM);
    XorFoldZeros(SEED, CONF_OFFSET_CHECKSUM);
  }

  /** What `begin` settles on: the record to use, and whether it came from bank 1. */
  datatype Boot = Boot(record: seq<u8>, useBank1: bool)

  /** Bank selection from the two bank images. */
  function BootSelect(bank0: seq<u8>, bank1: seq<u8>): Boot
    requires |bank0| == |bank1| == CONF_SIZE_ALL
  {
    var good0 := ChecksumGood(bank0);
    var good1 := ChecksumGood(bank1);
    if good0 && good1 then
      if bank0[CONF_OFFSET_SEQ] + 1 == bank1[CONF_OFFSET_SEQ] then Boot(bank1, true) else Boot(bank0, false)
    else if !good0 && !good1 then
      Boot(Blank(), false)
    else if good0 then
      Boot(bank0, false)
    else
      Boot(bank1, true)
  }

  /** Whatever the banks hold, `begin` ends with a record whose checksum matches. */
  lemma BootRecordIsGood(bank0: seq<u8>, bank1: seq<u8>)
    requires |bank0| == |bank1| == CONF_SIZE_ALL
    ensures |BootSelect(bank0, bank1).record| == CONF_SIZE_ALL
    ensures ChecksumGood(BootSelect(bank0, bank1).record)
  {
    BlankIsGood();
  }

  /** A good bank is never discarded: if either bank is good, the record is
      that of a good bank and `useBank1` names it. Of two good banks, bank 1
      wins exactly when its sequence number is bank 0's plus one, mod 256. */
  lemma BootPrefersGoodAndNewer(bank0: seq<u8>, bank1: seq<u8>)
    requires |bank0| == |bank1| == CONF_SIZE_ALL
    ensures var b := BootSelect(bank0, bank1);
            (ChecksumGood(bank0) || ChecksumGood(bank1)) ==>
              b.record == (if b.useBank1 then bank1 else bank0) && ChecksumGood(b.record)
    ensures ChecksumGood(bank0) && ChecksumGood(bank1) ==>
              (BootSelect(bank0, bank1).useBank1 <==> bank1[0] == bank0[0] + 1)
    ensures !ChecksumGood(bank0) && !ChecksumGood(bank1) ==>
              BootSelect(bank0, bank1) == Boot(Blank(), false)
  {
  }

  /** The sequence number wraps: a bank 1 at 0x00 is newer than a bank 0 at 0xFF. */
  lemma SeqWrapsAround(bank0: seq<u8>, bank1: seq<u8>)
    requires |bank0| == |bank1| == CONF_SIZE_ALL
    requires ChecksumGood(bank0) && ChecksumGood(bank1)
    requires bank0[0] == 0xFF && bank1[0] == 0x00
    ensures BootSelect(bank0, bank1) == Boot(bank1, true)
  {
  }

  /** The u32 at `off`, least significant byte first. */
  function LoadLE32(s: seq<u8>, off: nat): u32
    requires off + 4 <= |s|
  {
    (s[off] as u32) | (s[off + 1] as u32 << 8) | (s[off + 2] as u32 << 16) | (s[off + 3] as u32 << 24)
  }

  /** The four bytes of `v`, least significant first. */
  function LE32Bytes(v: u32): seq<u8>
  {
    [(v & 0xFF) as u8, ((v >> 8) & 0xFF) as u8, ((v >> 16) & 0xFF) as u8, ((v >> 24) & 0xFF) as u8]
  }

  /** `s` with `v` stored at `off` (FRAM `writeLong`). */
  function StoreLE32(s: seq<u8>, off: nat, v: u32): seq<u8>
    requires off + 4 <= |s|
  {
    s[..off] + LE32Bytes(v) + s[off + 4..]
  }

  /** The bytes of `StoreLE32`, one index at a time. */
  lemma StoreLE32At(s: seq<u8>, off: nat, v: u32, k: nat)
    requires off + 4 <= |s| && k < |s|
    ensures |StoreLE32(s, off, v)| == |s|
    ensures StoreLE32(s, off, v)[k] == if off <= k < off + 4 then LE32Bytes(v)[k - off] else s[k]
  {
  }

  lemma LE32BytesRoundTrip(v: u32)
    ensures var b := LE32Bytes(v);
            (b[0] as u32) | (b[1] as u32 << 8) | (b[2] as u32 << 16) | (b[3] as u32 << 24) == v
  {
  }

  /** Loading back what was stored gives the stored value; bytes outside
      the four written ones keep their values. */
  lemma StoreThenLoad(s: seq<u8>, off: nat, v: u32)
    requires off + 4 <= |s|
    ensures |StoreLE32(s, off, v)| == |s|
    ensures LoadLE32(StoreLE32(s, off, v), off) == v
    ensures forall k :: 0 <= k < |s| && !(off <= k < off + 4) ==> StoreLE32(s, off, v)[k] == s[k]
  {
    var t := StoreLE32(s, off, v);
    var b := LE32Bytes(v);
    assert t[off] == b[0] && t[off + 1] == b[1] && t[off + 2] == b[2] && t[off + 3] == b[3];
    LE32BytesRoundTrip(v);
  }

  /** Where `setCoinCount` writes slot `idx` into the FRAM bank. */
  function CoinCountFramOffsetAsWritten(idx: nat): nat
  {
    CONF_OFFSET_COIN_COUNT + idx
  }

  /** Where slot `idx` of `coin_count[8]` lives in the record. */
  function CoinCountOffset(idx: nat): nat
  {
    CONF_OFFSET_COIN_COUNT + 4 * idx
  }

  /** On an all-zero bank, storing 1 into slot 1 where `setCoinCount`
      writes it leaves slot 1 reading 0 and makes slot 0 read 256. */
  lemma CoinCountOffsetCounterexample()
    ensures var image := StoreLE32(Blank(), CoinCountFramOffsetAsWritten(1), 1);
            LoadLE32(image, CoinCountOffset(1)) == 0 && LoadLE32(image, CoinCountOffset(0)) == 256
  {
    var image := StoreLE32(Blank(), CoinCountFramOffsetAsWritten(1), 1);
    assert image[10] == 0 && image[11] == 1 && image[12] == 0 && image[13] == 0;
    assert image[14] == 0 && image[15] == 0 && image[16] == 0 && image[17] == 0;
  }

  /** Storing at the slot's own offset reads back and leaves every other slot alone. */
  lemma CoinCountOffsetAligned(image: seq<u8>, idx: nat, count: u32)
    requires |image| == CONF_SIZE_ALL && idx < 8
    ensures var image' := StoreLE32(image, CoinCountOffset(idx), count);
            && LoadLE32(image', CoinCountOffset(idx)) == count
            && (forall j :: 0 <= j < 8 && j != idx ==> LoadLE32(image', CoinCountOffset(j)) == LoadLE32(image, CoinCountOffset(j)))
            && image'[CONF_OFFSET_CHECKSUM] == image[CONF_OFFSET_CHECKSUM]
  {
    StoreThenLoad(image, CoinCountOffset(idx), count);
  }

  /** A slot stored into a bank image still reads back once the checksum byte is written. */
  lemma StoredSlotSurvivesChecksum(image: seq<u8>, idx: nat, count: u32, checksum: u8)
    requires |image| == BANK_SIZE && idx < 8
    ensures LoadLE32(StoreLE32(image, CoinCountOffset(idx), count)[CONF_OFFSET_CHECKSUM := checksum], CoinCountOffset(idx)) == count
  {
    var off := CoinCountOffset(idx);
    StoreThenLoad(image, off, count);
    var t := StoreLE32(image, off, count);
    var u := t[CONF_OFFSET_CHECKSUM := checksum];
    assert u[off] == t[off] && u[off + 1] == t[off + 1] && u[off + 2] == t[off + 2] && u[off + 3] == t[off + 3];
  }

  /** Sealing rewrites only the checksum byte, so a u32 stored below it still reads back. */
  lemma SealedKeepsSlot(s: seq<u8>, off: nat, v: u32)
    requires |s| == CONF_SIZE_ALL && off + 4 <= CONF_OFFSET_CHECKSUM
    ensures LoadLE32(Sealed(StoreLE32(s, off, v)), off) == v
  {
    StoreThenLoad(s, off, v);
    var t := StoreLE32(s, off, v);
    var u := Sealed(t);
    assert u[off] == t[off] && u[off + 1] == t[off + 1] && u[off + 2] == t[off + 2] && u[off + 3] == t[off + 3];
  }

  /** `x` with bit `b` set to `level`, as a one-bit field assignment does. */
  function WithBit(x: u8, b: u8, level: bool): u8
    requires b < 8
  {
    if level then x | (1 << b) else x & !(1 << b)
  }

  function BitOf(x: u8, b: u8): u8
    requires b < 8
  {
    (x >> b) & 1
  }

  lemma WithBitSetsOnlyThatBit(x: u8, b: u8, level: bool)
    requires b < 8
    ensures BitOf(WithBit(x, b, level), b) == if level then 1 else 0
    ensures forall c: u8 :: c < 8 && c != b ==> BitOf(WithBit(x, b, level), c) == BitOf(x, c)
  {
  }

  /** A track's level bit in the level byte, or 0xFF for no track. */
  function TrackLevel(levels: u8, track: u8): (r: u8)
    ensures r == CONFIG_ERR_NOT_A_TRACK <==> TrackIndex(track) == 0xFF
    ensures r != CONFIG_ERR_NOT_A_TRACK ==> r <= 1
  {
    var idx := TrackIndex(track);
    if idx == 0xFF then CONFIG_ERR_NOT_A_TRACK else BitOf(levels, idx)
  }

  /** The level byte with the track's bit set to `level`; unchanged for no track. */
  function SetLevel(levels: u8, track: u8, level: bool): u8
  {
    var idx := TrackIndex(track);
    if idx == 0xFF then levels else WithBit(levels, idx, level)
  }

  /** A level written for a track reads back, and no other track's level moves. */
  lemma SetLevelThenGet(levels: u8, track: u8, level: bool)
    ensures TrackIndex(track) != 0xFF ==> TrackLevel(SetLevel(levels, track, level), track) == if level then 1 else 0
    ensures forall t :: t != track ==> TrackLevel(SetLevel(levels, track, level), t) == TrackLevel(levels, t)
  {
    var idx := TrackIndex(track);
    if idx != 0xFF {
      WithBitSetsOnlyThatBit(levels, idx, level);
      TrackIndexMapping(track);
    }
  }

  class Configuration {
    /** `_data`, the RAM copy of the record. */
    const data: array<u8>
    /** The two banks of the FRAM chip. */
    const fram0: array<u8>
    const fram1: array<u8>
    /** `_bank` */
    var bank: bool

    predicate Valid()
      reads this
    {
      && data.Length == CONF_SIZE_ALL && fram0.Length == BANK_SIZE && fram1.Length == BANK_SIZE
      && data != fram0 && data != fram1 && fram0 != fram1
    }

    constructor (fram0: array<u8>, fram1: array<u8>)
      requires fram0.Length == BANK_SIZE && fram1.Length == BANK_SIZE && fram0 != fram1
      ensures Valid() && !bank && fresh(data)
      ensures this.fram0 == fram0 && this.fram1 == fram1
    {
      data := new u8[CONF_SIZE_ALL](_ => 0);
      this.fram0 := fram0;
      this.fram1 := fram1;
      bank := false;
    }

    /** The bank that a setter writes to when the flipped flag is `flag`. */
    function BankFor(flag: bool): array<u8>
    {
      if flag then fram0 else fram1
    }

    /** The bank a setter writes to once it has flipped `bank`. */
    function Target(): array<u8>
      reads this
    {
      BankFor(bank)
    }

    /** `_getChecksum` */
    method GetChecksum() returns (checksum: u8)
      requires Valid()
      ensures checksum == Checksum(data[..])
    {
      checksum := SEED;
      for i := 0 to CONF_OFFSET_CHECKSUM
        invariant checksum == XorFold(SEED, data[..i])
      {
        assert data[..i + 1][..i] == data[..i];
        checksum := checksum ^ data[i];
      }
      assert data[..CONF_OFFSET_CHECKSUM] == data[..][..CONF_OFFSET_CHECKSUM];
    }

    /** FRAM `readArray` of one bank's record into `_data`. */
    method ReadBank(src: array<u8>)
      requires Valid() && (src == fram0 || src == fram1)
      modifies data
      ensures data[..] == src[..CONF_SIZE_ALL]
    {
      forall i | 0 <= i < CONF_SIZE_ALL {
        data[i] := src[i];
      }
    }

    /** FRAM `writeArray` of `_data` into one bank. */
    method WriteBank(dst: array<u8>)
      requires Valid() && (dst == fram0 || dst == fram1)
      modifies dst
      ensures dst[..] == data[..] + old(dst[CONF_SIZE_ALL..])
    {
      forall i | 0 <= i < CONF_SIZE_ALL {
        dst[i] := data[i];
      }
      assert dst[..] == dst[..CONF_SIZE_ALL] + dst[CONF_SIZE_ALL..];
    }

    /** Reads one bank into `_data` and checks it, as each half of `begin` does. */
    method CheckBank(src: array<u8>) returns (good: bool, seqNo: u8)
      requires Valid() && (src == fram0 || src == fram1)
      modifies data
      ensures data[..] == src[..CONF_SIZE_ALL]
      ensures good == ChecksumGood(src[..CONF_SIZE_ALL]) && seqNo == src[CONF_OFFSET_SEQ]
    {
      ReadBank(src);
      var c := GetChecksum();
      good := c == data[CONF_OFFSET_CHECKSUM];
      seqNo := data[CONF_OFFSET_SEQ];
    }

    /** Zeroes `_data`, seals it and writes it to both banks. */
    method ResetBanks()
      requires Valid()
      modifies data, fram0, fram1
      ensures data[..] == Blank()
      ensures fram0[..] == Blank() + old(fram0[CONF_SIZE_ALL..])
      ensures fram1[..] == Blank() + old(fram1[CONF_SIZE_ALL..])
    {
      forall i | 0 <= i < CONF_SIZE_ALL {
        data[i] := 0;
      }
      var c := GetChecksum();
      data[CONF_OFFSET_CHECKSUM] := c;
      assert data[..CONF_OFFSET_CHECKSUM] == Zeros(CONF_OFFSET_CHECKSUM);
      XorFoldZeros(SEED, CONF_OFFSET_CHECKSUM);
      assert data[..] == Blank();
      WriteBank(fram0);
      WriteBank(fram1);
    }

    /** `begin`: load the good bank with the newer sequence number, or
        reset both banks when neither is good. */
    method Begin()
      requires Valid()
      modifies this, data, fram0, fram1
      ensures Valid()
      ensures var boot := BootSelect(old(fram0[..CONF_SIZE_ALL]), old(fram1[..CONF_SIZE_ALL]));
              && data[..] == boot.record
              && bank == (boot.useBank1 || old(bank))
      ensures var reset := !ChecksumGood(old(fram0[..CONF_SIZE_ALL])) && !ChecksumGood(old(fram1[..CONF_SIZE_ALL]));
              && (reset ==> fram0[..] == Blank() + old(fram0[CONF_SIZE_ALL..]) && fram1[..] == Blank() + old(fram1[CONF_SIZE_ALL..]))
              && (!reset ==> fram0[..] == old(fram0[..]) && fram1[..] == old(fram1[..]))
    {
      var good0, seq0 := CheckBank(fram0);
      var good1, seq1 := CheckBank(fram1);
      var useBank1 := Settle(fram0[..CONF_SIZE_ALL], fram1[..CONF_SIZE_ALL], good0, seq0, good1, seq1);
      if useBank1 {
        bank := true;
      }
    }

    /** The second half of `begin`, once both bank images `b0` and `b1`
        have been checked and bank 1 is loaded: loads or resets, and says
        whether `_bank` is to be set. */
    method Settle(ghost b0: seq<u8>, ghost b1: seq<u8>, good0: bool, seq0: u8, good1: bool, seq1: u8)
      returns (useBank1: bool)
      requires Valid() && b0 == fram0[..CONF_SIZE_ALL] && b1 == fram1[..CONF_SIZE_ALL] && data[..] == b1
      requires good0 == ChecksumGood(b0) && seq0 == b0[CONF_OFFSET_SEQ]
      requires good1 == ChecksumGood(b1) && seq1 == b1[CONF_OFFSET_SEQ]
      modifies data, fram0, fram1
      ensures data[..] == BootSelect(b0, b1).record && useBank1 == BootSelect(b0, b1).useBank1
      ensures !good0 && !good1 ==> fram0[..] == Blank() + old(fram0[CONF_SIZE_ALL..]) && fram1[..] == Blank() + old(fram1[CONF_SIZE_ALL..])
      ensures good0 || good1 ==> fram0[..] == old(fram0[..]) && fram1[..] == old(fram1[..])
    {
      if good0 && good1 {
        if seq0 + 1 == seq1 {
          assert BootSelect(b0, b1) == Boot(b1, true);
          useBank1 := true;
        } else {
          assert BootSelect(b0, b1) == Boot(b0, false);
          ReadBank(fram0);
          useBank1 := false;
        }
      } else if !good0 && !good1 {
        assert BootSelect(b0, b1) == Boot(Blank(), false);
        ResetBanks();
        useBank1 := false;
      } else if good0 {
        assert BootSelect(b0, b1) == Boot(b0, false);
        ReadBank(fram0);
        useBank1 := false;
      } else {
        assert BootSelect(b0, b1) == Boot(b1, true);
        useBank1 := true;
      }
    }

    /** `getTrackLevel` */
    function GetTrackLevel(track: u8): (r: u8)
      requires Valid()
      reads this, data
      ensures r == CONFIG_ERR_NOT_A_TRACK <==> TrackIndex(track) == 0xFF
      ensures r != CONFIG_ERR_NOT_A_TRACK ==> r <= 1
    {
      TrackLevel(data[CONF_OFFSET_COIN_TRACK_LEVEL], track)
    }

    /** `getCoinsToEject`: only the ejection track has a count; 0 otherwise. */
    function GetCoinsToEject(track: u8): (r: u8)
      requires Valid()
      reads this, data
      ensures track != TRACK_EJECT ==> r == 0
      ensures track == TRACK_EJECT ==> r == data[CONF_OFFSET_COINS_TO_EJECT + TrackIndex(TRACK_EJECT) as nat]
    {
      if track == TRACK_EJECT then data[CONF_OFFSET_COINS_TO_EJECT + 4] else 0
    }

    /** `getCoinCount`: the track's slot of `coin_count`, 0 for no track. */
    function GetCoinCount(track: u8): (r: u32)
      requires Valid()
      reads this, data
      ensures TrackIndex(track) == 0xFF ==> r == 0
      ensures TrackIndex(track) != 0xFF ==> r == LoadLE32(data[..], CoinCountOffset(TrackIndex(track) as nat))
    {
      var idx := TrackIndex(track);
      if idx == 0xFF then 0 else LoadLE32(data[..], CoinCountOffset(idx as nat))
    }

    /** Recomputes the checksum byte of `_data`. */
    method Reseal()
      requires Valid()
      modifies data
      ensures data[..] == Sealed(old(data[..])) && ChecksumGood(data[..])
    {
      var c := GetChecksum();
      data[CONF_OFFSET_CHECKSUM] := c;
      SealedIsGood(old(data[..]));
    }

    /** FRAM `writeByte` into one bank. */
    method WriteByte(dst: array<u8>, off: nat, v: u8)
      requires Valid() && (dst == fram0 || dst == fram1) && off < BANK_SIZE
      modifies dst
      ensures dst[..] == old(dst[..])[off := v]
    {
      dst[off] := v;
    }

    /** FRAM `writeLong` into one bank, least significant byte first. */
    method WriteLong(dst: array<u8>, off: nat, v: u32)
      requires Valid() && (dst == fram0 || dst == fram1) && off + 4 <= BANK_SIZE
      modifies dst
      ensures dst[..] == StoreLE32(old(dst[..]), off, v)
    {
      var bytes := LE32Bytes(v);
      dst[off] := bytes[0];
      dst[off + 1] := bytes[1];
      dst[off + 2] := bytes[2];
      dst[off + 3] := bytes[3];
      forall k | 0 <= k < dst.Length
        ensures dst[k] == StoreLE32(old(dst[..]), off, v)[k]
      {
        StoreLE32At(old(dst[..]), off, v, k);
      }
    }

    /** `setTrackLevel`: the bank flag flips and the checksum is rewritten
        even for an unknown track. */
    method SetTrackLevel(track: u8, level: bool)
      requires Valid()
      modifies this, data, fram0, fram1
      ensures Valid() && bank == !old(bank)
      ensures data[..] == Sealed(old(data[..])[CONF_OFFSET_COIN_TRACK_LEVEL :=
                                   SetLevel(old(data[CONF_OFFSET_COIN_TRACK_LEVEL]), track, level)])
      ensures ChecksumGood(data[..])
      ensures TrackIndex(track) != 0xFF ==> GetTrackLevel(track) == if level then 1 else 0
      ensures forall t :: t != track ==> GetTrackLevel(t) == old(GetTrackLevel(t))
      ensures var t := Target(); t[..] == old(t[..])[CONF_OFFSET_COIN_TRACK_LEVEL := data[CONF_OFFSET_COIN_TRACK_LEVEL]]
                                                     [CONF_OFFSET_CHECKSUM := data[CONF_OFFSET_CHECKSUM]]
      ensures var other := if bank then fram1 else fram0; other[..] == old(other[..])
    {
      SetLevelThenGet(data[CONF_OFFSET_COIN_TRACK_LEVEL], track, level);
      data[CONF_OFFSET_COIN_TRACK_LEVEL] := SetLevel(data[CONF_OFFSET_COIN_TRACK_LEVEL], track, level);
      bank := !bank;
      Reseal();
      var target := if bank then fram0 else fram1;
      WriteByte(target, CONF_OFFSET_COIN_TRACK_LEVEL, data[CONF_OFFSET_COIN_TRACK_LEVEL]);
      WriteByte(target, CONF_OFFSET_CHECKSUM, data[CONF_OFFSET_CHECKSUM]);
    }

    /** `setCoinsToEject`: only the ejection track is stored; any other
        track changes nothing at all. */
    method SetCoinsToEject(track: u8, coins: u8)
      requires Valid()
      modifies this, data, fram0, fram1
      ensures Valid()
      ensures track != TRACK_EJECT ==> bank == old(bank) && unchanged(data, fram0, fram1)
      ensures track == TRACK_EJECT ==>
                && bank == !old(bank)
                && data[..] == Sealed(old(data[..])[CONF_OFFSET_COINS_TO_EJECT + 4 := coins])
                && ChecksumGood(data[..])
                && GetCoinsToEject(track) == coins
                && (var t := Target(); t[..] == old(t[..])[CONF_OFFSET_COINS_TO_EJECT + 4 := coins]
                                                          [CONF_OFFSET_CHECKSUM := data[CONF_OFFSET_CHECKSUM]])
                && (var other := if bank then fram1 else fram0; other[..] == old(other[..]))
    {
      var idx: u8 := 0xFF;
      if track == TRACK_EJECT {
        idx := 4;
      }
      if idx != 0xFF {
        data[CONF_OFFSET_COINS_TO_EJECT + idx as nat] := coins;
        bank := !bank;
        Reseal();
        var target := if bank then fram0 else fram1;
        WriteByte(target, CONF_OFFSET_COINS_TO_EJECT + idx as nat, coins);
        WriteByte(target, CONF_OFFSET_CHECKSUM, data[CONF_OFFSET_CHECKSUM]);
      }
    }

    /** Stores `count` into slot `idx` of `_data` and reseals it. */
    method StoreCoinCount(idx: u8, count: u32)
      requires Valid() && idx < 5
      modifies data
      ensures data[..] == Sealed(StoreLE32(old(data[..]), CoinCountOffset(idx as nat), count))
      ensures ChecksumGood(data[..])
      ensures LoadLE32(data[..], CoinCountOffset(idx as nat)) == count
    {
      var off := CoinCountOffset(idx as nat);
      ghost var before := data[..];
      ghost var stored := StoreLE32(before, off, count);
      var bytes := LE32Bytes(count);
      data[off] := bytes[0];
      data[off + 1] := bytes[1];
      data[off + 2] := bytes[2];
      data[off + 3] := bytes[3];
      forall k | 0 <= k < data.Length
        ensures data[k] == stored[k]
      {
        StoreLE32At(before, off, count, k);
      }
      assert data[..] == stored;
      Reseal();
      SealedKeepsSlot(before, off, count);
    }

    /** `setCoinCount` as written: `_data` is updated in the right slot, but
        the FRAM copy of slot `idx` is written at offset 10 + idx. */
    method SetCoinCount(track: u8, count: u32)
      requires Valid()
      modifies this, data, fram0, fram1
      ensures Valid()
      ensures TrackIndex(track) == 0xFF ==> bank == old(bank) && unchanged(data, fram0, fram1)
      ensures TrackIndex(track) != 0xFF ==>
                && bank == !old(bank)
                && data[..] == Sealed(StoreLE32(old(data[..]), CoinCountOffset(TrackIndex(track) as nat), count))
                && GetCoinCount(track) == count
                && (var t := Target(); t[..] == StoreLE32(old(t[..]), CoinCountFramOffsetAsWritten(TrackIndex(track) as nat), count)
                                                  [CONF_OFFSET_CHECKSUM := data[CONF_OFFSET_CHECKSUM]])
                && (var other := if bank then fram1 else fram0; other[..] == old(other[..]))
    {
      var idx := TrackIndex(track);
      if idx != 0xFF {
        StoreCoinCount(idx, count);
        bank := !bank;
        var target := if bank then fram0 else fram1;
        WriteLong(target, CoinCountFramOffsetAsWritten(idx as nat), count);
        WriteByte(target, CONF_OFFSET_CHECKSUM, data[CONF_OFFSET_CHECKSUM]);
      }
    }

    /** `setCoinCount` with the FRAM offset scaled by the slot width, so
        that the bank receives the same bytes as `_data`. */
    method SetCoinCountAligned(track: u8, count: u32)
      requires Valid()
      modifies this, data, fram0, fram1
      ensures Valid()
      ensures TrackIndex(track) == 0xFF ==> bank == old(bank) && unchanged(data, fram0, fram1)
      ensures TrackIndex(track) != 0xFF ==>
                && bank == !old(bank)
                && data[..] == Sealed(StoreLE32(old(data[..]), CoinCountOffset(TrackIndex(track) as nat), count))
                && GetCoinCount(track) == count
                && (var t := Target(); t[..] == StoreLE32(old(t[..]), CoinCountOffset(TrackIndex(track) as nat), count)
                                                  [CONF_OFFSET_CHECKSUM := data[CONF_OFFSET_CHECKSUM]])
                && LoadLE32(Target()[..], CoinCountOffset(TrackIndex(track) as nat)) == GetCoinCount(track)
                && (var other := if bank then fram1 else fram0; other[..] == old(other[..]))
    {
      var idx := TrackIndex(track);
      if idx != 0xFF {
        StoreCoinCount(idx, count);
        bank := !bank;
        var target := if bank then fram0 else fram1;
        StoredSlotSurvivesChecksum(target[..], idx as nat, count, data[CONF_OFFSET_CHECKSUM]);
        WriteLong(target, CoinCountOffset(idx as nat), count);
        WriteByte(target, CONF_OFFSET_CHECKSUM, data[CONF_OFFSET_CHECKSUM]);
      }
    }
  }
}
