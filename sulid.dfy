/**
  The SULID identifier: 128 bits read as one unsigned integer, which from the
  most significant bit down hold a 48-bit Unix timestamp in milliseconds, 70
  random bits, a 5-bit data-center id and a 5-bit machine id.

  Rust's `u128`, `u64` and `u8` are `bv128`, `bv64` and `bv8` here, so shifts,
  masks and wrap-around are those of the machine words. Identifiers compare
  as their integers do (Rust derives `Ord` through the wrapped `u128`), so
  "earlier" below is `<` on `bits`.
 */
module SulidId {
  import opened Wrappers
  import BigEndian

  /** The number of bits in the time portion. */
  const TIME_BITS: bv8 := 48
  /** The number of bits in the random portion. */
  const RAND_BITS: bv8 := 70
  /** The number of bits of the data-center id. */
  const DATA_CENTER_BITS: bv8 := 5
  /** The number of bits of the machine id. */
  const MACHINE_BITS: bv8 := 5

  /**
    Where the time and random portions start, counted from the least
    significant bit. The functions below shift by the literal values, 80 and
    10 (and by 5 for the data-center id), which the verifier handles far more
    cheaply than named shift amounts; these constants are used only by
    `Layout`, which shows the literals are these sums.
   */
  const TIME_SHIFT: bv8 := RAND_BITS + DATA_CENTER_BITS + MACHINE_BITS
  const RAND_SHIFT: bv8 := DATA_CENTER_BITS + MACHINE_BITS

  /** The `bitmask!` macro: `len` ones, right-aligned, computed in `u128`. */
  function Bitmask(len: bv8): bv128
    requires len < 128
  {
    (1 << len) - 1
  }

  /** The field masks, `bitmask!` of each width (see `Layout`). */
  const TIME_MASK: bv64 := 0xFFFF_FFFF_FFFF
  const RAND_MASK: bv128 := 0x3F_FFFF_FFFF_FFFF_FFFF
  const DATA_CENTER_MASK: bv8 := 0x1F
  const MACHINE_MASK: bv8 := 0x1F

  /** The messages of the range checks enabled by the `assert` feature. */
  const TIMESTAMP_RANGE: string := "timestamp_ms must be in the range 0-281474976710655"
  const RANDOM_RANGE: string := "random must be in the range 0-1180591620717411303423"
  const DATA_CENTER_RANGE: string := "data_center_id must be in the range 0-31"
  const MACHINE_RANGE: string := "machine_id must be in the range 0-31"

  /** A Rust panic, with the message it was raised with. */
  datatype Panic = Panic(message: string)

  /**
    A `std::time::SystemTime` as far as the identifier sees it: either before
    the Unix epoch, or `millis` whole milliseconds after it (what
    `duration_since(UNIX_EPOCH)` followed by `as_millis()` yields).
   */
  datatype SystemTime = BeforeEpoch | SinceEpoch(millis: bv128)

  /** The `(timestamp_ms, random, data_center_id, machine_id)` tuple. */
  type Parts = (bv64, bv128, bv8, bv8)

  /**
    Milliseconds since the epoch, with times before the epoch taken as the
    epoch itself (`unwrap_or(Duration::ZERO)`).
   */
  function EpochMillis(t: SystemTime): bv128 {
    match t
    case BeforeEpoch => 0
    case SinceEpoch(ms) => ms
  }

  /*
    The four fields of a raw 128-bit value, as the accessors extract them.
   */

  /** `(u >> 80) as u64`: the top 48 bits. */
  function TimeField(u: bv128): bv64 {
    (u >> 80) as bv64
  }

  /** `(u >> 10) & bitmask!(70)`: the 70 bits below the timestamp. */
  function RandomField(u: bv128): bv128 {
    (u >> 10) & RAND_MASK
  }

  /** `((u >> 5) & bitmask!(5)) as u8`: the 5 bits above the machine id. */
  function DataCenterField(u: bv128): bv8 {
    ((u >> 5) & (DATA_CENTER_MASK as bv128)) as bv8
  }

  /** `(u & bitmask!(5)) as u8`: the lowest 5 bits. */
  function MachineField(u: bv128): bv8 {
    (u & (MACHINE_MASK as bv128)) as bv8
  }

  datatype Sulid = Sulid(bits: bv128) {

    /** The identifier with the given integer representation. */
    static function FromU128(u: bv128): (s: Sulid)
      ensures s.U128() == u
    {
      Sulid(u)
    }

    /** The integer representation. */
    function U128(): bv128 {
      bits
    }

    /** The timestamp in milliseconds. */
    function TimestampMs(): (t: bv64)
      ensures t <= TIME_MASK
    {
      TimeField(bits)
    }

    /** The random portion. */
    function Random(): (r: bv128)
      ensures r <= RAND_MASK
    {
      RandomField(bits)
    }

    /** The data-center id. */
    function DataCenterId(): (d: bv8)
      ensures d <= DATA_CENTER_MASK
    {
      DataCenterField(bits)
    }

    /** The machine id. */
    function MachineId(): (m: bv8)
      ensures m <= MACHINE_MASK
    {
      MachineField(bits)
    }

    /**
      `from_parts` without the `assert` feature: each argument is cut to its
      field's width and the fields are packed. Bits that do not fit are lost.
     */
    static function FromParts(timestampMs: bv64, random: bv128, dataCenterId: bv8, machineId: bv8): (s: Sulid)
      ensures s.TimestampMs() == timestampMs & TIME_MASK
      ensures s.Random() == random & RAND_MASK
      ensures s.DataCenterId() == dataCenterId & DATA_CENTER_MASK
      ensures s.MachineId() == machineId & MACHINE_MASK
    {
      var timePart := (timestampMs & TIME_MASK) as bv128;
      var randPart := random & RAND_MASK;
      var dataCenterPart := (dataCenterId & DATA_CENTER_MASK) as bv128;
      var machinePart := (machineId & MACHINE_MASK) as bv128;
      Sulid((timePart << 80)
        | (randPart << 10)
        | (dataCenterPart << 5)
        | machinePart)
    }

    /**
      `from_parts` with the `assert` feature: the four range checks run in
      order and the first that fails panics with its message; when all pass
      the identifier holds exactly the given parts.
     */
    static function FromPartsAsserting(timestampMs: bv64, random: bv128, dataCenterId: bv8, machineId: bv8): (r: Result<Sulid, Panic>)
      ensures r.Ok? <==> timestampMs <= TIME_MASK && random <= RAND_MASK
                         && dataCenterId <= DATA_CENTER_MASK && machineId <= MACHINE_MASK
      ensures r.Ok? ==> r.value == FromParts(timestampMs, random, dataCenterId, machineId)
      ensures r.Ok? ==> r.value.TimestampMs() == timestampMs && r.value.Random() == random
                        && r.value.DataCenterId() == dataCenterId && r.value.MachineId() == machineId
      ensures timestampMs > TIME_MASK ==> r == Err(Panic(TIMESTAMP_RANGE))
      ensures timestampMs <= TIME_MASK && random > RAND_MASK ==> r == Err(Panic(RANDOM_RANGE))
      ensures timestampMs <= TIME_MASK && random <= RAND_MASK && dataCenterId > DATA_CENTER_MASK
              ==> r == Err(Panic(DATA_CENTER_RANGE))
      ensures (timestampMs <= TIME_MASK && random <= RAND_MASK && dataCenterId <= DATA_CENTER_MASK
               && machineId > MACHINE_MASK) ==> r == Err(Panic(MACHINE_RANGE))
    {
      if !(timestampMs <= TIME_MASK) then Err(Panic(TIMESTAMP_RANGE))
      else if !(random <= RAND_MASK) then Err(Panic(RANDOM_RANGE))
      else if !(dataCenterId <= DATA_CENTER_MASK) then Err(Panic(DATA_CENTER_RANGE))
      else if !(machineId <= MACHINE_MASK) then Err(Panic(MACHINE_RANGE))
      else Ok(FromParts(timestampMs, random, dataCenterId, machineId))
    }

    /** The nil identifier: all 128 bits zero. */
    static function Nil(): (s: Sulid)
      ensures s.TimestampMs() == 0 && s.Random() == 0 && s.DataCenterId() == 0 && s.MachineId() == 0
    {
      Sulid(0)
    }

    /** Whether this is the nil identifier. */
    predicate IsNil()
      ensures IsNil() <==> this == Nil()
    {
      bits == 0
    }

    /** `Default::default()`. */
    static function Default(): (s: Sulid)
      ensures s.IsNil()
    {
      Nil()
    }

    /**
      The next identifier with the same timestamp and ids: the random
      portion plus one, or `None` when the random portion is all ones.
     */
    function Increment(): (r: Option<Sulid>)
      ensures r.None? <==> Random() == RAND_MASK
      ensures r.Some? ==> r.value.Random() == Random() + 1
      ensures r.Some? ==> r.value.TimestampMs() == TimestampMs()
                          && r.value.DataCenterId() == DataCenterId()
                          && r.value.MachineId() == MachineId()
      ensures r.Some? ==> U128() < r.value.U128()
    {
      if Random() == RAND_MASK then None
      else
        NextParts(this, Sulid(bits + (1 << 10)));
        Some(Sulid(bits + (1 << 10)))
    }

    /** `From<(u64, u128, u8, u8)> for Sulid`. */
    static function FromTuple(p: Parts): (s: Sulid)
      ensures s.TimestampMs() == p.0 & TIME_MASK && s.Random() == p.1 & RAND_MASK
              && s.DataCenterId() == p.2 & DATA_CENTER_MASK && s.MachineId() == p.3 & MACHINE_MASK
    {
      FromParts(p.0, p.1, p.2, p.3)
    }

    /** `From<Sulid> for (u64, u128, u8, u8)`. */
    function ToTuple(): (p: Parts)
      ensures FromTuple(p) == this
    {
      PartsRoundTrip(this);
      (TimestampMs(), Random(), DataCenterId(), MachineId())
    }

    /** The sixteen bytes, most significant first. */
    function ToBytes(): (b: seq<bv8>)
      ensures |b| == 16 && BigEndian.Value(b) == bits
    {
      BigEndian.DecodeEncode(bits);
      BigEndian.LowBytes(bits, 16)
    }

    /** The identifier whose big-endian bytes are `b`. */
    static function FromBytes(b: seq<bv8>): (s: Sulid)
      requires |b| == 16
      ensures s.ToBytes() == b
    {
      BigEndian.EncodeDecode(b);
      Sulid(BigEndian.Value(b))
    }

    /**
      `from_datetime_with_source`: the time in milliseconds cut to 48 bits, a
      `u128` drawn from the random source cut to 70 bits, and the two ids.
     */
    static function FromDatetimeWithSource(datetime: SystemTime, draw: bv128, dataCenterId: bv8, machineId: bv8): (s: Sulid)
      ensures s.TimestampMs() as bv128 == EpochMillis(datetime) & (TIME_MASK as bv128)
      ensures s.Random() == draw & RAND_MASK
      ensures s.DataCenterId() == dataCenterId & DATA_CENTER_MASK
      ensures s.MachineId() == machineId & MACHINE_MASK
    {
      var timeBits := (EpochMillis(datetime) & (TIME_MASK as bv128)) as bv64;
      var randBits := draw & RAND_MASK;
      FromParts(timeBits, randBits, dataCenterId, machineId)
    }

    /** The creation time, at millisecond precision. */
    function Datetime(): (t: SystemTime)
      ensures t.SinceEpoch? && t.millis <= (TIME_MASK as bv128)
    {
      SinceEpoch(TimestampMs() as bv128)
    }
  }

  /**
    The shifts and masks are those `from_parts` computes from the four widths,
    the widths fill the 128 bits, and the masks' values are the ranges the
    panic messages name.
   */
  lemma Layout()
    ensures TIME_SHIFT == 80 && RAND_SHIFT == 10 && MACHINE_BITS == 5
    ensures TIME_BITS as int + RAND_BITS as int + DATA_CENTER_BITS as int + MACHINE_BITS as int == 128
    ensures TIME_MASK == Bitmask(TIME_BITS) as bv64 && RAND_MASK == Bitmask(RAND_BITS)
    ensures DATA_CENTER_MASK == Bitmask(DATA_CENTER_BITS) as bv8 && MACHINE_MASK == Bitmask(MACHINE_BITS) as bv8
    ensures TIME_MASK == 281474976710655
    ensures RAND_MASK == 1180591620717411303423
    ensures DATA_CENTER_MASK == 31 && MACHINE_MASK == 31
  {
  }

  /*
    Adding one at the low end of a random portion that is not all ones
    raises that portion by one, cannot carry into the timestamp and leaves
    the ids alone. Each lemma states one bit-vector fact about `b` and
    `c == b + (1 << 10)`.
   */

  lemma AddOneRaisesRandom(b: bv128, c: bv128)
    ensures RandomField(b) != RAND_MASK && c == b + (1 << 10) ==> RandomField(c) == RandomField(b) + 1
  {
  }

  lemma AddOneKeepsTime(b: bv128, c: bv128)
    ensures RandomField(b) != RAND_MASK && c == b + (1 << 10) ==> TimeField(c) == TimeField(b)
  {
  }

  lemma AddOneGrows(b: bv128, c: bv128)
    ensures RandomField(b) != RAND_MASK && c == b + (1 << 10) ==> b < c
  {
  }

  lemma AddOneKeepsIds(b: bv128, c: bv128)
    ensures c == b + (1 << 10) ==> DataCenterField(c) == DataCenterField(b) && MachineField(c) == MachineField(b)
  {
  }

  /** The parts of `n`, whose bits are those of `s` plus one at the low end of the random portion. */
  lemma NextParts(s: Sulid, n: Sulid)
    requires n.bits == s.bits + (1 << 10)
    requires s.Random() != RAND_MASK
    ensures n.Random() == s.Random() + 1 && n.TimestampMs() == s.TimestampMs()
    ensures n.DataCenterId() == s.DataCenterId() && n.MachineId() == s.MachineId()
    ensures s.bits < n.bits
  {
    AddOneRaisesRandom(s.bits, n.bits);
    AddOneKeepsTime(s.bits, n.bits);
    AddOneKeepsIds(s.bits, n.bits);
    AddOneGrows(s.bits, n.bits);
  }

  /** An identifier comes back from its own four parts. */
  lemma PartsRoundTrip(s: Sulid)
    ensures Sulid.FromParts(s.TimestampMs(), s.Random(), s.DataCenterId(), s.MachineId()) == s
  {
  }

  /** Two identifiers with the same four parts are the same identifier. */
  lemma PartsDetermine(a: Sulid, b: Sulid)
    requires a.TimestampMs() == b.TimestampMs() && a.Random() == b.Random()
    requires a.DataCenterId() == b.DataCenterId() && a.MachineId() == b.MachineId()
    ensures a == b
  {
    PartsRoundTrip(a);
    PartsRoundTrip(b);
  }

  /** Parts within their widths are recovered exactly, so distinct ones give distinct identifiers. */
  lemma FromPartsInjective(t1: bv64, r1: bv128, d1: bv8, m1: bv8, t2: bv64, r2: bv128, d2: bv8, m2: bv8)
    requires t1 <= TIME_MASK && r1 <= RAND_MASK && d1 <= DATA_CENTER_MASK && m1 <= MACHINE_MASK
    requires t2 <= TIME_MASK && r2 <= RAND_MASK && d2 <= DATA_CENTER_MASK && m2 <= MACHINE_MASK
    ensures Sulid.FromParts(t1, r1, d1, m1) == Sulid.FromParts(t2, r2, d2, m2)
            <==> (t1, r1, d1, m1) == (t2, r2, d2, m2)
  {
    var a, b := Sulid.FromParts(t1, r1, d1, m1), Sulid.FromParts(t2, r2, d2, m2);
    MaskKeepsInRange(t1, r1, d1, m1);
    MaskKeepsInRange(t2, r2, d2, m2);
    if a == b {
      assert a.TimestampMs() == b.TimestampMs() && a.Random() == b.Random();
      assert a.DataCenterId() == b.DataCenterId() && a.MachineId() == b.MachineId();
    }
  }

  lemma MaskKeepsInRange(t: bv64, r: bv128, d: bv8, m: bv8)
    ensures t <= TIME_MASK ==> t & TIME_MASK == t
    ensures r <= RAND_MASK ==> r & RAND_MASK == r
    ensures d <= DATA_CENTER_MASK ==> d & DATA_CENTER_MASK == d
    ensures m <= MACHINE_MASK ==> m & MACHINE_MASK == m
  {
  }

  /** Overflow bits of the arguments are discarded rather than spilling into other fields. */
  lemma FromPartsDiscardsOverflow(t: bv64, r: bv128, d: bv8, m: bv8)
    ensures Sulid.FromParts(t, r, d, m)
            == Sulid.FromParts(t & TIME_MASK, r & RAND_MASK, d & DATA_CENTER_MASK, m & MACHINE_MASK)
    ensures Sulid.FromParts(t, r, 32, m) == Sulid.FromParts(t, r, 0, m)
    ensures Sulid.FromParts(t, r, d, 32) == Sulid.FromParts(t, r, d, 0)
  {
    PartsDetermine(Sulid.FromParts(t, r, d, m),
                   Sulid.FromParts(t & TIME_MASK, r & RAND_MASK, d & DATA_CENTER_MASK, m & MACHINE_MASK));
    PartsDetermine(Sulid.FromParts(t, r, 32, m), Sulid.FromParts(t, r, 0, m));
    PartsDetermine(Sulid.FromParts(t, r, d, 32), Sulid.FromParts(t, r, d, 0));
  }

  /** An earlier timestamp sorts first, whatever the other fields hold. */
  lemma TimestampOrdersIds(a: Sulid, b: Sulid)
    requires a.TimestampMs() < b.TimestampMs()
    ensures a.bits < b.bits
  {
  }

  /** With in-range timestamps, the earlier one packs to the smaller identifier, whatever the other parts. */
  lemma FromPartsOrdered(t1: bv64, r1: bv128, d1: bv8, m1: bv8, t2: bv64, r2: bv128, d2: bv8, m2: bv8)
    requires t1 < t2 <= TIME_MASK
    ensures Sulid.FromParts(t1, r1, d1, m1).bits < Sulid.FromParts(t2, r2, d2, m2).bits
  {
    MaskKeepsInRange(t1, r1, d1, m1);
    MaskKeepsInRange(t2, r2, d2, m2);
    TimestampOrdersIds(Sulid.FromParts(t1, r1, d1, m1), Sulid.FromParts(t2, r2, d2, m2));
  }

  /** Incrementing is re-packing with the random portion one higher. */
  lemma IncrementIsFromParts(s: Sulid)
    requires s.Random() < RAND_MASK
    ensures s.Increment() == Some(Sulid.FromParts(s.TimestampMs(), s.Random() + 1, s.DataCenterId(), s.MachineId()))
  {
    PartsRoundTrip(s.Increment().value);
  }

  /**
    The identifiers of `test_increment`, written as the integers their
    Base32 strings denote: `01BX5ZZKBKAZZZZZZZZZZZZZZZ` carries into
    `01BX5ZZKBKB0000000000000ZZ`, and `01BX5ZZKBKZZZZZZZZZZZZZXZX` steps twice
    to `01BX5ZZKBKZZZZZZZZZZZZZZZX`, which cannot step again.
   */
  lemma IncrementExamples()
    ensures Sulid(0x15f4bffcd7357ffffffffffffffffff).Increment() == Some(Sulid(0x15f4bffcd73580000000000000003ff))
    ensures Sulid(0x15f4bffcd73fffffffffffffffff7fd).Increment() == Some(Sulid(0x15f4bffcd73fffffffffffffffffbfd))
    ensures Sulid(0x15f4bffcd73fffffffffffffffffbfd).Increment() == Some(Sulid(0x15f4bffcd73fffffffffffffffffffd))
    ensures Sulid(0x15f4bffcd73fffffffffffffffffffd).Increment() == None
  {
  }

  /**
    The increment is the identifier whose integer is the old one plus 2^10,
    and that addition does not wrap around 128 bits.
   */
  lemma IncrementAddsOneUnit(s: Sulid, u: bv128)
    requires s.Random() != RAND_MASK && u == s.U128() + (1 << 10)
    ensures s.Increment() == Some(Sulid.FromU128(u))
    ensures s.U128() < u
  {
    IncrementDoesNotWrap(s, u);
  }

  /** Adding `1 << 10` below an all-ones random portion does not wrap. */
  lemma IncrementDoesNotWrap(s: Sulid, u: bv128)
    requires s.Random() != RAND_MASK && u == s.U128() + (1 << 10)
    ensures s.U128() < u
  {
    AddOneGrows(s.bits, u);
  }

  /** `u128::MAX` has an all-ones random portion and cannot be incremented. */
  lemma IncrementOverflow()
    ensures Sulid.FromU128(0xFFFF_FFFF_FFFF_FFFF_FFFF_FFFF_FFFF_FFFF).Increment().None?
  {
  }

  lemma DefaultIsNil()
    ensures Sulid.Default() == Sulid.Nil()
    ensures !Sulid.FromU128(1).IsNil()
  {
  }

  /** Each of the three conversions out of an identifier is undone by the matching conversion in. */
  lemma ConversionsRoundTrip(s: Sulid)
    ensures Sulid.FromU128(s.U128()) == s
    ensures Sulid.FromTuple(s.ToTuple()) == s
    ensures Sulid.FromBytes(s.ToBytes()) == s
  {
    BigEndian.DecodeEncode(s.bits);
  }

  /** Sixteen 0xFF bytes are `u128::MAX`, and back. */
  lemma AllOnesBytes()
    ensures Sulid.FromBytes(BigEndian.AllOnes()).bits == 0xFFFF_FFFF_FFFF_FFFF_FFFF_FFFF_FFFF_FFFF
    ensures Sulid.FromU128(0xFFFF_FFFF_FFFF_FFFF_FFFF_FFFF_FFFF_FFFF).ToBytes() == BigEndian.AllOnes()
  {
    BigEndian.AllOnesValue();
    BigEndian.EncodeDecode(BigEndian.AllOnes());
  }

  /** A time before the epoch gives the epoch's timestamp, and the nil identifier lies at the epoch. */
  lemma TruncatesAtUnixEpoch(draw: bv128, dataCenterId: bv8, machineId: bv8)
    ensures Sulid.FromDatetimeWithSource(BeforeEpoch, draw, dataCenterId, machineId)
            == Sulid.FromDatetimeWithSource(SinceEpoch(0), draw, dataCenterId, machineId)
    ensures Sulid.FromDatetimeWithSource(BeforeEpoch, draw, dataCenterId, machineId).Datetime() == SinceEpoch(0)
    ensures Sulid.Nil().Datetime() == SinceEpoch(0)
  {
  }

  /** A time that fits 48 bits is recovered exactly from the identifier made at it. */
  lemma DatetimeRoundTrip(ms: bv128, draw: bv128, dataCenterId: bv8, machineId: bv8)
    requires ms <= (TIME_MASK as bv128)
    ensures Sulid.FromDatetimeWithSource(SinceEpoch(ms), draw, dataCenterId, machineId).Datetime() == SinceEpoch(ms)
  {
  }

  /** An identifier made at a later millisecond sorts after, whatever the random draws. */
  lemma FromDatetimeOrder(ms1: bv128, ms2: bv128, draw1: bv128, draw2: bv128, dataCenterId: bv8, machineId: bv8)
    requires ms1 < ms2 <= (TIME_MASK as bv128)
    ensures Sulid.FromDatetimeWithSource(SinceEpoch(ms1), draw1, dataCenterId, machineId).bits
            < Sulid.FromDatetimeWithSource(SinceEpoch(ms2), draw2, dataCenterId, machineId).bits
  {
    TimestampOrdersIds(Sulid.FromDatetimeWithSource(SinceEpoch(ms1), draw1, dataCenterId, machineId),
                       Sulid.FromDatetimeWithSource(SinceEpoch(ms2), draw2, dataCenterId, machineId));
  }

  /**
    Only the kept bits of the time and of the draw matter: equal milliseconds
    modulo 2^48 and equal draws modulo 2^70 give equal identifiers.
   */
  lemma FromDatetimeKeepsOnlyLowBits(t1: SystemTime, t2: SystemTime, draw1: bv128, draw2: bv128,
                                     dataCenterId: bv8, machineId: bv8)
    requires EpochMillis(t1) & (TIME_MASK as bv128) == EpochMillis(t2) & (TIME_MASK as bv128)
    requires draw1 & RAND_MASK == draw2 & RAND_MASK
    ensures Sulid.FromDatetimeWithSource(t1, draw1, dataCenterId, machineId)
            == Sulid.FromDatetimeWithSource(t2, draw2, dataCenterId, machineId)
  {
    PartsDetermine(Sulid.FromDatetimeWithSource(t1, draw1, dataCenterId, machineId),
                   Sulid.FromDatetimeWithSource(t2, draw2, dataCenterId, machineId));
  }

  /** The time and random parts it passes on are already in range, so under the `assert` feature only the ids can panic. */
  lemma FromDatetimeAssertsOnlyIds(datetime: SystemTime, draw: bv128, dataCenterId: bv8, machineId: bv8)
    ensures Sulid.FromPartsAsserting((EpochMillis(datetime) & (TIME_MASK as bv128)) as bv64, draw & RAND_MASK,
                                     dataCenterId, machineId).Ok?
            <==> dataCenterId <= DATA_CENTER_MASK && machineId <= MACHINE_MASK
  {
  }
}
