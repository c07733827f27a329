/**
  The identifier generator: a data-center id and a machine id fixed at
  construction, stamped into every identifier it makes.
 */
module Generator {
  import opened Wrappers
  import opened SulidId

  /**
    `SulidGenerator` of the build without `std`. The build with `std` wraps
    the same two ids together with a random number generator behind a mutex;
    that source is a parameter of `GenerateAt` here.
   */
  datatype SulidGenerator = SulidGenerator(dataCenterId: bv8, machineId: bv8) {

    /** Both ids fit their 5 bits, as `New` guarantees. */
    predicate Valid() {
      dataCenterId < 32 && machineId < 32
    }

    /**
      `SulidGenerator::new`: checks the data-center id and then the machine id,
      panicking with the first check's message that fails.
     */
    static function New(dataCenterId: bv8, machineId: bv8): (r: Result<SulidGenerator, Panic>)
      ensures r.Ok? <==> dataCenterId < 32 && machineId < 32
      ensures r.Ok? ==> r.value.Valid() && r.value.dataCenterId == dataCenterId && r.value.machineId == machineId
      ensures dataCenterId >= 32 ==> r == Err(Panic(DATA_CENTER_RANGE))
      ensures dataCenterId < 32 && machineId >= 32 ==> r == Err(Panic(MACHINE_RANGE))
    {
      if !(dataCenterId < 32) then Err(Panic(DATA_CENTER_RANGE))
      else if !(machineId < 32) then Err(Panic(MACHINE_RANGE))
      else Ok(SulidGenerator(dataCenterId, machineId))
    }

    /**
      `generate(timestamp_ms, random)` without `std`: the caller's time and
      random value, cut to their widths, with this generator's ids.
     */
    function Generate(timestampMs: bv64, random: bv128): (s: Sulid)
      ensures s.TimestampMs() == timestampMs & TIME_MASK && s.Random() == random & RAND_MASK
      ensures Valid() ==> s.DataCenterId() == dataCenterId && s.MachineId() == machineId
    {
      Sulid.FromParts(timestampMs, random, dataCenterId, machineId)
    }

    /**
      `generate()` with `std`: the current time `now` and the value `draw`
      taken from the generator's random source.
     */
    function GenerateAt(now: SystemTime, draw: bv128): (s: Sulid)
      ensures s.TimestampMs() as bv128 == EpochMillis(now) & (TIME_MASK as bv128)
      ensures s.Random() == draw & RAND_MASK
      ensures Valid() ==> s.DataCenterId() == dataCenterId && s.MachineId() == machineId
    {
      Sulid.FromDatetimeWithSource(now, draw, dataCenterId, machineId)
    }
  }

  /** Out-of-range ids are refused with the data-center check first. */
  lemma NewRejectsOutOfRange()
    ensures SulidGenerator.New(32, 1) == Err(Panic("data_center_id must be in the range 0-31"))
    ensures SulidGenerator.New(1, 32) == Err(Panic("machine_id must be in the range 0-31"))
    ensures SulidGenerator.New(32, 32) == Err(Panic("data_center_id must be in the range 0-31"))
    ensures SulidGenerator.New(31, 31).Ok?
  {
  }

  /** Generators with different ids never make the same identifier, whatever the times and random values. */
  lemma DistinctGeneratorsNeverCollide(g: SulidGenerator, h: SulidGenerator,
                                       t1: bv64, r1: bv128, t2: bv64, r2: bv128)
    requires g.Valid() && h.Valid() && g != h
    ensures g.Generate(t1, r1) != h.Generate(t2, r2)
  {
  }

  /** One generator makes distinct identifiers from distinct in-range times or random values. */
  lemma GenerateInjective(g: SulidGenerator, t1: bv64, r1: bv128, t2: bv64, r2: bv128)
    requires t1 <= TIME_MASK && r1 <= RAND_MASK && t2 <= TIME_MASK && r2 <= RAND_MASK
    requires (t1, r1) != (t2, r2)
    ensures g.Generate(t1, r1) != g.Generate(t2, r2)
  {
  }

  /** `generate_unique_ids` without `std`. */
  lemma GenerateUniqueIds()
    ensures SulidGenerator.New(1, 1).Ok?
    ensures SulidGenerator.New(1, 1).value.Generate(1, 1) != SulidGenerator.New(1, 1).value.Generate(2, 2)
  {
    GenerateInjective(SulidGenerator(1, 1), 1, 1, 2, 2);
  }

  /** A later millisecond sorts after, whatever the random values. */
  lemma GenerateOrdered(g: SulidGenerator, t1: bv64, r1: bv128, t2: bv64, r2: bv128)
    requires t1 < t2 <= TIME_MASK
    ensures g.Generate(t1, r1).bits < g.Generate(t2, r2).bits
  {
    TimestampOrdersIds(g.Generate(t1, r1), g.Generate(t2, r2));
  }

  /** With the `assert` feature a valid generator panics only for an out-of-range time or random value. */
  lemma GenerateAsserting(g: SulidGenerator, t: bv64, r: bv128)
    requires g.Valid()
    ensures Sulid.FromPartsAsserting(t, r, g.dataCenterId, g.machineId).Ok? <==> t <= TIME_MASK && r <= RAND_MASK
    ensures Sulid.FromPartsAsserting(t, r, g.dataCenterId, g.machineId).Ok? ==>
              Sulid.FromPartsAsserting(t, r, g.dataCenterId, g.machineId).value == g.Generate(t, r)
  {
  }
}
