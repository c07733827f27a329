# SULID identifiers in Dafny

A SULID is a ULID-style, lexicographically sortable 128-bit identifier that
also carries a Snowflake-style identity suffix. Read as one unsigned
integer, from the most significant bit down, it holds:

- a 48-bit Unix timestamp in milliseconds;
- 70 random bits;
- a 5-bit data-center id;
- a 5-bit machine id.

Identifiers compare as their integers do, so an identifier made in an
earlier millisecond sorts first.

The model covers three things:

- the identifier type `Sulid`: packing and unpacking the four fields, the
  strict `assert` build, `increment`, nil and `Default`, the `u128`, tuple
  and 16-byte conversions, and the rule that turns a point in time and a
  random draw into the fields;
- the immutable `SulidGenerator` of the build without `std`, which checks
  two ids once and stamps them into every identifier it makes;
- the `std` generator's `generate`, which is the same packing fed by a clock
  reading and a random draw.

Files:

- `wrappers.dfy`: the `Option` and `Result` types.
- `big_endian.dfy`: big-endian conversion between a 128-bit value and 16
  bytes, with both round trips proved by induction on the byte sequence.
- `sulid.dfy`: the identifier (module `SulidId`).
- `generator.dfy`: the generator (module `Generator`).

Rust's `u128`, `u64` and `u8` become `bv128`, `bv64` and `bv8`, so masks
and shifts are those of the machine words. Dafny's narrowing conversions
(`as bv64`, `as bv8`) are checked, not truncating. They agree with Rust's
truncating `as` here because every narrowing cast in the source
(src/sulid.rs:190, 212, 217 and 530) is applied to a value that already
fits the target width, and the verifier checks that at each conversion.
Rust's `+` in `increment` (src/sulid.rs:265) is an ordinary addition, which
would panic on overflow in a debug build. `IncrementAddsOneUnit` shows it
never overflows there.

A Rust panic becomes the `Err(Panic(message))` branch of a `Result`,
carrying the panic's exact message. A `SystemTime` becomes
`BeforeEpoch | SinceEpoch(millis)`; that is all the identifier reads of it.

## Model

| member | source | states |
|---|---|---|
| SulidId.Layout | src/sulid.rs:33-37 | the field offsets are 80 and 10 (the sums of the widths below them), the widths fill 128 bits, each mask is `bitmask!` of its width, and the masks are 281474976710655, 1180591620717411303423, 31 and 31 |
| SulidId.Sulid.FromU128 | src/sulid.rs:63-70 | the integer representation of `from_u128(u)` is `u` |
| SulidId.Sulid.TimestampMs | src/sulid.rs:189-191 | the timestamp is below 2^48 for every identifier |
| SulidId.Sulid.Random | src/sulid.rs:205-208 | the random portion is below 2^70 for every identifier |
| SulidId.Sulid.DataCenterId | src/sulid.rs:211-213 | the data-center id is below 32 for every identifier |
| SulidId.Sulid.MachineId | src/sulid.rs:216-218 | the machine id is below 32 for every identifier |
| SulidId.Sulid.FromParts | src/sulid.rs:87-129 | each of the four projections of the packed identifier returns its argument cut to the field's width: the fields are disjoint and nothing spills over |
| SulidId.Sulid.FromPartsAsserting | src/sulid.rs:98-116 | with the `assert` feature the result is Ok exactly when all four parts are within their widths, and then it is the `from_parts` identifier whose parts are exactly the arguments; otherwise it is the panic of the first failing check, in timestamp, random, data-center, machine order |
| SulidId.Sulid.Nil | src/sulid.rs:171-173 | all four fields of the nil identifier are zero |
| SulidId.Sulid.IsNil | src/sulid.rs:244-253 | `is_nil` holds exactly for the nil identifier |
| SulidId.Sulid.Default | src/sulid.rs:306-310 | the default identifier is nil |
| SulidId.Sulid.Increment | src/sulid.rs:255-268 | the result is None exactly when the random portion is all ones; otherwise the random portion is one higher, the timestamp and both ids are unchanged, and the new identifier is strictly greater |
| SulidId.IncrementAddsOneUnit | src/sulid.rs:259-266 | when the random portion is not all ones, the increment is the identifier whose integer is the old one plus 2^10, and that sum does not wrap around 128 bits, so the integer grows by exactly 2^10 |
| SulidId.IncrementDoesNotWrap | src/sulid.rs:259-266 | that addition of 2^10 never wraps around 128 bits |
| SulidId.IncrementIsFromParts | src/sulid.rs:255-268 | incrementing equals re-packing the same timestamp and ids with the random portion plus one |
| SulidId.IncrementExamples | src/sulid.rs:389-405 | the identifiers of the increment test, as integers: the carry into the next random digit, two steps at the top of the range, then None |
| SulidId.DefaultIsNil | src/sulid.rs:430-433 | the default identifier equals nil, and `from_u128(1)` is not nil, as the `is_nil` example at src/sulid.rs:244-246 shows |
| SulidId.IncrementOverflow | src/sulid.rs:408-411 | `u128::MAX` cannot be incremented |
| SulidId.NextParts | src/sulid.rs:259-266 | adding 2^10 below an all-ones random portion adds one to that portion, keeps the timestamp and both ids, and grows the integer |
| SulidId.Sulid.FromTuple | src/sulid.rs:312-316 | the identifier built from a tuple has the tuple's four parts, each cut to its width |
| SulidId.Sulid.ToTuple | src/sulid.rs:318-327 | converting the tuple back gives the same identifier |
| SulidId.PartsRoundTrip | src/sulid.rs:76-84 | `from_parts` of an identifier's own four parts is that identifier |
| SulidId.PartsDetermine | src/sulid.rs:46-50 | two identifiers with the same four parts are the same identifier |
| SulidId.FromPartsInjective | src/sulid.rs:118-128 | for parts within their widths, packing gives equal identifiers exactly when the parts are equal |
| SulidId.FromPartsDiscardsOverflow | src/sulid.rs:74 | packing depends only on the parts cut to their widths: an id of 32 packs like 0 |
| SulidId.TimestampOrdersIds | src/sulid.rs:46-50 | an identifier with a smaller timestamp is smaller, whatever its other fields hold |
| SulidId.FromPartsOrdered | src/sulid.rs:118-128 | for in-range timestamps, the earlier timestamp packs to the smaller identifier, whatever the other arguments |
| SulidId.Sulid.ToBytes | src/sulid.rs:289-303 | the 16 bytes read most significant first are the identifier's integer |
| SulidId.Sulid.FromBytes | src/sulid.rs:285-287 | converting the result back to bytes gives the 16 input bytes |
| SulidId.ConversionsRoundTrip | src/sulid.rs:414-422 | the `u128`, tuple and byte conversions each come back to the identifier they started from |
| SulidId.AllOnesBytes | src/sulid.rs:275-298 | sixteen 0xFF bytes are `u128::MAX`, and `u128::MAX` gives sixteen 0xFF bytes |
| BigEndian.ValueOfLowBytes | src/sulid.rs:289 | the value of the `n` low bytes of `v`, most significant first, is `v` with its other bytes cleared |
| BigEndian.DecodeEncode | src/sulid.rs:289 | reading back the 16 big-endian bytes of a value gives the value |
| BigEndian.LowBytesOfValue | src/sulid.rs:289 | up to 16 bytes read as a big-endian value give the same bytes back |
| BigEndian.EncodeDecode | src/sulid.rs:289 | encoding the value of 16 bytes gives the bytes back |
| BigEndian.ValueFits | src/sulid.rs:289 | a value read from `n` bytes has nothing above its `n` low bytes |
| BigEndian.AllOnesValue | src/sulid.rs:275-281 | sixteen 0xFF bytes are the all-ones value |
| SulidId.Sulid.FromDatetimeWithSource | src/sulid.rs:517-533 | the timestamp is the milliseconds since the epoch (0 before it) mod 2^48, the random portion is the draw mod 2^70, and the ids are cut to 5 bits |
| SulidId.Sulid.Datetime | src/sulid.rs:550-553 | the creation time is at or after the epoch, by at most 2^48-1 milliseconds |
| SulidId.TruncatesAtUnixEpoch | src/sulid.rs:656-672 | a time before the epoch builds the same identifier as the epoch, whose `datetime` is the epoch, and the nil identifier lies at the epoch |
| SulidId.DatetimeRoundTrip | src/sulid.rs:628-648 | a time that fits 48 bits of milliseconds is recovered exactly by `datetime` |
| SulidId.FromDatetimeOrder | src/sulid.rs:620-626 | an identifier made at a later millisecond sorts after, whatever the draws |
| SulidId.FromDatetimeKeepsOnlyLowBits | src/sulid.rs:606-618 | equal times and draws give equal identifiers, and only their kept bits matter |
| SulidId.FromDatetimeAssertsOnlyIds | src/sulid.rs:530-532 | the time and random parts passed on are already in range, so with the `assert` feature only out-of-range ids can panic |
| Generator.SulidGenerator.New | src/generator.rs:41-52 | Ok exactly when both ids are below 32, and then the generator stores exactly those ids; otherwise the panic of the data-center check, or failing that of the machine check |
| Generator.NewRejectsOutOfRange | src/generator.rs:89-101 | (32, 1) and (32, 32) panic with the data-center message, (1, 32) with the machine message, and (31, 31) succeeds |
| Generator.SulidGenerator.Generate | src/generator.rs:68-70 | the identifier has the given time and random value cut to their widths, and, for a generator `new` accepted, exactly the generator's ids |
| Generator.SulidGenerator.GenerateAt | src/generator.rs:162-170 | with `std`: the timestamp is the current time in milliseconds mod 2^48, the random portion is the draw mod 2^70, and the ids are the generator's |
| Generator.DistinctGeneratorsNeverCollide | src/generator.rs:12-21 | two valid generators with different ids never produce the same identifier |
| Generator.GenerateInjective | src/generator.rs:68-70 | one generator gives distinct identifiers for distinct in-range times or random values |
| Generator.GenerateUniqueIds | src/generator.rs:80-87 | `new(1, 1)` succeeds, and `generate(1, 1)` differs from `generate(2, 2)` |
| Generator.GenerateOrdered | src/generator.rs:68-70 | a later in-range millisecond gives a larger identifier, whatever the random values |
| Generator.GenerateAsserting | src/generator.rs:68-70 | with the `assert` feature, a valid generator panics only for an out-of-range time or random value, and otherwise gives the `generate` identifier |

## Left out

- Crockford Base32 text (`from_string`, `array_to_str`, `to_string`, `Display`, `FromStr`, `TryFrom<&str>`, `DecodeError`, `EncodeError`): the code delegates it entirely to the external `ulid` crate, which is not part of this model.
- The byte conversions also delegate to `ulid`. They are modelled directly as big-endian, following the documentation of `to_bytes`.
- `is_nil` likewise delegates to `ulid`. It is modelled as "all bits zero", which is what `nil` builds and what the documentation example shows.
- Reading the wall clock (`SystemTime::now`, the wasm `now()`) and the random sources (`thread_rng`, `StdRng::from_entropy`, `gen::<u128>()`) are I/O. The time and the drawn `u128` are parameters instead.
- `Sulid::new`, `with_source` and `from_datetime` are `FromDatetimeWithSource` applied to such a clock reading and draw, so they have no members of their own.
- `SystemTime` is kept to whole milliseconds since the epoch. Sub-millisecond precision is not represented, so the ±1 ms tolerance of `test_datetime` becomes exact equality in `DatetimeRoundTrip`.
- The `std` generator's `Mutex<StdRng>` and its locking are not modelled. They concern thread safety; `GenerateAt` takes the draw the locked generator would produce.
- That `generate` leaves the generator unchanged needs no lemma: `SulidGenerator` is an immutable datatype value.
- That equal inputs give equal identifiers also needs no lemma: every operation is a function.
- The "Version 2" layout with a 10-bit worker id, and `v1_new`/`v2_new`, appear only in documentation and have no implementation, so they are not modelled.
- `src/lib.rs` holds only re-exports and documentation. `examples/generate_sulid.rs` is a printing loop. Neither is modelled.
- SulidId.Sulid.Increment: its contract states strict growth of the integer rather than the exact `+ 2^10`, because that combined bit-vector contract is too costly for the verifier. The exact addition without wrap-around is stated separately by `IncrementAddsOneUnit`.
- SulidId.Sulid.FromTuple: models the build without the `assert` feature. With that feature `From<(u64, u128, u8, u8)>` is `FromPartsAsserting` of the tuple's four parts, panicking on the first part out of range; the model states that only for `FromPartsAsserting` itself.
