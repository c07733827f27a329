/**
  Big-endian conversion between a 128-bit unsigned integer and its bytes:
  byte 0 is the most significant. This is the layout `Sulid::to_bytes` and
  `Sulid::from_bytes` promise for their `[u8; 16]` arrays.
 */
module BigEndian {

  /** `(v & 0xFF) as u8`: the least significant byte of `v`. */
  function LowByte(v: bv128): bv8 {
    (v & 0xFF) as bv8
  }

  /** Shifts the accumulated value up a byte and appends `x` as the new low byte. */
  function Push(acc: bv128, x: bv8): bv128 {
    (acc << 8) | (x as bv128)
  }

  /** The unsigned value of the bytes `b` read most significant first. */
  function Value(b: seq<bv8>): bv128
    decreases |b|
  {
    if b == [] then 0 else Push(Value(b[..|b| - 1]), b[|b| - 1])
  }

  /** The `n` least significant bytes of `v`, most significant first. */
  function LowBytes(v: bv128, n: nat): (b: seq<bv8>)
    ensures |b| == n
  {
    if n == 0 then [] else LowBytes(v >> 8, n - 1) + [LowByte(v)]
  }

  /** One more byte of ones below `m`. */
  function MaskStep(m: bv128): bv128 {
    (m << 8) | 0xFF
  }

  /** The mask that keeps the `n` least significant bytes. */
  function LowMask(n: nat): bv128 {
    if n == 0 then 0 else MaskStep(LowMask(n - 1))
  }

  /** All sixteen bytes are 0xFF. */
  function AllOnes(): (b: seq<bv8>)
    ensures |b| == 16
  {
    seq(16, _ => 0xFF)
  }

  // Facts about single bytes; each is one bit-vector identity.

  lemma ValueSnoc(p: seq<bv8>, x: bv8)
    ensures Value(p + [x]) == Push(Value(p), x)
  {
    assert (p + [x])[..|p|] == p;
  }

  lemma PushLowByte(v: bv128, m: bv128)
    ensures Push((v >> 8) & m, LowByte(v)) == v & MaskStep(m)
  {
  }

  lemma MaskStepNested(a: bv128, b: bv128)
    ensures a & b == a ==> MaskStep(a) & MaskStep(b) == MaskStep(a)
  {
  }

  lemma PushStaysInMask(a: bv128, m: bv128, x: bv8)
    ensures a & m == a ==> Push(a, x) & MaskStep(m) == Push(a, x)
  {
  }

  /** The most significant byte of `a` is zero. */
  predicate TopByteClear(a: bv128) {
    a & 0x00FF_FFFF_FFFF_FFFF_FFFF_FFFF_FFFF_FFFF == a
  }

  lemma PushUndone(a: bv128, x: bv8)
    ensures TopByteClear(a) ==> Push(a, x) >> 8 == a && LowByte(Push(a, x)) == x
  {
  }

  // The width is a parameter fixed by `requires n == 15` rather than the
  // literal 15: with the literal the verifier unrolls `LowMask` at great cost.
  lemma TopByteClearWithin(a: bv128, n: nat)
    requires n == 15
    ensures a & LowMask(n) == a ==> TopByteClear(a)
  {
    LowMask15Is();
  }

  lemma MaskWithin(a: bv128, m: bv128, n: bv128)
    ensures a & m == a && m & n == m ==> a & n == a
  {
  }

  lemma PushOnes(m: bv128)
    ensures Push(m, 0xFF) == MaskStep(m)
  {
  }

  lemma LowMask15Is()
    ensures LowMask(15) == 0x00FF_FFFF_FFFF_FFFF_FFFF_FFFF_FFFF_FFFF
  {
    assert LowMask(8) == 0xFFFF_FFFF_FFFF_FFFF;
  }

  lemma LowMask16IsAllOnes()
    ensures LowMask(16) == 0xFFFF_FFFF_FFFF_FFFF_FFFF_FFFF_FFFF_FFFF
  {
    LowMask15Is();
  }

  // Encoding then decoding keeps the low n bytes.

  lemma ValueOfLowBytesUnfold(v: bv128, n: nat)
    ensures n > 0 ==> Value(LowBytes(v, n)) == Push(Value(LowBytes(v >> 8, n - 1)), LowByte(v))
  {
    if n > 0 {
      ValueSnoc(LowBytes(v >> 8, n - 1), LowByte(v));
    }
  }

  lemma LowMaskUnfold(n: nat)
    ensures n > 0 ==> LowMask(n) == MaskStep(LowMask(n - 1))
  {
  }

  lemma ValueOfLowBytesStep(v: bv128, n: nat, m: nat)
    requires n == m + 1
    requires Value(LowBytes(v >> 8, m)) == (v >> 8) & LowMask(m)
    ensures Value(LowBytes(v, n)) == v & LowMask(n)
  {
    ValueOfLowBytesUnfold(v, n);
    LowMaskUnfold(n);
    PushLowByte(v, LowMask(m));
  }

  lemma {:induction false} ValueOfLowBytes(v: bv128, n: nat)
    ensures Value(LowBytes(v, n)) == v & LowMask(n)
  {
    if n > 0 {
      ValueOfLowBytes(v >> 8, n - 1);
      ValueOfLowBytesStep(v, n, n - 1);
    }
  }

  /** Reading the sixteen bytes of `v` back gives `v`. */
  lemma DecodeEncode(v: bv128)
    ensures Value(LowBytes(v, 16)) == v
  {
    ValueOfLowBytes(v, 16);
    LowMask16IsAllOnes();
  }

  // Decoding then encoding gives the bytes back.

  lemma {:induction false} LowMaskNested(k: nat, j: nat)
    requires k <= j
    ensures LowMask(k) & LowMask(j) == LowMask(k)
  {
    if k > 0 {
      LowMaskNested(k - 1, j - 1);
      MaskStepNested(LowMask(k - 1), LowMask(j - 1));
    }
  }

  lemma ValueFitsStep(b: seq<bv8>, p: seq<bv8>)
    requires b != [] && p == b[..|b| - 1]
    requires Value(p) & LowMask(|p|) == Value(p)
    ensures Value(b) & LowMask(|b|) == Value(b)
  {
    PushStaysInMask(Value(p), LowMask(|p|), b[|b| - 1]);
  }

  /** A value read from n bytes has nothing above its n low bytes. */
  lemma {:induction false} ValueFits(b: seq<bv8>)
    ensures Value(b) & LowMask(|b|) == Value(b)
  {
    if b != [] {
      ValueFits(b[..|b| - 1]);
      ValueFitsStep(b, b[..|b| - 1]);
    }
  }

  /** A value read from at most n bytes has nothing above its n low bytes. */
  lemma ValueWithin(p: seq<bv8>, n: nat)
    requires |p| <= n
    ensures Value(p) & LowMask(n) == Value(p)
  {
    ValueFits(p);
    LowMaskNested(|p|, n);
    MaskWithin(Value(p), LowMask(|p|), LowMask(n));
  }

  lemma LowBytesUnfold(v: bv128, n: nat)
    ensures n > 0 ==> LowBytes(v, n) == LowBytes(v >> 8, n - 1) + [LowByte(v)]
  {
  }

  /**
    At most fifteen bytes leave the top byte of their value clear. The width
    is passed as `n == 15` for the reason given at `TopByteClearWithin`.
   */
  lemma ValueTopByteClear(p: seq<bv8>, n: nat)
    requires |p| <= n && n == 15
    ensures TopByteClear(Value(p))
  {
    ValueWithin(p, n);
    TopByteClearWithin(Value(p), n);
  }

  /** Appending a byte to at most fifteen can be undone on the value. */
  lemma ValueSnocUndone(p: seq<bv8>, x: bv8)
    requires |p| <= 15
    ensures Value(p + [x]) >> 8 == Value(p) && LowByte(Value(p + [x])) == x
  {
    ValueSnoc(p, x);
    ValueTopByteClear(p, 15);
    PushUndone(Value(p), x);
  }

  lemma LowBytesOfValueStep(b: seq<bv8>, p: seq<bv8>, x: bv8)
    requires |b| <= 16 && b == p + [x]
    requires LowBytes(Value(p), |p|) == p
    ensures LowBytes(Value(b), |b|) == b
  {
    ValueSnocUndone(p, x);
    LowBytesUnfold(Value(b), |b|);
  }

  lemma {:induction false} LowBytesOfValue(b: seq<bv8>)
    requires |b| <= 16
    ensures LowBytes(Value(b), |b|) == b
  {
    if b != [] {
      var p, x := b[..|b| - 1], b[|b| - 1];
      assert b == p + [x];
      LowBytesOfValue(p);
      LowBytesOfValueStep(b, p, x);
    }
  }

  /** Encoding the value of sixteen bytes gives the bytes back. */
  lemma EncodeDecode(b: seq<bv8>)
    requires |b| == 16
    ensures LowBytes(Value(b), 16) == b
  {
    LowBytesOfValue(b);
  }

  // Sixteen bytes of 0xFF are the all-ones value.

  lemma ValueOfOnesStep(b: seq<bv8>, p: seq<bv8>)
    requires b != [] && p == b[..|b| - 1] && b[|b| - 1] == 0xFF
    requires Value(p) == LowMask(|p|)
    ensures Value(b) == LowMask(|b|)
  {
    PushOnes(LowMask(|p|));
  }

  lemma {:induction false} ValueOfOnes(b: seq<bv8>)
    requires forall i | 0 <= i < |b| :: b[i] == 0xFF
    ensures Value(b) == LowMask(|b|)
  {
    if b != [] {
      ValueOfOnes(b[..|b| - 1]);
      ValueOfOnesStep(b, b[..|b| - 1]);
    }
  }

  lemma AllOnesValue()
    ensures Value(AllOnes()) == 0xFFFF_FFFF_FFFF_FFFF_FFFF_FFFF_FFFF_FFFF
  {
    ValueOfOnes(AllOnes());
    LowMask16IsAllOnes();
  }
}
