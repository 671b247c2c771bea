/** MurmurHash3_x64_128 (src/util/MurMurHash3.cpp:275-352) on 64-bit words, and the inverses of its
    steps.  Words are read in little-endian order, as on the x86-64 machines the enclave runs on. */
module Murmur {
  import opened Bits

  const RANGE: nat := 0x1_0000_0000_0000_0000

  type Byte = x: nat | x < 256

  type Word = x: nat | x < RANGE

  const C1: Word := 0x87c37b91114253d5
  const C2: Word := 0x4cf5ad432745937f

  /** The state h1, h2; also two words of a block, and the result. */
  datatype Pair = Pair(h1: Word, h2: Word)

  // ---------------------------------------------------------------- arithmetic on words

  function Plus(x: Word, y: Word): Word {
    (x + y) % RANGE
  }

  function Minus(x: Word, y: Word): Word {
    (x - y) % RANGE
  }

  function Times(x: Word, y: Word): Word {
    x * y % RANGE
  }

  lemma Pow2Of8()
    ensures Pow2(8) == 256
  {
    assert Pow2(4) == 16;
  }

  lemma Pow2Of64()
    ensures Pow2(64) == RANGE
  {
    hide Pow2;
    Pow2Of8();
    Pow2Adds(8, 8);
    Pow2Adds(16, 16);
    Pow2Adds(32, 32);
  }

  function Xor64(x: Word, y: Word): Word {
    Pow2Of64();
    XorBound(x, y, 64);
    Xor(x, y)
  }

  /** rotl64 (59-62). */
  function Rotl(x: Word, r: nat): nat
    requires r <= 64
  {
    Or(x * Pow2(r) % RANGE, Shr(x, 64 - r))
  }

  lemma PlusInverts(x: Word, y: Word)
    ensures Minus(Plus(x, y), y) == x
  {
  }

  lemma TimesInverts(x: Word, c: Word, d: Word)
    requires c * d % RANGE == 1
    ensures Times(Times(x, c), d) == x
  {
    var q, k := x * c / RANGE, c * d / RANGE;
    assert x * c == q * RANGE + Times(x, c);
    assert c * d == k * RANGE + 1;
    assert Times(x, c) * d == x * (c * d) - q * RANGE * d;
    assert Times(x, c) * d == (x * k - q * d) * RANGE + x;
    Quotient(Times(x, c) * d, x * k - q * d, x, RANGE);
  }

  lemma Multipliers()
    ensures C1 * 0xa98409e882ce4d7d % RANGE == 1 && C2 * 0xa81e14edd9de2c7f % RANGE == 1
    ensures 0xff51afd7ed558ccd * 0x4f74430c22a54005 % RANGE == 1
    ensures 0xc4ceb9fe1a85ec53 * 0x9cb4b2f8129337db % RANGE == 1
    ensures 5 * 0xcccccccccccccccd % RANGE == 1
  {
  }

  lemma XorInverts(x: Word, y: Word)
    ensures Xor64(Xor64(x, y), y) == x && Xor64(Xor64(x, y), x) == y
  {
    XorCancels(x, y);
    XorCommutes(x, y);
    XorCancels(y, x);
  }

  /** Shifting left drops the high digits. */
  lemma ShiftedLeft(hi: nat, lo: nat, p: nat, q: nat)
    requires p > 0 && q > 0 && p * q == RANGE && hi < p && lo < q
    ensures hi * q + lo < RANGE && lo * p + hi < RANGE
    ensures (hi * q + lo) * p % RANGE == lo * p && (hi * q + lo) / q == hi
  {
    Scaled(hi, p, lo, q);
    Scaled(lo, q, hi, p);
    assert (hi * q + lo) * p == hi * (p * q) + lo * p;
    Quotient((hi * q + lo) * p, hi, lo * p, RANGE);
    Quotient(hi * q + lo, hi, lo, q);
  }

  /** A rotation swaps the high and the low digits. */
  lemma RotlSwaps(hi: nat, lo: nat, r: nat)
    requires r <= 64 && hi < Pow2(r) && lo < Pow2(64 - r)
    ensures hi * Pow2(64 - r) + lo < RANGE
    ensures Rotl(hi * Pow2(64 - r) + lo, r) == lo * Pow2(r) + hi < RANGE
  {
    hide Pow2, Or, Shr;
    Pow2Of64();
    Pow2Adds(r, 64 - r);
    ShiftedLeft(hi, lo, Pow2(r), Pow2(64 - r));
    ShrIs(hi * Pow2(64 - r) + lo, 64 - r);
    OrZero(lo);
    OrZero(hi);
    OrSplit(lo, 0, 0, hi, r);
  }

  lemma RotlInverts(x: Word, r: nat)
    requires r <= 64
    ensures Rotl(x, r) < RANGE && Rotl(Rotl(x, r), 64 - r) == x
  {
    hide Pow2, Rotl;
    var q := Pow2(64 - r);
    var hi, lo := x / q, x % q;
    DivMod(x, q);
    Pow2Of64();
    Pow2Adds(r, 64 - r);
    assert hi < Pow2(r) by {
      if hi >= Pow2(r) {
        MulMonotone(Pow2(r), hi, q);
      }
    }
    RotlSwaps(hi, lo, r);
    RotlSwaps(lo, hi, 64 - r);
  }

  lemma ShiftXorInverts(k: Word)
    ensures Shr(k, 33) < RANGE && var x := Xor64(k, Shr(k, 33)); Shr(x, 33) < RANGE && Xor64(x, Shr(x, 33)) == k
  {
    hide Pow2, Shr, Xor;
    ShrBelow(k, 33);
    var s := Shr(k, 33);
    ShrTwice(k, 33, 33);
    ShrAll(k, 66);
    ShrXor(k, s, 33);
    XorZero(s);
    ShrBelow(Xor64(k, s), 33);
    XorCancels(k, s);
  }

  lemma ShrBelow(x: nat, j: nat)
    ensures Shr(x, j) <= x
  {
    ShrIs(x, j);
    DivMod(x, Pow2(j));
    AtLeast(Pow2(j), Shr(x, j));
  }

  lemma ShrAll(x: Word, j: nat)
    requires j >= 64
    ensures Shr(x, j) == 0
  {
    ShrIs(x, j);
    Pow2Of64();
    Pow2Monotone(64, j);
    Quotient(x, 0, x, Pow2(j));
  }

  // ---------------------------------------------------------------- the steps

  function Rot(x: Word, r: nat): Word
    requires r <= 64
  {
    RotlInverts(x, r);
    Rotl(x, r)
  }

  /** `k ^= k >> 33` (103, 105, 107). */
  function ShiftXor(k: Word): Word {
    ShrBelow(k, 33);
    Xor64(k, Shr(k, 33))
  }

  /** fmix64 (101-110). */
  function Fmix64(k: Word): Word {
    ShiftXor(Times(ShiftXor(Times(ShiftXor(k), 0xff51afd7ed558ccd)), 0xc4ceb9fe1a85ec53))
  }

  /** `k1 *= c1; k1 = ROTL64(k1,31); k1 *= c2`, and the like for k2. */
  function Mix1(k: Word): Word {
    Times(Rot(Times(k, C1), 31), C2)
  }

  function Mix2(k: Word): Word {
    Times(Rot(Times(k, C2), 33), C1)
  }

  /** `h = ROTL64(h,r); h += d; h = h*5+c`. */
  function Turn(h: Word, r: nat, d: Word, c: Word): Word
    requires r <= 64
  {
    Plus(Times(Plus(Rot(h, r), d), 5), c)
  }

  /** One block of the body (298-304). */
  function Step(s: Pair, k: Pair): Pair {
    var h1 := Turn(Xor64(s.h1, Mix1(k.h1)), 27, s.h2, 0x52dce729);
    Pair(h1, Turn(Xor64(s.h2, Mix2(k.h2)), 31, h1, 0x38495ab5))
  }

  /** What the tail does to the state: its second word only if it has more than eight bytes (320, 330). */
  function TailStep(s: Pair, k: Pair, n: nat): Pair {
    Pair(if n >= 1 then Xor64(s.h1, Mix1(k.h1)) else s.h1, if n >= 9 then Xor64(s.h2, Mix2(k.h2)) else s.h2)
  }

  /** Finalization (336-351). */
  function Final(s: Pair, len: Word): Pair {
    var h1 := Plus(Xor64(s.h1, len), Xor64(s.h2, len));
    var h2 := Plus(Xor64(s.h2, len), h1);
    var f := Plus(Fmix64(h1), Fmix64(h2));
    Pair(f, Plus(Fmix64(h2), f))
  }

  // ---------------------------------------------------------------- their inverses

  lemma RotInverts(x: Word, r: nat)
    requires r <= 64
    ensures Rot(Rot(x, r), 64 - r) == x
  {
    RotlInverts(x, r);
  }

  function Unfmix64(k: Word): Word {
    ShiftXor(Times(ShiftXor(Times(ShiftXor(k), 0x9cb4b2f8129337db)), 0x4f74430c22a54005))
  }

  lemma Fmix64Inverts(k: Word)
    ensures Unfmix64(Fmix64(k)) == k
  {
    hide Times, ShiftXor;
    var k1 := Times(ShiftXor(k), 0xff51afd7ed558ccd);
    var k2 := Times(ShiftXor(k1), 0xc4ceb9fe1a85ec53);
    Multipliers();
    ShiftXorTwice(k2);
    TimesInverts(ShiftXor(k1), 0xc4ceb9fe1a85ec53, 0x9cb4b2f8129337db);
    ShiftXorTwice(k1);
    TimesInverts(ShiftXor(k), 0xff51afd7ed558ccd, 0x4f74430c22a54005);
    ShiftXorTwice(k);
  }

  lemma ShiftXorTwice(k: Word)
    ensures ShiftXor(ShiftXor(k)) == k
  {
    ShiftXorInverts(k);
  }

  function Unmix1(k: Word): Word {
    Times(Rot(Times(k, 0xa81e14edd9de2c7f), 33), 0xa98409e882ce4d7d)
  }

  function Unmix2(k: Word): Word {
    Times(Rot(Times(k, 0xa98409e882ce4d7d), 31), 0xa81e14edd9de2c7f)
  }

  lemma MixInverts(k: Word)
    ensures Unmix1(Mix1(k)) == k && Unmix2(Mix2(k)) == k
  {
    hide Times, Rot;
    Multipliers();
    TimesInverts(Rot(Times(k, C1), 31), C2, 0xa81e14edd9de2c7f);
    RotInverts(Times(k, C1), 31);
    TimesInverts(k, C1, 0xa98409e882ce4d7d);
    TimesInverts(Rot(Times(k, C2), 33), C1, 0xa98409e882ce4d7d);
    RotInverts(Times(k, C2), 33);
    TimesInverts(k, C2, 0xa81e14edd9de2c7f);
  }

  function Unturn(h: Word, r: nat, d: Word, c: Word): Word
    requires r <= 64
  {
    Rot(Minus(Times(Minus(h, c), 0xcccccccccccccccd), d), 64 - r)
  }

  lemma TurnInverts(h: Word, r: nat, d: Word, c: Word)
    requires r <= 64
    ensures Unturn(Turn(h, r, d, c), r, d, c) == h
  {
    hide Times, Rot, Plus, Minus;
    Multipliers();
    var x := Plus(Rot(h, r), d);
    PlusInverts(Times(x, 5), c);
    TimesInverts(x, 5, 0xcccccccccccccccd);
    PlusInverts(Rot(h, r), d);
    RotInverts(h, r);
  }

  /** The state before a block, if the block is known. */
  function Unstep(s: Pair, k: Pair): Pair {
    var h2 := Xor64(Unturn(s.h2, 31, s.h1, 0x38495ab5), Mix2(k.h2));
    Pair(Xor64(Unturn(s.h1, 27, h2, 0x52dce729), Mix1(k.h1)), h2)
  }

  /** The block that leads from one state to another. */
  function BlockBetween(s: Pair, s': Pair): Pair {
    Pair(Unmix1(Xor64(Unturn(s'.h1, 27, s.h2, 0x52dce729), s.h1)),
      Unmix2(Xor64(Unturn(s'.h2, 31, s'.h1, 0x38495ab5), s.h2)))
  }

  /** A step loses nothing: the state before it follows from the block, and the block from the state. */
  lemma StepInverts(s: Pair, k: Pair)
    ensures Unstep(Step(s, k), k) == s && BlockBetween(s, Step(s, k)) == k
  {
    hide Turn, Unturn, Mix1, Mix2, Unmix1, Unmix2, Xor64;
    var m1, m2 := Mix1(k.h1), Mix2(k.h2);
    TurnInverts(Xor64(s.h1, m1), 27, s.h2, 0x52dce729);
    TurnInverts(Xor64(s.h2, m2), 31, Step(s, k).h1, 0x38495ab5);
    XorInverts(s.h1, m1);
    XorInverts(s.h2, m2);
    MixInverts(k.h1);
    MixInverts(k.h2);
  }

  /** So does the tail, where a word too short for its mixing step is zero. */
  lemma TailShowsWords(s: Pair, k: Pair, k': Pair, n: nat)
    requires n < 9 ==> k.h2 == k'.h2
    requires n < 1 ==> k.h1 == k'.h1
    requires TailStep(s, k, n) == TailStep(s, k', n)
    ensures k == k'
  {
    hide Mix1, Mix2, Unmix1, Unmix2, Xor64;
    XorInverts(s.h1, Mix1(k.h1));
    XorInverts(s.h1, Mix1(k'.h1));
    XorInverts(s.h2, Mix2(k.h2));
    XorInverts(s.h2, Mix2(k'.h2));
    MixInverts(k.h1);
    MixInverts(k'.h1);
    MixInverts(k.h2);
    MixInverts(k'.h2);
  }

  /** The tail mixes its words into the state as a block does, up to the turn that only a block has. */
  lemma TailMixesAsBlock(s: Pair, k: Pair, n: nat)
    ensures n >= 1 ==> Step(s, k).h1 == Turn(TailStep(s, k, n).h1, 27, s.h2, 0x52dce729)
    ensures n >= 9 ==> Step(s, k).h2 == Turn(TailStep(s, k, n).h2, 31, Step(s, k).h1, 0x38495ab5)
    ensures n < 1 ==> TailStep(s, k, n).h1 == s.h1
    ensures n < 9 ==> TailStep(s, k, n).h2 == s.h2
  {
    hide Turn, Xor64, Mix1, Mix2;
  }

  lemma TailInverts(s: Pair, s': Pair, k: Pair, n: nat)
    requires TailStep(s, k, n) == TailStep(s', k, n)
    ensures s == s'
  {
    hide Mix1, Mix2, Xor64;
    XorInverts(s.h1, Mix1(k.h1));
    XorInverts(s'.h1, Mix1(k.h1));
    XorInverts(s.h2, Mix2(k.h2));
    XorInverts(s'.h2, Mix2(k.h2));
  }

  function Unfinal(s: Pair, len: Word): Pair {
    var f2 := Minus(s.h2, s.h1);
    var h1, h2 := Unfmix64(Minus(s.h1, f2)), Unfmix64(f2);
    var x2 := Minus(h2, h1);
    Pair(Xor64(Minus(h1, x2), len), Xor64(x2, len))
  }

  lemma FinalInverts(s: Pair, len: Word)
    ensures Unfinal(Final(s, len), len) == s
  {
    hide Fmix64, Unfmix64, Plus, Minus, Xor64;
    var x1, x2 := Xor64(s.h1, len), Xor64(s.h2, len);
    var h1 := Plus(x1, x2);
    var h2 := Plus(x2, h1);
    PlusInverts(x1, x2);
    PlusInverts(x2, h1);
    Fmix64Inverts(h1);
    Fmix64Inverts(h2);
    PlusInverts(Fmix64(h1), Fmix64(h2));
    PlusInverts(Fmix64(h2), Plus(Fmix64(h1), Fmix64(h2)));
    XorInverts(s.h1, len);
    XorInverts(s.h2, len);
  }

  // ---------------------------------------------------------------- words of bytes

  function At(t: seq<Byte>, i: nat): Byte {
    if i < |t| then t[i] else 0
  }

  /** m bytes from `lo` on as a little-endian number, missing bytes being zero. */
  function LittleEndian(t: seq<Byte>, lo: nat, m: nat): nat
    decreases m
  {
    if m == 0 then 0 else At(t, lo) + 256 * LittleEndian(t, lo + 1, m - 1)
  }

  lemma {:induction false} LittleEndianBound(t: seq<Byte>, lo: nat, m: nat)
    ensures LittleEndian(t, lo, m) < Pow2(8 * m)
    decreases m
  {
    if m > 0 {
      LittleEndianBound(t, lo + 1, m - 1);
      Pow2Of8();
      Pow2Adds(8, 8 * (m - 1));
      assert 8 + 8 * (m - 1) == 8 * m;
    }
  }

  lemma {:induction false} BytesFromWord(t: seq<Byte>, u: seq<Byte>, lo: nat, m: nat)
    requires LittleEndian(t, lo, m) == LittleEndian(u, lo, m)
    ensures forall i :: lo <= i < lo + m ==> At(t, i) == At(u, i)
    decreases m
  {
    if m > 0 {
      BytesFromWord(t, u, lo + 1, m - 1);
    }
  }

  lemma {:induction false} WordFromBytes(t: seq<Byte>, u: seq<Byte>, lo: nat, m: nat)
    requires forall i :: lo <= i < lo + m ==> At(t, i) == At(u, i)
    ensures LittleEndian(t, lo, m) == LittleEndian(u, lo, m)
    decreases m
  {
    if m > 0 {
      WordFromBytes(t, u, lo + 1, m - 1);
    }
  }

  lemma {:induction false} NoBytes(t: seq<Byte>, lo: nat, m: nat)
    requires lo >= |t|
    ensures LittleEndian(t, lo, m) == 0
    decreases m
  {
    if m > 0 {
      NoBytes(t, lo + 1, m - 1);
    }
  }

  function WordAt(t: seq<Byte>, lo: nat): Word {
    LittleEndianBound(t, lo, 8);
    Pow2Of64();
    LittleEndian(t, lo, 8)
  }

  /** The two words of 16 bytes. */
  function Words(t: seq<Byte>, c: nat): Pair {
    Pair(WordAt(t, 16 * c), WordAt(t, 16 * c + 8))
  }

  // ---------------------------------------------------------------- the hash

  /** The state after n blocks. */
  function Body(key: seq<Byte>, seed: Word, n: nat): Pair {
    if n == 0 then Pair(seed, seed) else Step(Body(key, seed, n - 1), Words(key, n - 1))
  }

  /** The length is a non-negative `int`. */
  function Hash(key: seq<Byte>, seed: Word): Pair
    requires |key| < 0x8000_0000
  {
    var n := |key| / 16;
    Final(TailStep(Body(key, seed, n), Words(key, n), |key| % 16), |key|)
  }

  lemma BodyIsSteps(key: seq<Byte>, seed: Word, n: nat)
    ensures Body(key, seed, n) == if n == 0 then Pair(seed, seed) else Step(Body(key, seed, n - 1), Words(key, n - 1))
  {
  }

  ghost predicate SameBytes(a: seq<Byte>, b: seq<Byte>, lo: nat, m: nat) {
    forall i :: lo <= i < lo + m ==> At(a, i) == At(b, i)
  }

  lemma WordIsBytes(a: seq<Byte>, b: seq<Byte>, lo: nat)
    ensures WordAt(a, lo) == WordAt(b, lo) <==> SameBytes(a, b, lo, 8)
  {
    if WordAt(a, lo) == WordAt(b, lo) {
      BytesFromWord(a, b, lo, 8);
    }
    if SameBytes(a, b, lo, 8) {
      WordFromBytes(a, b, lo, 8);
    }
  }

  predicate SameChunk(a: seq<Byte>, b: seq<Byte>, c: nat) {
    Words(a, c) == Words(b, c)
  }

  /** Chunks are the same if and only if their bytes are. */
  lemma ChunkIsBytes(a: seq<Byte>, b: seq<Byte>, c: nat)
    ensures SameChunk(a, b, c) <==> SameBytes(a, b, 16 * c, 16)
  {
    hide WordAt;
    WordIsBytes(a, b, 16 * c);
    WordIsBytes(a, b, 16 * c + 8);
  }

  lemma {:induction false} SameBefore(a: seq<Byte>, b: seq<Byte>, seed: Word, n: nat)
    requires forall c: nat :: c < n ==> SameChunk(a, b, c)
    ensures Body(a, seed, n) == Body(b, seed, n)
  {
    hide Step, Words, SameChunk, Body;
    BodyIsSteps(a, seed, n);
    BodyIsSteps(b, seed, n);
    if n > 0 {
      SameBefore(a, b, seed, n - 1);
      SameMeans(a, b, n - 1);
    }
  }

  /** Equal states come from equal states while the blocks are the same. */
  lemma {:induction false} SameBack(a: seq<Byte>, b: seq<Byte>, seed: Word, c: nat, n: nat)
    requires c <= n && Body(a, seed, n) == Body(b, seed, n)
    requires forall d: nat :: c <= d < n ==> SameChunk(a, b, d)
    ensures Body(a, seed, c) == Body(b, seed, c)
  {
    hide Step, Unstep, Words, SameChunk, Body;
    BodyIsSteps(a, seed, n);
    BodyIsSteps(b, seed, n);
    if c < n {
      SameMeans(a, b, n - 1);
      StepInverts(Body(a, seed, n - 1), Words(a, n - 1));
      StepInverts(Body(b, seed, n - 1), Words(b, n - 1));
      SameBack(a, b, seed, c, n - 1);
    }
  }

  lemma ShortTail(t: seq<Byte>, n: nat)
    requires n == |t| / 16
    ensures |t| % 16 < 1 ==> Words(t, n).h1 == 0
    ensures |t| % 16 < 9 ==> Words(t, n).h2 == 0
  {
    if |t| % 16 < 1 {
      NoBytes(t, 16 * n, 8);
    }
    if |t| % 16 < 9 {
      NoBytes(t, 16 * n + 8, 8);
    }
  }

  /** If all but chunk c are the same, so is chunk c. */
  lemma ChunkFromHash(a: seq<Byte>, b: seq<Byte>, seed: Word, c: nat)
    requires |a| == |b| < 0x8000_0000 && c <= |a| / 16
    requires forall d: nat :: d <= |a| / 16 && d != c ==> SameChunk(a, b, d)
    requires Hash(a, seed) == Hash(b, seed)
    ensures SameChunk(a, b, c)
  {
    hide Step, Words, Final, TailStep, SameChunk, Body, Unfinal, BlockBetween;
    BodyIsSteps(a, seed, c + 1);
    BodyIsSteps(b, seed, c + 1);
    var n, r := |a| / 16, |a| % 16;
    FinalInverts(TailStep(Body(a, seed, n), Words(a, n), r), |a|);
    FinalInverts(TailStep(Body(b, seed, n), Words(b, n), r), |a|);
    if c == n {
      SameBefore(a, b, seed, n);
      ShortTail(a, n);
      ShortTail(b, n);
      TailShowsWords(Body(a, seed, n), Words(a, n), Words(b, n), r);
      SameMeans(a, b, n);
    } else {
      SameMeans(a, b, n);
      TailInverts(Body(a, seed, n), Body(b, seed, n), Words(a, n), r);
      SameBack(a, b, seed, c + 1, n);
      SameBefore(a, b, seed, c);
      StepInverts(Body(a, seed, c), Words(a, c));
      StepInverts(Body(b, seed, c), Words(b, c));
      SameMeans(a, b, c);
    }
  }

  lemma SameMeans(a: seq<Byte>, b: seq<Byte>, c: nat)
    ensures SameChunk(a, b, c) <==> Words(a, c) == Words(b, c)
  {
  }

  /** Two different keys of the same length that differ only within one aligned group of 16 bytes never
      have the same hash. */
  lemma OneChunkNeverCollides(a: seq<Byte>, b: seq<Byte>, seed: Word, c: nat)
    requires |a| == |b| < 0x8000_0000
    requires forall i :: 0 <= i < |a| && i / 16 != c ==> a[i] == b[i]
    ensures a != b ==> Hash(a, seed) != Hash(b, seed)
  {
    hide Hash, SameChunk, SameBytes;
    if Hash(a, seed) == Hash(b, seed) {
      forall d: nat | d != c ensures SameChunk(a, b, d) {
        ChunkIsBytes(a, b, d);
        BytesMean(a, b, 16 * d);
      }
      if c <= |a| / 16 {
        ChunkFromHash(a, b, seed, c);
      }
      ChunkIsBytes(a, b, c);
      BytesMean(a, b, 16 * c);
      forall i | 0 <= i < |a| ensures a[i] == b[i] {
        assert i / 16 == c ==> At(a, i) == At(b, i);
      }
    }
  }

  lemma BytesMean(a: seq<Byte>, b: seq<Byte>, lo: nat)
    ensures SameBytes(a, b, lo, 16) <==> forall i :: lo <= i < lo + 16 ==> At(a, i) == At(b, i)
  {
  }

  /** In particular no two keys of the same length up to 16 collide. */
  lemma ShortKeysNeverCollide(a: seq<Byte>, b: seq<Byte>, seed: Word)
    requires |a| == |b| <= 16
    ensures a != b ==> Hash(a, seed) != Hash(b, seed)
  {
    hide Hash;
    OneChunkNeverCollides(a, b, seed, 0);
  }

  // ---------------------------------------------------------------- the program

  /** A byte xor-ed in below the digits that are already there. */
  lemma ByteBelow(high: nat, byte: Byte, j: nat)
    ensures Xor(high * Pow2(8 * (j + 1)), byte * Pow2(8 * j)) == (256 * high + byte) * Pow2(8 * j)
  {
    hide Xor, Pow2;
    var p := Pow2(8 * j);
    Pow2Of8();
    Pow2Adds(8, 8 * j);
    assert 8 + 8 * j == 8 * (j + 1);
    assert high * (256 * p) == 256 * high * p;
    XorZero(0);
    XorZero(high);
    XorCommutes(0, byte);
    XorZero(byte);
    XorSplit(256 * high, 0, byte, 0, 8 * j);
    XorSplit(high, 0, 0, byte, 8);
  }

  lemma ByteShift(byte: Byte, j: nat)
    requires j < 8
    ensures byte * Pow2(8 * j) < RANGE
  {
    hide Pow2;
    Pow2Of64();
    Pow2Of8();
    Pow2Adds(8, 8 * j);
    assert 8 + 8 * j == 8 * (j + 1);
    Pow2Monotone(8 * (j + 1), 64);
    MulMonotone(byte, 256, Pow2(8 * j));
  }

  lemma NextByte(t: seq<Byte>, lo: nat, j: nat)
    requires j < 8
    ensures var k := LittleEndian(t, lo + j + 1, 7 - j) * Pow2(8 * (j + 1));
      if lo + j < |t| then
        t[lo + j] * Pow2(8 * j) < RANGE &&
        Xor(k, t[lo + j] * Pow2(8 * j)) == LittleEndian(t, lo + j, 8 - j) * Pow2(8 * j)
      else k == 0 == LittleEndian(t, lo + j, 8 - j)
  {
    hide Xor, Pow2;
    var high := LittleEndian(t, lo + j + 1, 7 - j);
    assert LittleEndian(t, lo + j, 8 - j) == 256 * high + At(t, lo + j);
    if lo + j < |t| {
      ByteShift(t[lo + j], j);
      ByteBelow(high, t[lo + j], j);
    } else {
      NoBytes(t, lo + j + 1, 7 - j);
    }
  }

  /** One word of the tail: the cases of the switch fall through from the last byte down to `lo`
      (312-330). */
  method TailWord(tail: seq<Byte>, lo: nat) returns (k: Word)
    ensures k == WordAt(tail, lo)
  {
    hide LittleEndian, Xor;
    k := 0;
    NothingYet(tail, lo + 8);
    for j := 8 downto 0
      invariant k == LittleEndian(tail, lo + j, 8 - j) * Pow2(8 * j)
    {
      hide Pow2;
      NextByte(tail, lo, j);
      if lo + j < |tail| {
        k := Xor64(k, tail[lo + j] * Pow2(8 * j));
      }
    }
  }

  lemma NothingYet(t: seq<Byte>, lo: nat)
    ensures LittleEndian(t, lo, 0) == 0
  {
  }

  /** The words of the tail are those of the chunk after the last whole block. */
  lemma TailIsChunk(key: seq<Byte>, n: nat)
    requires 16 * n <= |key|
    ensures WordAt(key[16 * n..], 0) == WordAt(key, 16 * n) && WordAt(key[16 * n..], 8) == WordAt(key, 16 * n + 8)
  {
    hide LittleEndian;
    Dropped(key, 16 * n, 0, 8);
    Dropped(key, 16 * n, 8, 8);
  }

  lemma {:induction false} Dropped(key: seq<Byte>, d: nat, lo: nat, m: nat)
    requires d <= |key|
    ensures LittleEndian(key[d..], lo, m) == LittleEndian(key, d + lo, m)
    decreases m
  {
    if m > 0 {
      Dropped(key, d, lo + 1, m - 1);
    }
  }

  method MurmurHash3x64128(key: seq<Byte>, seed: Word, out: array<Word>)
    requires |key| < 0x8000_0000 && out.Length >= 2
    modifies out
    ensures out[0] == Hash(key, seed).h1 && out[1] == Hash(key, seed).h2
    ensures forall i :: 2 <= i < out.Length ==> out[i] == old(out[i])
  {
    hide LittleEndian, WordAt, Mix1, Mix2, Turn, Fmix64, Xor64, Plus;
    var nblocks := |key| / 16;
    var h1, h2 := seed, seed;
    for i := 0 to nblocks
      invariant Pair(h1, h2) == Body(key, seed, i)
    {
      var k1, k2 := WordAt(key, 16 * i), WordAt(key, 16 * i + 8);
      k1 := Mix1(k1);
      h1 := Xor64(h1, k1);
      h1 := Turn(h1, 27, h2, 0x52dce729);
      k2 := Mix2(k2);
      h2 := Xor64(h2, k2);
      h2 := Turn(h2, 31, h1, 0x38495ab5);
    }
    var tail := key[16 * nblocks..];
    TailIsChunk(key, nblocks);
    if |tail| >= 9 {
      var k2 := TailWord(tail, 8);
      h2 := Xor64(h2, Mix2(k2));
    }
    if |tail| >= 1 {
      var k1 := TailWord(tail, 0);
      h1 := Xor64(h1, Mix1(k1));
    }
    h1, h2 := Xor64(h1, |key|), Xor64(h2, |key|);
    h1 := Plus(h1, h2);
    h2 := Plus(h2, h1);
    h1, h2 := Fmix64(h1), Fmix64(h2);
    h1 := Plus(h1, h2);
    h2 := Plus(h2, h1);
    out[0] := h1;
    out[1] := h2;
  }
}
