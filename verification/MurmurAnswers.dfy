/** Known answers of MurmurHash3_x64_128 (src/util/MurMurHash3.cpp:275-352), and the arithmetic by which
    they follow step by step: a product is known with the multiple of 2^64 it is less, a rotation with the
    digits it swaps, and an exclusive or byte by byte. */
module MurmurAnswers {
  import opened Bits
  import opened Murmur

  // ---------------------------------------------------------------- exclusive or by bytes

  /** The number that a byte is, and the exclusive or of two bytes. */
  function Value(u: bv8): (r: nat)
    ensures r < 256
  {
    u as nat
  }

  function Xor8(u: bv8, v: bv8): bv8 {
    u ^ v
  }

  lemma Halve(u: bv8)
    ensures Value(u & 1) == Value(u) % 2 && Value(u >> 1) == Value(u) / 2
  {
  }

  lemma HalveXor(u: bv8, v: bv8)
    ensures Xor8(u, v) >> 1 == Xor8(u >> 1, v >> 1)
    ensures Value(Xor8(u, v) & 1) == if Value(u & 1) != Value(v & 1) then 1 else 0
  {
    assert (u ^ v) & 1 == if u & 1 == v & 1 then 0 else 1;
    assert u & 1 == 0 || u & 1 == 1;
    assert v & 1 == 0 || v & 1 == 1;
  }

  lemma NoDigits(u: bv8, v: bv8)
    requires Value(u) == Value(v) == 0
    ensures Value(Xor8(u, v)) == 0
  {
  }

  lemma {:induction false} ByteXor(u: bv8, v: bv8)
    ensures Xor(Value(u), Value(v)) == Value(Xor8(u, v))
    decreases Value(u) + Value(v)
  {
    hide Xor, Value, Xor8;
    XorUnfold(Value(u), Value(v));
    Halve(u);
    Halve(v);
    Halve(Xor8(u, v));
    HalveXor(u, v);
    if Value(u) + Value(v) > 0 {
      ByteXor(u >> 1, v >> 1);
    } else {
      XorZero(0);
      NoDigits(u, v);
    }
  }

  function FourBytes(a: bv8, b: bv8, c: bv8, d: bv8): nat {
    ((Value(a) * 0x100 + Value(b)) * 0x100 + Value(c)) * 0x100 + Value(d)
  }

  lemma Pow2Of32()
    ensures Pow2(32) == 0x1_0000_0000
  {
    hide Pow2;
    Pow2Of8();
    Pow2Adds(8, 8);
    Pow2Adds(16, 16);
  }

  /** Digits in front of digits. */
  lemma XorJoins(a: nat, u: bv8, b: nat, v: bv8)
    ensures Xor(a * 0x100 + Value(u), b * 0x100 + Value(v)) == Xor(a, b) * 0x100 + Value(Xor8(u, v))
  {
    hide Xor, Value, Pow2, Xor8;
    Pow2Of8();
    ByteXor(u, v);
    XorSplit(a, Value(u), b, Value(v), 8);
  }

  lemma HalvesJoin(a: nat, b: nat, c: nat, d: nat)
    requires b < 0x1_0000_0000 && d < 0x1_0000_0000
    ensures Xor(a * 0x1_0000_0000 + b, c * 0x1_0000_0000 + d) == Xor(a, c) * 0x1_0000_0000 + Xor(b, d)
  {
    hide Xor, Pow2;
    Pow2Of32();
    XorSplit(a, b, c, d, 32);
  }

  lemma FourBytesXor(a: bv8, b: bv8, c: bv8, d: bv8, a': bv8, b': bv8, c': bv8, d': bv8)
    ensures Xor(FourBytes(a, b, c, d), FourBytes(a', b', c', d'))
         == FourBytes(Xor8(a, a'), Xor8(b, b'), Xor8(c, c'), Xor8(d, d'))
  {
    hide Xor, Value, Xor8;
    ByteXor(a, a');
    XorJoins(Value(a), b, Value(a'), b');
    XorJoins(Value(a) * 0x100 + Value(b), c, Value(a') * 0x100 + Value(b'), c');
    XorJoins((Value(a) * 0x100 + Value(b)) * 0x100 + Value(c), d,
      (Value(a') * 0x100 + Value(b')) * 0x100 + Value(c'), d');
  }

  lemma FourBytesBound(a: bv8, b: bv8, c: bv8, d: bv8)
    ensures FourBytes(a, b, c, d) < 0x1_0000_0000
  {
    hide Value;
  }

  /** The exclusive or where only the low half of one of the words is not zero. */
  lemma LowXor(hi: nat, a: bv8, b: bv8, c: bv8, d: bv8, a': bv8, b': bv8, c': bv8, d': bv8)
    ensures Xor(hi * 0x1_0000_0000 + FourBytes(a, b, c, d), FourBytes(a', b', c', d'))
         == hi * 0x1_0000_0000 + FourBytes(Xor8(a, a'), Xor8(b, b'), Xor8(c, c'), Xor8(d, d'))
  {
    hide Xor, FourBytes, Xor8;
    FourBytesXor(a, b, c, d, a', b', c', d');
    FourBytesBound(a, b, c, d);
    FourBytesBound(a', b', c', d');
    HalvesJoin(hi, FourBytes(a, b, c, d), 0, FourBytes(a', b', c', d'));
    XorZero(hi);
  }

  // ---------------------------------------------------------------- the steps by arithmetic

  lemma Powers()
    ensures Pow2(27) == 0x800_0000 && Pow2(31) == 0x8000_0000
    ensures Pow2(33) == 0x2_0000_0000 && Pow2(37) == 0x20_0000_0000
  {
    hide Pow2;
    Pow2Of32();
    SmallPowers();
    Pow2Adds(27, 5);
    Pow2Adds(31, 1);
    Pow2Adds(32, 1);
    Pow2Adds(32, 5);
  }

  lemma SmallPowers()
    ensures Pow2(1) == 2 && Pow2(5) == 32
  {
  }

  /** A rotation puts the low digits in front of the high ones. */
  lemma RotOf(x: Word, hi: nat, lo: nat)
    ensures x == hi * 0x20_0000_0000 + lo && hi < 0x800_0000 && lo < 0x20_0000_0000 ==>
      Rot(x, 27) == lo * 0x800_0000 + hi
    ensures x == hi * 0x2_0000_0000 + lo && hi < 0x8000_0000 && lo < 0x2_0000_0000 ==>
      Rot(x, 31) == lo * 0x8000_0000 + hi
    ensures x == hi * 0x8000_0000 + lo && hi < 0x2_0000_0000 && lo < 0x8000_0000 ==>
      Rot(x, 33) == lo * 0x2_0000_0000 + hi
  {
    hide Pow2, Rotl;
    Powers();
    if x == hi * 0x20_0000_0000 + lo && hi < 0x800_0000 && lo < 0x20_0000_0000 {
      RotlSwaps(hi, lo, 27);
    }
    if x == hi * 0x2_0000_0000 + lo && hi < 0x8000_0000 && lo < 0x2_0000_0000 {
      RotlSwaps(hi, lo, 31);
    }
    if x == hi * 0x8000_0000 + lo && hi < 0x2_0000_0000 && lo < 0x8000_0000 {
      RotlSwaps(hi, lo, 33);
    }
  }

  /** A product less q times 2^64. */
  lemma TimesOf(x: Word, y: Word, q: nat, r: Word)
    requires x * y == q * 0x1_0000_0000_0000_0000 + r
    ensures Times(x, y) == r
  {
    Quotient(x * y, q, r, RANGE);
  }

  /** k times c1, of which hi and lo are the digits, is rotated and multiplied with c2; q and p count the
      multiples of 2^64. */
  lemma Mix1Of(k: Word, q: nat, hi: nat, lo: nat, p: nat, m: Word)
    requires hi < 0x8000_0000 && lo < 0x2_0000_0000
    requires k * 0x87c37b91114253d5 == q * 0x1_0000_0000_0000_0000 + (hi * 0x2_0000_0000 + lo)
    requires (lo * 0x8000_0000 + hi) * 0x4cf5ad432745937f == p * 0x1_0000_0000_0000_0000 + m
    ensures Mix1(k) == m
  {
    hide Times, Rot;
    TimesOf(k, C1, q, hi * 0x2_0000_0000 + lo);
    RotOf(hi * 0x2_0000_0000 + lo, hi, lo);
    TimesOf(lo * 0x8000_0000 + hi, C2, p, m);
  }

  lemma Mix2Of(k: Word, q: nat, hi: nat, lo: nat, p: nat, m: Word)
    requires hi < 0x2_0000_0000 && lo < 0x8000_0000
    requires k * 0x4cf5ad432745937f == q * 0x1_0000_0000_0000_0000 + (hi * 0x8000_0000 + lo)
    requires (lo * 0x2_0000_0000 + hi) * 0x87c37b91114253d5 == p * 0x1_0000_0000_0000_0000 + m
    ensures Mix2(k) == m
  {
    hide Times, Rot;
    TimesOf(k, C2, q, hi * 0x8000_0000 + lo);
    RotOf(hi * 0x8000_0000 + lo, hi, lo);
    TimesOf(lo * 0x2_0000_0000 + hi, C1, p, m);
  }

  lemma SumOf(x: Word, d: Word, c: Word, q: nat, r: Word)
    requires (x + d) * 5 + c == q * 0x1_0000_0000_0000_0000 + r
    ensures Plus(Times(Plus(x, d), 5), c) == r
  {
    var b := Plus(x, d);
    var e := Times(b, 5);
    var i, j, k := (x + d) / RANGE, b * 5 / RANGE, (e + c) / RANGE;
    Quotient((x + d) * 5 + c, q, r, RANGE);
    Quotient((x + d) * 5 + c, 5 * i + j + k, Plus(e, c), RANGE);
  }

  /** h, of which hi and lo are the digits, is rotated, added to d, and so on. */
  lemma Turn27Of(h: Word, hi: nat, lo: nat, d: Word, q: nat, r: Word)
    requires h == hi * 0x20_0000_0000 + lo && hi < 0x800_0000 && lo < 0x20_0000_0000
    requires (lo * 0x800_0000 + hi + d) * 5 + 0x52dce729 == q * 0x1_0000_0000_0000_0000 + r
    ensures Turn(h, 27, d, 0x52dce729) == r
  {
    hide Plus, Times, Rot;
    RotOf(h, hi, lo);
    SumOf(lo * 0x800_0000 + hi, d, 0x52dce729, q, r);
  }

  lemma Turn31Of(h: Word, hi: nat, lo: nat, d: Word, q: nat, r: Word)
    requires h == hi * 0x2_0000_0000 + lo && hi < 0x8000_0000 && lo < 0x2_0000_0000
    requires (lo * 0x8000_0000 + hi + d) * 5 + 0x38495ab5 == q * 0x1_0000_0000_0000_0000 + r
    ensures Turn(h, 31, d, 0x38495ab5) == r
  {
    hide Plus, Times, Rot;
    RotOf(h, hi, lo);
    SumOf(lo * 0x8000_0000 + hi, d, 0x38495ab5, q, r);
  }

  /** The high half of k, and the bytes of its low half and of the shifted k. */
  lemma ShiftXorOf(k: Word, hi: nat, a: bv8, b: bv8, c: bv8, d: bv8, a': bv8, b': bv8, c': bv8, d': bv8)
    requires k == hi * 0x1_0000_0000 + FourBytes(a, b, c, d)
    requires hi / 2 == FourBytes(a', b', c', d')
    ensures ShiftXor(k) == hi * 0x1_0000_0000 + FourBytes(Xor8(a, a'), Xor8(b, b'), Xor8(c, c'), Xor8(d, d'))
  {
    hide Shr, Pow2, Xor, FourBytes, Xor8;
    Powers();
    FourBytesBound(a, b, c, d);
    assert k / 0x2_0000_0000 == hi / 2;
    ShrBelow(k, 33);
    ShrIs(k, 33);
    LowXor(hi, a, b, c, d, a', b', c', d');
  }

  lemma WordAtIs(t: seq<Byte>, lo: nat)
    ensures WordAt(t, lo)
      == At(t, lo) + 0x100 * At(t, lo + 1) + 0x1_0000 * At(t, lo + 2) + 0x100_0000 * At(t, lo + 3)
       + 0x1_0000_0000 * At(t, lo + 4) + 0x100_0000_0000 * At(t, lo + 5) + 0x1_0000_0000_0000 * At(t, lo + 6)
       + 0x100_0000_0000_0000 * At(t, lo + 7)
  {
    hide At;
    assert LittleEndian(t, lo + 8, 0) == 0;
    assert LittleEndian(t, lo + 6, 2) == At(t, lo + 6) + 256 * At(t, lo + 7);
    assert LittleEndian(t, lo + 3, 5)
      == At(t, lo + 3) + 256 * (At(t, lo + 4) + 256 * (At(t, lo + 5) + 256 * LittleEndian(t, lo + 6, 2)));
  }

  /** The exclusive or of two words: their halves, from the highest byte on. */
  lemma XorOf(k: Word, l: Word, a: bv8, b: bv8, c: bv8, d: bv8, e: bv8, f: bv8, g: bv8, h: bv8,
              a': bv8, b': bv8, c': bv8, d': bv8, e': bv8, f': bv8, g': bv8, h': bv8)
    requires k == FourBytes(a, b, c, d) * 0x1_0000_0000 + FourBytes(e, f, g, h)
    requires l == FourBytes(a', b', c', d') * 0x1_0000_0000 + FourBytes(e', f', g', h')
    ensures Xor64(k, l)
      == FourBytes(Xor8(a, a'), Xor8(b, b'), Xor8(c, c'), Xor8(d, d')) * 0x1_0000_0000
       + FourBytes(Xor8(e, e'), Xor8(f, f'), Xor8(g, g'), Xor8(h, h'))
  {
    hide Xor, FourBytes, Xor8;
    FourBytesXor(a, b, c, d, a', b', c', d');
    FourBytesXor(e, f, g, h, e', f', g', h');
    FourBytesBound(e, f, g, h);
    FourBytesBound(e', f', g', h');
    HalvesJoin(FourBytes(a, b, c, d), FourBytes(e, f, g, h), FourBytes(a', b', c', d'), FourBytes(e', f', g', h'));
  }

  /** The same where the second word is small, with the high half and the low bytes of the first. */
  lemma SmallXorOf(k: Word, l: Word, hi: nat, a: bv8, b: bv8, c: bv8, d: bv8, a': bv8, b': bv8, c': bv8, d': bv8)
    requires k == hi * 0x1_0000_0000 + FourBytes(a, b, c, d) && l == FourBytes(a', b', c', d')
    ensures Xor64(k, l) == hi * 0x1_0000_0000 + FourBytes(Xor8(a, a'), Xor8(b, b'), Xor8(c, c'), Xor8(d, d'))
    ensures Xor64(l, k) == Xor64(k, l)
  {
    hide Xor, FourBytes, Xor8;
    LowXor(hi, a, b, c, d, a', b', c', d');
    XorCommutes(k, l);
  }

  // ---------------------------------------------------------------- the answers

  const HELLO: seq<Byte> := [0x68, 0x65, 0x6c, 0x6c, 0x6f]

  lemma HelloTail()
    ensures TailStep(Pair(0x0, 0x0), Pair(0x6f6c6c6568, 0x0), 5) == Pair(0x8c3f01c9e77511c7, 0x0)
  {
    hide Mix1, Mix2, Xor64, Pow2;
    Mix1Of(0x6f6c6c6568, 0x3b17428847, 0xbb405b9, 0x67e11788, 0xf9d41db24787841, 0x8c3f01c9e77511c7);
    SmallXorOf(0x8c3f01c9e77511c7, 0x0, 0x8c3f01c9, 0xe7, 0x75, 0x11, 0xc7, 0x00, 0x00, 0x00, 0x00);
  }

  lemma HelloFirst()
    ensures Fmix64(0x8c3f01c9e77511c7) == 0x3c92befc3acd18eb
  {
    hide ShiftXor;
    ShiftXorOf(0x8c3f01c9e77511c7, 0x8c3f01c9, 0xe7, 0x75, 0x11, 0xc7, 0x46, 0x1f, 0x80, 0xe4);
    ShiftXorOf(0x389ac4e121545d07, 0x389ac4e1, 0x21, 0x54, 0x5d, 0x07, 0x1c, 0x4d, 0x62, 0x70);
    ShiftXorOf(0x3c92befc24844795, 0x3c92befc, 0x24, 0x84, 0x47, 0x95, 0x1e, 0x49, 0x5f, 0x7e);
  }

  lemma HelloSecond()
    ensures Fmix64(0x8c3f01c9e77511cc) == 0x8f45e8b706f08217
  {
    hide ShiftXor;
    ShiftXorOf(0x8c3f01c9e77511cc, 0x8c3f01c9, 0xe7, 0x75, 0x11, 0xcc, 0x46, 0x1f, 0x80, 0xe4);
    ShiftXorOf(0x35333418c4001d08, 0x35333418, 0xc4, 0x00, 0x1d, 0x08, 0x1a, 0x99, 0x9a, 0x0c);
    ShiftXorOf(0x8f45e8b74152764c, 0x8f45e8b7, 0x41, 0x52, 0x76, 0x4c, 0x47, 0xa2, 0xf4, 0x5b);
  }

  /** The published answer for "hello". */
  lemma HelloAnswer()
    ensures Hash(HELLO, 0) == Pair(0xcbd8a7b341bd9b02, 0x5b1e906a48ae1d19)
  {
    hide Step, TailStep, Fmix64, Xor64, WordAt, Pow2;
    WordAtIs(HELLO, 0);
    WordAtIs(HELLO, 8);
    HelloTail();
    SmallXorOf(0x8c3f01c9e77511c7, 0x5, 0x8c3f01c9, 0xe7, 0x75, 0x11, 0xc7, 0x00, 0x00, 0x00, 0x05);
    SmallXorOf(0x5, 0x0, 0x0, 0x00, 0x00, 0x00, 0x05, 0x00, 0x00, 0x00, 0x00);
    HelloFirst();
    HelloSecond();
  }

  const LETTER_A: seq<Byte> := [0x61]

  lemma LetterUnseededTail()
    ensures TailStep(Pair(0x0, 0x0), Pair(0x61, 0x0), 1) == Pair(0xf49ed48e325ab585, 0x0)
  {
    hide Mix1, Mix2, Xor64, Pow2;
    Mix1Of(0x61, 0x33, 0x3888e8fb, 0x18a21c3b5, 0x3b3e21952f624ca3, 0xf49ed48e325ab585);
    SmallXorOf(0xf49ed48e325ab585, 0x0, 0xf49ed48e, 0x32, 0x5a, 0xb5, 0x85, 0x00, 0x00, 0x00, 0x00);
  }

  lemma LetterUnseededFirst()
    ensures Fmix64(0xf49ed48e325ab585) == 0x23f570839ba467b8
  {
    hide ShiftXor;
    ShiftXorOf(0xf49ed48e325ab585, 0xf49ed48e, 0x32, 0x5a, 0xb5, 0x85, 0x7a, 0x4f, 0x6a, 0x47);
    ShiftXorOf(0x941ebeb3954c465a, 0x941ebeb3, 0x95, 0x4c, 0x46, 0x5a, 0x4a, 0x0f, 0x5f, 0x59);
    ShiftXorOf(0x23f570838a5edff9, 0x23f57083, 0x8a, 0x5e, 0xdf, 0xf9, 0x11, 0xfa, 0xb8, 0x41);
  }

  lemma LetterUnseededSecond()
    ensures Fmix64(0xf49ed48e325ab586) == 0x615fe4e25ab510d1
  {
    hide ShiftXor;
    ShiftXorOf(0xf49ed48e325ab586, 0xf49ed48e, 0x32, 0x5a, 0xb5, 0x86, 0x7a, 0x4f, 0x6a, 0x47);
    ShiftXorOf(0x94cd0edba7f6b98d, 0x94cd0edb, 0xa7, 0xf6, 0xb9, 0x8d, 0x4a, 0x66, 0x87, 0x6d);
    ShiftXorOf(0x615fe4e26a1ae2a0, 0x615fe4e2, 0x6a, 0x1a, 0xe2, 0xa0, 0x30, 0xaf, 0xf2, 0x71);
  }

  /** "a" without a seed. */
  lemma LetterUnseededAnswer()
    ensures Hash(LETTER_A, 0) == Pair(0x85555565f6597889, 0xe6b53a48510e895a)
  {
    hide Step, TailStep, Fmix64, Xor64, WordAt, Pow2;
    WordAtIs(LETTER_A, 0);
    WordAtIs(LETTER_A, 8);
    LetterUnseededTail();
    SmallXorOf(0xf49ed48e325ab585, 0x1, 0xf49ed48e, 0x32, 0x5a, 0xb5, 0x85, 0x00, 0x00, 0x00, 0x01);
    SmallXorOf(0x1, 0x0, 0x0, 0x00, 0x00, 0x00, 0x01, 0x00, 0x00, 0x00, 0x00);
    LetterUnseededFirst();
    LetterUnseededSecond();
  }

  lemma LetterTail()
    ensures TailStep(Pair(0x307d, 0x307d), Pair(0x61, 0x0), 1) == Pair(0xf49ed48e325a85f8, 0x307d)
  {
    hide Mix1, Mix2, Xor64, Pow2;
    Mix1Of(0x61, 0x33, 0x3888e8fb, 0x18a21c3b5, 0x3b3e21952f624ca3, 0xf49ed48e325ab585);
    SmallXorOf(0xf49ed48e325ab585, 0x307d, 0xf49ed48e, 0x32, 0x5a, 0xb5, 0x85, 0x00, 0x00, 0x30, 0x7d);
  }

  lemma LetterFirst()
    ensures Fmix64(0xf49ed48e325ab675) == 0xdb18c2e40b194211
  {
    hide ShiftXor;
    ShiftXorOf(0xf49ed48e325ab675, 0xf49ed48e, 0x32, 0x5a, 0xb6, 0x75, 0x7a, 0x4f, 0x6a, 0x47);
    ShiftXorOf(0x11c4d761486ac0a, 0x11c4d76, 0x14, 0x86, 0xac, 0x0a, 0x00, 0x8e, 0x26, 0xbb);
    ShiftXorOf(0xdb18c2e466952363, 0xdb18c2e4, 0x66, 0x95, 0x23, 0x63, 0x6d, 0x8c, 0x61, 0x72);
  }

  lemma LetterSecond()
    ensures Fmix64(0xf49ed48e325ae6f1) == 0xac7884c82d5a314e
  {
    hide ShiftXor;
    ShiftXorOf(0xf49ed48e325ae6f1, 0xf49ed48e, 0x32, 0x5a, 0xe6, 0xf1, 0x7a, 0x4f, 0x6a, 0x47);
    ShiftXorOf(0x20477ea1b8a335be, 0x20477ea1, 0xb8, 0xa3, 0x35, 0xbe, 0x10, 0x23, 0xbf, 0x50);
    ShiftXorOf(0xac7884c87b66732a, 0xac7884c8, 0x7b, 0x66, 0x73, 0x2a, 0x56, 0x3c, 0x42, 0x64);
  }

  /** "a" with the seed of the tables (src/enclave/memtable.h:22). */
  lemma LetterAnswer()
    ensures Hash(LETTER_A, 12413) == Pair(0x879147ac3873735f, 0x3409cc7465cda4ad)
  {
    hide Step, TailStep, Fmix64, Xor64, WordAt, Pow2;
    WordAtIs(LETTER_A, 0);
    WordAtIs(LETTER_A, 8);
    LetterTail();
    SmallXorOf(0xf49ed48e325a85f8, 0x1, 0xf49ed48e, 0x32, 0x5a, 0x85, 0xf8, 0x00, 0x00, 0x00, 0x01);
    SmallXorOf(0x1, 0x307d, 0x0, 0x00, 0x00, 0x00, 0x01, 0x00, 0x00, 0x30, 0x7d);
    LetterFirst();
    LetterSecond();
  }

  /** "abcdefghijklmnopqrstuvwxyz": a block and a tail of ten bytes. */
  const ALPHABET: seq<Byte> := seq(26, i => 0x61 + i)

  lemma AlphabetMixes()
    ensures Mix1(0x6867666564636261) == 0x2c206eca25d3cf80
    ensures Mix2(0x706f6e6d6c6b6a69) == 0xb70dba9bf5861c36
  {
    hide Mix1, Mix2;
    Mix1Of(0x6867666564636261, 0x375e40274ef981e4, 0x1cbdf080, 0x18d984db5, 0x3bc3637631ef6dcc, 0x2c206eca25d3cf80);
    Mix2Of(0x706f6e6d6c6b6a69, 0x21ccfb85f6f207ef, 0x586c045e, 0x24b11517, 0x26eacd7051bf0174, 0xb70dba9bf5861c36);
  }

  lemma AlphabetFirstTurn()
    ensures Turn(0x2c206eca25d3fffd, 27, 0x307d, 0x52dce729) == 0x95e91fffe1c2eae8
  {
    hide Turn;
    Turn27Of(0x2c206eca25d3fffd, 0x1610376, 0xa25d3fffd, 0x307d, 0x1, 0x95e91fffe1c2eae8);
  }

  lemma AlphabetSecondTurn()
    ensures Turn(0xb70dba9bf5862c4b, 31, 0x95e91fffe1c2eae8, 0x38495ab5) == 0xd35d0ebceaba43be
  {
    hide Turn;
    Turn31Of(0xb70dba9bf5862c4b, 0x5b86dd4d, 0x1f5862c4b, 0x95e91fffe1c2eae8, 0x7, 0xd35d0ebceaba43be);
  }

  lemma AlphabetBlock()
    ensures Step(Pair(0x307d, 0x307d), Pair(0x6867666564636261, 0x706f6e6d6c6b6a69))
      == Pair(0x95e91fffe1c2eae8, 0xd35d0ebceaba43be)
  {
    hide Mix1, Mix2, Turn, Xor64, Pow2;
    AlphabetMixes();
    SmallXorOf(0x2c206eca25d3cf80, 0x307d, 0x2c206eca, 0x25, 0xd3, 0xcf, 0x80, 0x00, 0x00, 0x30, 0x7d);
    SmallXorOf(0xb70dba9bf5861c36, 0x307d, 0xb70dba9b, 0xf5, 0x86, 0x1c, 0x36, 0x00, 0x00, 0x30, 0x7d);
    AlphabetFirstTurn();
    AlphabetSecondTurn();
  }

  lemma AlphabetTail()
    ensures TailStep(Pair(0x95e91fffe1c2eae8, 0xd35d0ebceaba43be), Pair(0x7877767574737271, 0x7a79), 10)
      == Pair(0x93fe9bb925872bfc, 0x32d3e00746831d63)
  {
    hide Mix1, Mix2, Xor64, Pow2;
    Mix1Of(0x7877767574737271, 0x3fe2fc9cd59441e1, 0x3f2238ec, 0x1544adb05, 0x3326657c8bc60ad6, 0x6178446c445c114);
    XorOf(0x95e91fffe1c2eae8, 0x6178446c445c114, 0x95, 0xe9, 0x1f, 0xff, 0xe1, 0xc2, 0xea, 0xe8,
      0x06, 0x17, 0x84, 0x46, 0xc4, 0x45, 0xc1, 0x14);
    Mix2Of(0x7a79, 0x24d1, 0xe961cae9, 0x382d3d07, 0x3b958183f9e5c24b, 0xe18eeebbac395edd);
    XorOf(0xd35d0ebceaba43be, 0xe18eeebbac395edd, 0xd3, 0x5d, 0x0e, 0xbc, 0xea, 0xba, 0x43, 0xbe,
      0xe1, 0x8e, 0xee, 0xbb, 0xac, 0x39, 0x5e, 0xdd);
  }

  lemma AlphabetFirst()
    ensures Fmix64(0xc6d27bc06c0a495f) == 0x9cffa367a12a3959
  {
    hide ShiftXor;
    ShiftXorOf(0xc6d27bc06c0a495f, 0xc6d27bc0, 0x6c, 0x0a, 0x49, 0x5f, 0x63, 0x69, 0x3d, 0xe0);
    ShiftXorOf(0x5202edba4ce7f0f3, 0x5202edba, 0x4c, 0xe7, 0xf0, 0xf3, 0x29, 0x01, 0x76, 0xdd);
    ShiftXorOf(0x9cffa367ef55e8ea, 0x9cffa367, 0xef, 0x55, 0xe8, 0xea, 0x4e, 0x7f, 0xd1, 0xb3);
  }

  lemma AlphabetSecond()
    ensures Fmix64(0xf9a65bc7b28d66d8) == 0x733f0b0f74ac3db
  {
    hide ShiftXor;
    ShiftXorOf(0xf9a65bc7b28d66d8, 0xf9a65bc7, 0xb2, 0x8d, 0x66, 0xd8, 0x7c, 0xd3, 0x2d, 0xe3);
    ShiftXorOf(0xb117185d6c3d823f, 0xb117185d, 0x6c, 0x3d, 0x82, 0x3f, 0x58, 0x8b, 0x8c, 0x2e);
    ShiftXorOf(0x733f0b0f4d33b83, 0x733f0b0, 0xf4, 0xd3, 0x3b, 0x83, 0x03, 0x99, 0xf8, 0x58);
  }

  /** The alphabet with the seed of the tables. */
  lemma AlphabetAnswer()
    ensures Hash(ALPHABET, 12413) == Pair(0xa43394189874fd34, 0xab6784c98fbfc10f)
  {
    hide Step, TailStep, Fmix64, Xor64, WordAt, Pow2;
    WordAtIs(ALPHABET, 0);
    WordAtIs(ALPHABET, 8);
    assert Body(ALPHABET, 12413, 1) == Step(Body(ALPHABET, 12413, 0), Words(ALPHABET, 0));
    AlphabetBlock();
    WordAtIs(ALPHABET, 16);
    WordAtIs(ALPHABET, 24);
    AlphabetTail();
    SmallXorOf(0x93fe9bb925872bfc, 0x1a, 0x93fe9bb9, 0x25, 0x87, 0x2b, 0xfc, 0x00, 0x00, 0x00, 0x1a);
    SmallXorOf(0x32d3e00746831d63, 0x1a, 0x32d3e007, 0x46, 0x83, 0x1d, 0x63, 0x00, 0x00, 0x00, 0x1a);
    AlphabetFirst();
    AlphabetSecond();
  }
}
