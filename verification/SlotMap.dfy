/** Capacities and slot indices of src/util/atomic_queue/atomic_queue.h: `round_up_to_power_of_2`
    (93-115), `remap_index` (59-72) and the slot of a ticket (532-549).  `unsigned` is 32 bits wide. */
module SlotMap {
  import opened Bits

  const UINT32: nat := 0x1_0000_0000

  // ---------------------------------------------------------------- round_up_to_power_of_2

  function OrEqual(x: nat, u: nat): nat {
    Or(x, Shr(x, u))
  }

  /** `or_equal` with several shifts applies them one after the other. */
  function OrEquals(x: nat, shifts: seq<nat>): nat
    decreases |shifts|
  {
    if shifts == [] then x else OrEquals(OrEqual(x, shifts[0]), shifts[1..])
  }

  /** `increment(or_equal(decrement(a), 1, 2, 4, 8, 16))`. */
  function RoundUpToPowerOf2(a: nat): nat {
    (OrEquals((a - 1) % UINT32, [1, 2, 4, 8, 16]) + 1) % UINT32
  }

  lemma {:induction false} OnesShifted(w: nat, d: nat)
    requires d <= w
    ensures Shr(Pow2(w) - 1, d) == Pow2(w - d) - 1
  {
    if d > 0 {
      OnesShifted(w - 1, d - 1);
    }
  }

  /** w ones over r more digits, or-ed with r ones. */
  lemma {:induction false} OnesOverOnes(x: nat, w: nat, r: nat)
    requires Shr(x, r) == Pow2(w) - 1
    ensures Or(x, Pow2(r) - 1) == Pow2(w + r) - 1
  {
    if r == 0 {
      OrZero(x);
    } else {
      OnesOverOnes(x / 2, w, r - 1);
      OrUnfold(x, Pow2(r) - 1);
    }
  }

  /** The `w` digits above the lowest `r` are ones, and there are no others above them. */
  predicate TopOnes(x: nat, w: nat, r: nat) {
    Shr(x, r) == Pow2(w) - 1
  }

  /** One round doubles the ones, as far as there are digits. */
  lemma Smear(x: nat, w: nat, r: nat, u: nat)
    requires TopOnes(x, w, r) && (u == w || (r == 0 && u >= w))
    ensures r >= w ==> TopOnes(OrEqual(x, u), 2 * w, r - w)
    ensures r < w ==> TopOnes(OrEqual(x, u), w + r, 0)
  {
    if r == 0 {
      Pow2Monotone(w, u);
      ShrZero(x, u);
      OrZero(x);
    } else if r >= w {
      ShrTwice(x, w, r - w);
      ShrTwice(x, r - w, w);
      ShrOr(x, Shr(x, w), r - w);
      OnesOverOnes(Shr(x, r - w), w, w);
    } else {
      ShrTwice(x, r, w - r);
      OnesShifted(w, w - r);
      OnesOverOnes(x, w, r);
    }
  }

  function Min(a: nat, b: nat): nat {
    if a < b then a else b
  }

  /** Smear for a number of m + 1 digits, the first `u` of which are ones. */
  lemma SmearRound(x: nat, m: nat, u: nat)
    requires u > 0 && TopOnes(x, Min(u, m + 1), m + 1 - Min(u, m + 1))
    ensures TopOnes(OrEqual(x, u), Min(2 * u, m + 1), m + 1 - Min(2 * u, m + 1))
  {
    Smear(x, Min(u, m + 1), m + 1 - Min(u, m + 1), u);
  }

  /** The number of binary digits of `x`, less one. */
  lemma {:induction false} TopDigit(x: nat) returns (m: nat)
    requires 0 < x < UINT32
    ensures Pow2(m) <= x < Pow2(m + 1) && m < 32
  {
    m := 0;
    while Pow2(m + 1) <= x
      invariant Pow2(m) <= x
      decreases x - Pow2(m)
    {
      m := m + 1;
    }
    if m >= 32 {
      Pow2Monotone(32, m);
      Pow2Of32();
    }
  }

  lemma Pow2Of32()
    ensures Pow2(32) == UINT32 && Pow2(31) == 0x8000_0000
  {
    Pow2Adds(16, 16);
    Pow2Adds(8, 8);
    assert Pow2(8) == 256;
  }

  /** From `u` ones on, the remaining rounds fill all digits. */
  lemma {:induction false} RemainingRounds(x: nat, m: nat, u: nat, shifts: seq<nat>)
    requires u > 0 && TopOnes(x, Min(u, m + 1), m + 1 - Min(u, m + 1))
    requires (shifts == [] && u > m) || (shifts != [] && shifts[0] == u)
    requires forall i :: 0 < i < |shifts| ==> shifts[i] == 2 * shifts[i - 1]
    requires shifts != [] ==> 2 * shifts[|shifts| - 1] > m
    ensures OrEquals(x, shifts) == Pow2(m + 1) - 1
    decreases |shifts|
  {
    if shifts != [] {
      SmearRound(x, m, u);
      assert |shifts| > 1 ==> shifts[1..][|shifts| - 2] == shifts[|shifts| - 1];
      RemainingRounds(OrEqual(x, u), m, 2 * u, shifts[1..]);
    }
  }

  lemma AllRounds(x: nat, m: nat)
    requires Pow2(m) <= x < Pow2(m + 1) && m < 32
    ensures OrEquals(x, [1, 2, 4, 8, 16]) == Pow2(m + 1) - 1
  {
    Quotient(x, 1, x - Pow2(m), Pow2(m));
    ShrIs(x, m);
    RemainingRounds(x, m, 1, [1, 2, 4, 8, 16]);
  }

  predicate IsLeastPower(p: nat, k: nat, a: nat) {
    p == Pow2(k) && a <= p && (k > 0 ==> Pow2(k - 1) < a)
  }

  lemma LeastPower(p: nat, k: nat, a: nat, j: nat)
    requires IsLeastPower(p, k, a) && a <= Pow2(j)
    ensures k <= j
  {
    if j < k {
      Pow2Monotone(j, k - 1);
    }
  }

  lemma RoundUpAbove1(a: nat) returns (k: nat)
    requires a < UINT32 && a != 1
    ensures 1 <= a <= 0x8000_0000 ==> k < 32 && IsLeastPower(RoundUpToPowerOf2(a), k, a)
    ensures a == 0 || a > 0x8000_0000 ==> RoundUpToPowerOf2(a) == 0
  {
    hide IsLeastPower, OrEquals, Pow2;
    var x := (a - 1) % UINT32;
    var m := TopDigit(x);
    AllRounds(x, m);
    Incremented(a, m, OrEquals(x, [1, 2, 4, 8, 16]));
    k := m + 1;
  }

  lemma Incremented(a: nat, m: nat, ones: nat)
    requires a < UINT32 && a != 1 && Pow2(m) <= (a - 1) % UINT32 < Pow2(m + 1) && m < 32 && ones == Pow2(m + 1) - 1
    ensures 1 <= a <= 0x8000_0000 ==> m + 1 < 32 && IsLeastPower((ones + 1) % UINT32, m + 1, a)
    ensures a == 0 || a > 0x8000_0000 ==> (ones + 1) % UINT32 == 0
  {
    Pow2Of32();
    assert (a - 1) % UINT32 == if a == 0 then UINT32 - 1 else a - 1;
    if m < 31 {
      Pow2Monotone(m + 1, 31);
    }
  }

  lemma {:induction false} ZeroStaysZero(shifts: seq<nat>)
    ensures OrEquals(0, shifts) == 0
    decreases |shifts|
  {
    if shifts != [] {
      ShrZero(0, shifts[0]);
      ZeroStaysZero(shifts[1..]);
    }
  }

  lemma RoundedExponent(a: nat) returns (k: nat)
    requires 1 <= a <= 0x8000_0000
    ensures k < 32 && IsLeastPower(RoundUpToPowerOf2(a), k, a)
  {
    if a == 1 {
      ZeroStaysZero([1, 2, 4, 8, 16]);
      k := 0;
    } else {
      k := RoundUpAbove1(a);
    }
  }

  /** For 1 to 2^31 the result is the least power of two not below the argument; for any other
      32-bit argument it is 0. */
  lemma RoundUpIsLeastPower(a: nat)
    requires a < UINT32
    ensures 1 <= a <= 0x8000_0000 ==>
      exists k :: k < 32 && RoundUpToPowerOf2(a) == Pow2(k) && a <= Pow2(k) && forall j :: a <= Pow2(j) ==> k <= j
    ensures a == 0 || a > 0x8000_0000 ==> RoundUpToPowerOf2(a) == 0
  {
    if 1 <= a <= 0x8000_0000 {
      var k := RoundedExponent(a);
      forall j | a <= Pow2(j) ensures k <= j {
        LeastPower(RoundUpToPowerOf2(a), k, a, j);
      }
    } else {
      var _ := RoundUpAbove1(a);
    }
  }

  // ---------------------------------------------------------------- remap_index

  function RemapIndexWithMix(bits: nat, index: nat, mix: nat): nat {
    Xor(Xor(index, mix), mix * Pow2(bits) % UINT32)
  }

  function RemapIndex(bits: nat, index: nat): nat {
    if bits == 0 then index
    else RemapIndexWithMix(bits, index, And(Xor(index, Shr(index, bits)), Pow2(bits) - 1))
  }

  /** An index made of three groups of digits. */
  function Compose(bits: nat, high: nat, mid: nat, low: nat): nat {
    Append(Append(high, mid, bits), low, bits)
  }

  /** The shift `mix << BITS` loses no digit. */
  lemma ShiftFits(bits: nat, mix: nat)
    requires 2 * bits <= 32 && mix < Pow2(bits)
    ensures mix * Pow2(bits) % UINT32 == Append(mix, 0, bits)
  {
    hide Append, Pow2;
    AppendIs(mix, 0, bits);
    AppendBelow(mix, 0, bits, bits);
    Pow2Monotone(2 * bits, 32);
    Pow2Of32();
  }

  lemma XorAround(a: nat, b: nat)
    ensures Xor(a, Xor(a, b)) == b && Xor(b, Xor(a, b)) == a
  {
    XorCommutes(a, b);
    XorCommutes(a, Xor(a, b));
    XorCommutes(b, Xor(a, b));
    XorCancels(a, b);
    XorCancels(b, a);
  }

  /** The mix of the two groups that change places. */
  lemma MixIs(bits: nat, high: nat, mid: nat, low: nat)
    requires mid < Pow2(bits) && low < Pow2(bits)
    ensures var index := Compose(bits, high, mid, low);
      And(Xor(index, Shr(index, bits)), Pow2(bits) - 1) == Xor(low, mid) < Pow2(bits)
  {
    var upper := Append(high, mid, bits);
    ShrAppend(upper, low, bits);
    XorAppend(upper, low, high, mid, bits);
    XorBound(low, mid, bits);
    MaskAppend(Xor(upper, high), Xor(low, mid), bits);
  }

  /** Xor-ing a number below 2^bits into the lowest group. */
  lemma XorLow(bits: nat, a: nat, b: nat, mix: nat)
    requires mix < Pow2(bits)
    ensures Xor(Append(a, b, bits), mix) == Append(a, Xor(b, mix), bits)
  {
    AppendIs(0, mix, bits);
    XorAppend(a, b, 0, mix, bits);
    XorZero(a);
  }

  /** `remap_index` swaps the lowest `bits` digits with the next `bits`. */
  lemma RemapSwaps(bits: nat, high: nat, mid: nat, low: nat)
    requires 2 * bits <= 32 && mid < Pow2(bits) && low < Pow2(bits)
    ensures RemapIndex(bits, Compose(bits, high, mid, low)) == Compose(bits, high, low, mid)
  {
    var upper, mix := Append(high, mid, bits), Xor(low, mid);
    MixIs(bits, high, mid, low);
    ShiftFits(bits, mix);
    XorAround(low, mid);
    XorLow(bits, upper, low, mix);
    XorAppend(upper, mid, mix, 0, bits);
    XorZero(mid);
    XorLow(bits, high, mid, mix);
  }

  lemma Decompose(bits: nat, index: nat) returns (high: nat, mid: nat, low: nat)
    ensures index == Compose(bits, high, mid, low) && mid < Pow2(bits) && low < Pow2(bits)
  {
    Rejoin(index, bits);
    Rejoin(Shr(index, bits), bits);
    high, mid := Shr(Shr(index, bits), bits), And(Shr(index, bits), Pow2(bits) - 1);
    low := And(index, Pow2(bits) - 1);
  }

  lemma ComposeBelow(bits: nat, high: nat, mid: nat, low: nat, k: nat)
    requires 2 * bits <= k && mid < Pow2(bits) && low < Pow2(bits)
    ensures Compose(bits, high, mid, low) < Pow2(k) <==> high < Pow2(k - 2 * bits)
  {
    AppendBelow(Append(high, mid, bits), low, bits, k - bits);
    AppendBelow(high, mid, bits, k - 2 * bits);
  }

  /** It undoes itself and permutes the indices below any power of two from 2^(2 bits) on. */
  lemma RemapIsPermutation(bits: nat, index: nat, k: nat)
    requires 2 * bits <= 32 && 2 * bits <= k
    ensures RemapIndex(bits, RemapIndex(bits, index)) == index
    ensures index < Pow2(k) <==> RemapIndex(bits, index) < Pow2(k)
  {
    var high, mid, low := Decompose(bits, index);
    var swapped := Compose(bits, high, low, mid);
    assert RemapIndex(bits, index) == swapped by {
      RemapSwaps(bits, high, mid, low);
    }
    assert RemapIndex(bits, swapped) == index by {
      RemapSwaps(bits, high, low, mid);
    }
    ComposeBelow(bits, high, mid, low, k);
    ComposeBelow(bits, high, low, mid, k);
  }

  // ---------------------------------------------------------------- slots

  /** `size_` of a queue made for `size` elements (549). */
  function Capacity(bits: nat, size: nat): nat {
    if RoundUpToPowerOf2(size) < Pow2(2 * bits) then Pow2(2 * bits) else RoundUpToPowerOf2(size)
  }

  /** Whatever size is asked for, the capacity is a power of two for which remapping is a permutation, and
      the least one that is large enough. */
  lemma CapacityIsPower(bits: nat, size: nat) returns (k: nat)
    requires 2 * bits <= 31 && size < UINT32
    ensures 2 * bits <= k < 32 && Capacity(bits, size) == Pow2(k)
    ensures size <= 0x8000_0000 ==>
      Capacity(bits, size) >= size && forall j :: 2 * bits <= j && size <= Pow2(j) ==> k <= j
  {
    hide RoundUpToPowerOf2;
    k := 2 * bits;
    if 1 <= size <= 0x8000_0000 {
      var m := RoundedExponent(size);
      if Pow2(m) >= Pow2(2 * bits) {
        k := m;
        if m < 2 * bits {
          Pow2Monotone(m, 2 * bits - 1);
        }
        forall j | size <= Pow2(j) ensures m <= j {
          LeastPower(RoundUpToPowerOf2(size), m, size, j);
        }
      }
    } else {
      var _ := RoundUpAbove1(size);
    }
  }

  /** A size up to the minimum gets the minimum. */
  lemma SmallSizeGetsMinimum(bits: nat, size: nat)
    requires 2 * bits <= 31 && size <= Pow2(2 * bits)
    ensures Capacity(bits, size) == Pow2(2 * bits)
  {
    Pow2Of32();
    Pow2Monotone(2 * bits, 31);
    if size >= 1 {
      var k := RoundedExponent(size);
      LeastPower(RoundUpToPowerOf2(size), k, size, 2 * bits);
      Pow2Monotone(k, 2 * bits);
    } else {
      var _ := RoundUpAbove1(size);
    }
  }

  /** The slot of a ticket (533, 539): tickets are the 32-bit values of `head_` and `tail_`. */
  function Slot(bits: nat, size: nat, ticket: nat): nat
    requires size > 0
  {
    RemapIndex(bits, And(ticket, size - 1))
  }

  /** The slot of the i-th push or pop, whose ticket is i modulo 2^32. */
  function SlotOf(bits: nat, size: nat, i: nat): nat
    requires size > 0
  {
    Slot(bits, size, i % UINT32)
  }

  lemma ModuloModulo(i: nat, k: nat)
    requires k <= 32
    ensures i % UINT32 % Pow2(k) == i % Pow2(k)
  {
    Pow2Adds(32 - k, k);
    Pow2Of32();
    RemainderOfRemainder(i, Pow2(32 - k), Pow2(k));
  }

  lemma RemainderOfRemainder(i: nat, n: nat, m: nat)
    requires n > 0 && m > 0
    ensures n * m > 0 && i % (n * m) % m == i % m
  {
    AtLeast(n, m);
    var q, r := i / (n * m), i % (n * m);
    DivMod(i, n * m);
    DivMod(r, m);
    Regroup(q, n, m, r / m, r % m);
    Quotient(i, q * n + r / m, r % m, m);
  }

  lemma Regroup(q: nat, n: nat, m: nat, a: nat, b: nat)
    ensures q * (n * m) + (a * m + b) == (q * n + a) * m + b
  {
  }

  lemma CloseRemaindersDiffer(i: nat, j: nat, m: nat)
    requires i < j < i + m
    ensures i % m != j % m
  {
    if i % m == j % m {
      var d := j / m - i / m;
      assert j - i == d * m;
      if d >= 1 {
        AtLeast(d, m);
      } else {
        MulMonotone(d, 0, m);
      }
    }
  }

  /** Wrapping the ticket counter does not move slots. */
  lemma SlotIs(bits: nat, k: nat, i: nat)
    requires k <= 32
    ensures SlotOf(bits, Pow2(k), i) == RemapIndex(bits, i % Pow2(k))
  {
    hide RemapIndex, Pow2;
    AndMask(i % UINT32, k);
    ModuloModulo(i, k);
  }

  lemma AddModulus(i: nat, m: nat)
    requires m > 0
    ensures (i + m) % m == i % m
  {
    DivMod(i, m);
    Quotient(i + m, i / m + 1, i % m, m);
  }

  /** After `size` tickets the slots come round again. */
  lemma SlotsComeRound(bits: nat, k: nat, i: nat)
    requires k <= 32
    ensures SlotOf(bits, Pow2(k), i + Pow2(k)) == SlotOf(bits, Pow2(k), i)
  {
    hide SlotOf, RemapIndex, Pow2;
    SlotIs(bits, k, i);
    SlotIs(bits, k, i + Pow2(k));
    AddModulus(i, Pow2(k));
  }

  /** Slots stay inside the arrays, and any `size` consecutive tickets have different slots, also
      where the ticket counters wrap around. */
  lemma SlotsAreDistinct(bits: nat, k: nat, i: nat, j: nat)
    requires 2 * bits <= k <= 32
    ensures SlotOf(bits, Pow2(k), i) < Pow2(k)
    ensures i < j < i + Pow2(k) ==> SlotOf(bits, Pow2(k), i) != SlotOf(bits, Pow2(k), j)
  {
    SlotIs(bits, k, i);
    SlotIs(bits, k, j);
    RemapIsPermutation(bits, i % Pow2(k), k);
    RemapIsPermutation(bits, j % Pow2(k), k);
    if i < j < i + Pow2(k) {
      CloseRemaindersDiffer(i, j, Pow2(k));
    }
  }
}
