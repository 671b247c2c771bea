/** What the producers of src/util/concurrentqueue.h compute with 64-bit indices that wrap is what the
    models compute with naturals.  Block sizes and index capacities are powers of two, so they divide
    the range of an index; nothing else about them is needed. */
module WrappedIndices {
  import opened Bits
  import opened BlockIndexes
  import BS = BlockStorage
  import OD = OptimisticDequeue

  const RANGE: nat := OD.RANGE

  lemma ModMod(x: int, m: nat, c: nat)
    requires c > 0 && m > 0 && m % c == 0
    ensures x % m % c == x % c
  {
    var q, d := x / m, m / c;
    DivMod(m, c);
    var r := x % m;
    assert x == q * (d * c) + r;
    assert q * (d * c) == (q * d) * c;
    Quotient(x, q * d + r / c, r % c, c);
  }

  lemma AddMod(x: int, y: int, m: nat)
    requires m > 0
    ensures (x % m + y) % m == (x + y) % m
  {
    var r := x % m + y;
    Quotient(x + y, x / m + r / m, r % m, m);
  }

  lemma SubMod(x: int, y: int, m: nat)
    requires m > 0
    ensures (x % m - y % m) % m == (x - y) % m
  {
    AddMod(x, -(y % m), m);
    var r := x - y;
    assert x - y % m == r + y / m * m;
    Quotient(x - y % m, r / m + y / m, r % m, m);
  }

  /** Masking off the offset in the block commutes with wrapping. */
  lemma DownMod(x: int, b: nat)
    requires b > 0 && RANGE % b == 0
    ensures x % RANGE - x % RANGE % b == (x - x % b) % RANGE
  {
    ModMod(x, RANGE, b);
    var r := x % RANGE;
    assert x - x % b == x / RANGE * RANGE + (r - r % b);
    DivMod(r, b);
    Quotient(x - x % b, x / RANGE, r - r % b, RANGE);
  }

  // ---------------------------------------------------------------- the lookup

  /** The difference of two indices as a signed number. */
  function SignedDiff(x: nat, y: nat): int {
    var d := (x - y) % RANGE;
    if d >= RANGE / 2 then d - RANGE else d
  }

  /** Division that truncates toward zero. */
  function Truncated(a: int, b: nat): int
    requires b > 0
  {
    if a >= 0 then a / b else -((-a) / b)
  }

  lemma DiffAgrees(x: int, y: int)
    requires -(RANGE / 2) <= x - y < RANGE / 2
    ensures SignedDiff(x % RANGE, y % RANGE) == x - y
  {
    SubMod(x, y, RANGE);
    if x - y >= 0 {
      Quotient(x - y, 0, x - y, RANGE);
    } else {
      Quotient(x - y, -1, x - y + RANGE, RANGE);
    }
  }

  lemma TruncatedExact(q: int, b: nat)
    requires b > 0
    ensures Truncated(q * b, b) == q
  {
    if q >= 0 {
      Quotient(q * b, q, 0, b);
    } else {
      assert -(q * b) == -q * b;
      AtLeast(-q, b);
      Quotient(-q * b, -q, 0, b);
    }
  }

  /** get_block_index_index_for_index, and the same lines of ExplicitProducer::dequeue. */
  function WrappedLookup(tail: nat, tailBase: nat, index: nat, b: nat, cap: nat): int
    requires b > 0 && cap > 0
  {
    var base := index - index % b;
    var offset := Truncated(SignedDiff(base, tailBase), b) % RANGE;
    (tail + offset) % RANGE % cap
  }

  lemma OffsetAgrees(tail: nat, base: int, key: int, q: int, b: nat, cap: nat)
    requires b > 0 && cap > 0 && RANGE % cap == 0
    requires base - key == q * b && -(RANGE / 2) <= base - key < RANGE / 2
    ensures (tail + Truncated(SignedDiff(base % RANGE, key % RANGE), b) % RANGE) % RANGE % cap == (tail + q) % cap
  {
    DiffAgrees(base, key);
    TruncatedExact(q, b);
    AddMod(q, tail, RANGE);
    ModMod(tail + q, RANGE, cap);
  }

  lemma WholeBlocks(b: nat, i: nat, key: nat)
    requires b > 0 && key % b == 0
    ensures i - i % b - key == (i - i % b - key) / b * b
  {
    DivMod(i, b);
    DivMod(key, b);
    assert i - i % b - key == (i / b - key / b) * b;
    Quotient((i / b - key / b) * b, i / b - key / b, 0, b);
  }

  /** As long as the ticket's block is less than half the range away from the block at the tail, on
      either side, the lookup with wrapped indices and a signed offset finds the same slot. */
  lemma WrappedLookupAgrees(ix: Index, b: nat, i: nat)
    requires Wellformed(ix) && b > 0 && RANGE % b == 0 && RANGE % |ix.entries| == 0
    requires var key := ix.entries[ix.tail].key; key % b == 0 && -(RANGE / 2) <= i - i % b - key < RANGE / 2
    ensures WrappedLookup(ix.tail, ix.entries[ix.tail].key % RANGE, i % RANGE, b, |ix.entries|) == Lookup(ix, b, i)
  {
    hide Truncated, SignedDiff;
    var key, base := ix.entries[ix.tail].key, i - i % b;
    DownMod(i, b);
    WholeBlocks(b, i, key);
    OffsetAgrees(ix.tail, base, key, (base - key) / b, b, |ix.entries|);
  }

  lemma Behind(k: nat, m: nat, b: nat)
    requires k <= m
    ensures k * b - m * b == -((m - k) * b) <= 0
  {
  }

  lemma BlockDistance(b: nat, i: nat, n: nat)
    requires b > 0 && i / b < n
    ensures i - i % b - (n - 1) * b == -((n - 1 - i / b) * b) <= 0 && (n - 1) * b % b == 0
  {
    var k, m := i / b, n - 1;
    DivMod(i, b);
    assert i - i % b == k * b;
    Behind(k, m, b);
    Quotient(m * b, m, 0, b);
  }

  /** The lookup theorem on wrapped indices: every ticket whose element is not yet taken finds its entry
      and its element, as long as no block in use lies more than half the range behind the last one. */
  lemma WrappedUntakenIsFound<T>(b: nat, s: BS.State<T>, i: nat)
    requires b > 0 && s.index.entries != [] && RANGE % b == 0 && RANGE % |s.index.entries| == 0
    requires BS.Inv(b, s) && i < s.tail && i !in s.done
    requires forall k <- s.held :: (s.n - 1 - k) * b <= RANGE / 2
    ensures Wellformed(s.index)
    ensures var ix := s.index;
      var slot := WrappedLookup(ix.tail, ix.entries[ix.tail].key % RANGE, i % RANGE, b, |ix.entries|);
      0 <= slot < |ix.entries| && var e := ix.entries[slot];
      e.key == i / b * b && e.value.Some? && (e.value.value, i % b) in s.cells &&
        s.cells[(e.value.value, i % b)] == s.log[i]
  {
    hide BS.Inv, WrappedLookup;
    BS.UntakenIsHeld(b, s, i);
    BS.UntakenIsFound(b, s, i);
    BlockDistance(b, i, s.n);
    WrappedLookupAgrees(s.index, b, i);
  }

  /** That is so whenever the entries of the index cover at most half the range. */
  lemma HalfRangeSuffices<T>(b: nat, s: BS.State<T>, k: nat)
    requires BS.Inv(b, s) && k in s.held && |s.index.entries| * b <= RANGE / 2
    ensures (s.n - 1 - k) * b <= RANGE / 2
  {
    hide BS.Filled, BS.BlocksInv, Slot;
    MulMonotone(s.n - 1 - k, |s.index.entries|, b);
  }

  // ---------------------------------------------------------------- the bulk formula and the leeway

  /** blockBaseDiff (2644), computed from a wrapped tail index. */
  function WrappedDiff(start: nat, count: nat, b: nat): int
    requires b > 0
  {
    var last, before := (start + count - 1) % RANGE, (start - 1) % RANGE;
    (last - last % b - (before - before % b)) % RANGE
  }

  lemma Multiple(p: nat, q: nat, b: nat)
    requires q <= p
    ensures (p - 1) * b - (q - 1) * b == (p - q) * b >= 0
  {
  }

  /** One block for every boundary crossed, also from index 0 and where the index wraps. */
  lemma WrappedDiffAgrees(start: nat, count: nat, b: nat)
    requires b > 0 && RANGE % b == 0 && (BS.Blocks(b, start + count) - BS.Blocks(b, start)) * b < RANGE
    ensures WrappedDiff(start % RANGE, count, b) == (BS.Blocks(b, start + count) - BS.Blocks(b, start)) * b
  {
    hide BS.Blocks, BS.RoundDown;
    var last, before := BS.RoundDown(b, start + count - 1), BS.RoundDown(b, start - 1);
    DownWraps(start, count - 1, b);
    DownWraps(start, -1, b);
    BS.BaseBefore(b, start + count);
    BS.BaseBefore(b, start);
    BS.BlocksMonotone(b, start, start + count);
    Multiple(BS.Blocks(b, start + count), BS.Blocks(b, start), b);
    SubMod(last, before, RANGE);
    Quotient(last - before, 0, last - before, RANGE);
  }

  lemma DownWraps(start: nat, d: int, b: nat)
    requires b > 0 && RANGE % b == 0
    ensures var x := (start % RANGE + d) % RANGE; x - x % b == BS.RoundDown(b, start + d) % RANGE
  {
    AddMod(start, d, RANGE);
    DownMod(start + d, b);
  }

  /** The test for leeway with wrapped indices (2496, 2660). */
  lemma WrappedLeewayAgrees(head: nat, base: nat, b: nat)
    requires head <= base && b > 0 && base + b - head < RANGE
    ensures OD.CircularLessThan(OD.Wrap(head), OD.Wrap(base + b)) <==> base + b - head < BS.HALF
  {
    OD.CircularAgrees(head, base + b);
    Quotient(base + b - head, 0, base + b - head, RANGE);
  }
}
