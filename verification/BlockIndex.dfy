/** The circular block index of an implicit producer (src/util/concurrentqueue.h:2887-3009).  Blocks
    are numbered in the order they are put to use; block number k holds the tickets k*b to k*b+b-1 for
    BLOCK_SIZE b, and its key in the index is its first ticket.  Capacities are powers of two in the
    source, so that its masks are remainders (Bits.AndMask); any capacity does here.  `held` maps the
    numbers of the blocks in use to the blocks, `n` is the number of blocks registered so far, and
    block number k belongs at the slot (k - origin) modulo the capacity. */
module BlockIndexes {
  import opened Wrappers
  import opened Bits

  /** INVALID_BLOCK_BASE: odd, so no multiple of a block size. */
  const INVALID: nat := 1

  datatype Entry = Entry(key: nat, value: Option<nat>)

  datatype Index = Index(entries: seq<Entry>, tail: int)

  type Held = map<nat, nat>

  function Slot(cap: nat, origin: int, k: int): (slot: int)
    requires cap > 0
    ensures 0 <= slot < cap
  {
    (k - origin) % cap
  }

  predicate Wellformed(ix: Index) {
    0 <= ix.tail < |ix.entries|
  }

  /** Every block in use is found at its slot, and from the oldest one on the keys are exact. */
  ghost predicate IndexInv(ix: Index, b: nat, origin: int, n: nat, held: Held) {
    && Wellformed(ix) && b >= 2
    && var cap := |ix.entries|;
    && ix.tail == Slot(cap, origin, n - 1)
    && (forall k <- held :: n - cap <= k < n && ix.entries[Slot(cap, origin, k)].value == Some(held[k]))
    && (forall h <- held, k :: h <= k < n ==> ix.entries[Slot(cap, origin, k)].key == k * b)
  }

  // ---------------------------------------------------------------- the operations

  function NewTail(ix: Index): int
    requires Wellformed(ix)
  {
    (ix.tail + 1) % |ix.entries|
  }

  /** A new entry's value is not initialised, so its key is asked first (2910-2911). */
  predicate Free(e: Entry) {
    e.key == INVALID || e.value.None?
  }

  function WithKey(ix: Index, key: nat): Index
    requires Wellformed(ix)
  {
    var t := NewTail(ix);
    Index(ix.entries[t := ix.entries[t].(key := key)], t)
  }

  function WithValue(ix: Index, slot: int, value: Option<nat>): Index
    requires 0 <= slot < |ix.entries|
  {
    ix.(entries := ix.entries[slot := ix.entries[slot].(value := value)])
  }

  function Rewound(ix: Index): Index
    requires Wellformed(ix)
  {
    ix.(tail := (ix.tail - 1) % |ix.entries|)
  }

  /** The old entries, oldest first, and as many new ones; `junk` is what the memory holds. */
  function Grown(ix: Index, junk: Option<nat>): Index
    requires Wellformed(ix)
  {
    var cap := |ix.entries|;
    Index(ix.entries[ix.tail + 1..] + ix.entries[..ix.tail + 1] + seq(cap, _ => Entry(INVALID, junk)), cap - 1)
  }

  /** The slot a lookup computes for ticket i from the key at the tail (2954-2962). */
  function Lookup(ix: Index, b: nat, i: nat): int
    requires Wellformed(ix) && b > 0
  {
    var base := i - i % b;
    (ix.tail + (base - ix.entries[ix.tail].key) / b) % |ix.entries|
  }

  // ---------------------------------------------------------------- slots

  lemma SlotShift(cap: nat, origin: int, k: int, d: int)
    requires cap > 0
    ensures (Slot(cap, origin, k) + d) % cap == Slot(cap, origin, k + d)
  {
    var x := k - origin;
    var q := (x % cap + d) / cap;
    assert x + d == (x / cap + q) * cap + (x % cap + d) % cap;
    Quotient(x + d, x / cap + q, (x % cap + d) % cap, cap);
  }

  lemma SlotsDiffer(cap: nat, origin: int, j: int, k: int)
    requires 0 < k - j < cap
    ensures Slot(cap, origin, j) != Slot(cap, origin, k)
  {
    var d := k - j;
    SlotShift(cap, origin, j, d);
    var s := Slot(cap, origin, j);
    if s + d < cap {
      Quotient(s + d, 0, s + d, cap);
    } else {
      Quotient(s + d, 1, s + d - cap, cap);
    }
  }

  lemma KeyIsValid(b: nat, k: nat)
    requires b >= 2
    ensures k * b != INVALID
  {
    if k > 0 {
      MulMonotone(1, k, b);
    }
  }

  // ---------------------------------------------------------------- lookups

  lemma OffsetInBlocks(b: nat, i: nat, m: int)
    requires b > 0
    ensures i - i % b == i / b * b && (i - i % b - m * b) / b == i / b - m
  {
    DivMod(i, b);
    assert i - i % b - m * b == (i / b - m) * b;
    Quotient((i / b - m) * b, i / b - m, 0, b);
  }

  /** The key at the tail fixes the slot of every block. */
  lemma LookupFromKey(ix: Index, b: nat, origin: int, m: int, i: nat)
    requires Wellformed(ix) && b > 0
    requires ix.tail == Slot(|ix.entries|, origin, m) && ix.entries[ix.tail].key == m * b
    ensures Lookup(ix, b, i) == Slot(|ix.entries|, origin, i / b)
  {
    OffsetInBlocks(b, i, m);
    SlotShift(|ix.entries|, origin, m, i / b - m);
  }

  /** Whatever has wrapped or grown, the lookup for a ticket of a block in use lands on that block. */
  lemma LookupLands(ix: Index, b: nat, origin: int, n: nat, held: Held, i: nat)
    requires IndexInv(ix, b, origin, n, held) && i / b in held
    ensures var k := i / b;
      && Lookup(ix, b, i) == Slot(|ix.entries|, origin, k)
      && ix.entries[Lookup(ix, b, i)] == Entry(k * b, Some(held[k]))
  {
    var k := i / b;
    assert k <= n - 1 < n;
    LookupFromKey(ix, b, origin, n - 1, i);
  }

  // ---------------------------------------------------------------- insertion and growth

  /** The slot after the tail is that of the next block. */
  lemma NewTailIsSlot(ix: Index, b: nat, origin: int, n: nat, held: Held)
    requires IndexInv(ix, b, origin, n, held)
    ensures NewTail(ix) == Slot(|ix.entries|, origin, n)
  {
    SlotShift(|ix.entries|, origin, n - 1, 1);
  }

  /** A free slot after the tail is not that of a block in use, so the window may move on. */
  lemma FreeSlotMeans(ix: Index, b: nat, origin: int, n: nat, held: Held)
    requires IndexInv(ix, b, origin, n, held) && Free(ix.entries[NewTail(ix)])
    ensures forall k <- held :: n - |ix.entries| < k
  {
    var cap := |ix.entries|;
    forall k | k in held ensures n - cap < k {
      if k == n - cap {
        NewTailIsSlot(ix, b, origin, n, held);
        SlotShift(cap, origin, k, cap);
        Quotient(Slot(cap, origin, k) + cap, 1, Slot(cap, origin, k), cap);
        assert NewTail(ix) == Slot(cap, origin, k);
        KeyIsValid(b, k);
      }
    }
  }

  /** Registering a block under the next number. */
  lemma RegisterKeepsIndex(ix: Index, b: nat, origin: int, n: nat, held: Held, block: nat)
    requires IndexInv(ix, b, origin, n, held) && Free(ix.entries[NewTail(ix)])
    ensures var ix' := WithKey(ix, n * b);
      IndexInv(WithValue(ix', ix'.tail, Some(block)), b, origin, n + 1, held[n := block])
  {
    var cap := |ix.entries|;
    NewTailIsSlot(ix, b, origin, n, held);
    FreeSlotMeans(ix, b, origin, n, held);
    forall k | n - cap < k < n ensures Slot(cap, origin, k) != Slot(cap, origin, n) {
      SlotsDiffer(cap, origin, k, n);
    }
  }

  /** If there is no block for the new key, the tail goes back and the entry is cleared. */
  lemma UndoKeepsIndex(ix: Index, b: nat, origin: int, n: nat, held: Held)
    requires IndexInv(ix, b, origin, n, held) && Free(ix.entries[NewTail(ix)])
    ensures var ix' := WithKey(ix, n * b);
      IndexInv(WithValue(Rewound(ix'), ix'.tail, None), b, origin, n, held)
  {
    var cap := |ix.entries|;
    NewTailIsSlot(ix, b, origin, n, held);
    FreeSlotMeans(ix, b, origin, n, held);
    SlotShift(cap, origin, n, -1);
    forall k | n - cap < k < n ensures Slot(cap, origin, k) != Slot(cap, origin, n) {
      SlotsDiffer(cap, origin, k, n);
    }
  }

  /** Slot i of a grown index holds the i-th oldest block number of the old window. */
  lemma GrownEntry(ix: Index, origin: int, n: nat, junk: Option<nat>, k: int)
    requires Wellformed(ix) && ix.tail == Slot(|ix.entries|, origin, n - 1) && n - |ix.entries| <= k < n
    ensures var ix' := Grown(ix, junk);
      var s := Slot(|ix'.entries|, n - |ix.entries|, k);
      s == k - (n - |ix.entries|) && ix'.entries[s] == ix.entries[Slot(|ix.entries|, origin, k)]
  {
    var cap := |ix.entries|;
    var d := k - (n - cap);
    Quotient(d, 0, d, 2 * cap);
    assert Slot(2 * cap, n - cap, k) == d;
    hide Slot;
    SlotShift(cap, origin, n - 1, d + 1 - cap);
    if ix.tail + 1 + d < cap {
      Quotient(ix.tail + d + 1 - cap, -1, ix.tail + 1 + d, cap);
    } else {
      Quotient(ix.tail + d + 1 - cap, 0, ix.tail + d + 1 - cap, cap);
    }
  }

  /** Growing keeps every block in use at its slot of the index twice the size. */
  lemma GrowKeepsIndex(ix: Index, b: nat, origin: int, n: nat, held: Held, junk: Option<nat>)
    requires IndexInv(ix, b, origin, n, held)
    ensures IndexInv(Grown(ix, junk), b, n - |ix.entries|, n, held)
    ensures Grown(ix, junk).entries[NewTail(Grown(ix, junk))].key == INVALID
  {
    var cap := |ix.entries|;
    var ix' := Grown(ix, junk);
    GrownEntry(ix, origin, n, junk, n - 1);
    forall h | h in held ensures ix'.entries[Slot(2 * cap, n - cap, h)].value == Some(held[h]) {
      GrownEntry(ix, origin, n, junk, h);
    }
    forall k: nat | k < n && exists h <- held :: h <= k
      ensures ix'.entries[Slot(2 * cap, n - cap, k)].key == k * b {
      GrownEntry(ix, origin, n, junk, k);
    }
    Quotient(cap, 0, cap, 2 * cap);
  }

  /** Clearing the entry of a block that is no longer in use. */
  lemma ReleaseKeepsIndex(ix: Index, b: nat, origin: int, n: nat, held: Held, k: nat)
    requires IndexInv(ix, b, origin, n, held) && k in held
    ensures IndexInv(WithValue(ix, Slot(|ix.entries|, origin, k), None), b, origin, n, held - {k})
  {
    var cap := |ix.entries|;
    forall j | j in held && j != k ensures Slot(cap, origin, j) != Slot(cap, origin, k) {
      if j < k {
        SlotsDiffer(cap, origin, j, k);
      } else {
        SlotsDiffer(cap, origin, k, j);
      }
    }
  }

  // ---------------------------------------------------------------- rolling a bulk insertion back

  /** The values of r blocks from number `lo` on cleared, the keys left. */
  function Cleared(entries: seq<Entry>, origin: int, lo: nat, r: nat): (cleared: seq<Entry>)
    requires entries != []
    ensures |cleared| == |entries|
  {
    if r == 0 then entries
    else
      var some := Cleared(entries, origin, lo, r - 1);
      var slot := Slot(|entries|, origin, lo + r - 1);
      some[slot := some[slot].(value := None)]
  }

  lemma {:induction false} ClearedKeepsOthers(entries: seq<Entry>, origin: int, lo: nat, r: nat, k: int)
    requires entries != [] && lo + r - |entries| <= k < lo
    ensures Cleared(entries, origin, lo, r)[Slot(|entries|, origin, k)] == entries[Slot(|entries|, origin, k)]
  {
    if r > 0 {
      ClearedKeepsOthers(entries, origin, lo, r - 1, k);
      SlotsDiffer(|entries|, origin, k, lo + r - 1);
    }
  }

  lemma {:induction false} ClearedKeepsKeys(entries: seq<Entry>, origin: int, lo: nat, r: nat, slot: nat)
    requires slot < |entries|
    ensures Cleared(entries, origin, lo, r)[slot].key == entries[slot].key
  {
    if r > 0 {
      ClearedKeepsKeys(entries, origin, lo, r - 1, slot);
    }
  }

  /** The index while a failed bulk enqueue takes back the blocks lo to n-1: r of them are cleared, the
      oldest first, and the tail has gone back as far. */
  function RollingBack(ix: Index, origin: int, lo: nat, n: nat, r: nat): Index
    requires Wellformed(ix)
  {
    Index(Cleared(ix.entries, origin, lo, r), Slot(|ix.entries|, origin, n - 1 - r))
  }

  lemma RollingBackStart(ix: Index, b: nat, origin: int, n: nat, held: Held, lo: nat)
    requires IndexInv(ix, b, origin, n, held)
    ensures RollingBack(ix, origin, lo, n, 0) == ix
  {
  }

  lemma ExactKey(ix: Index, b: nat, origin: int, n: nat, held: Held, h: nat, k: nat)
    requires IndexInv(ix, b, origin, n, held) && h in held && h <= k < n
    ensures b > 0 && Wellformed(ix) && ix.entries[Slot(|ix.entries|, origin, k)].key == k * b
  {
  }

  lemma RollingLookup(ix: Index, b: nat, origin: int, n: nat, held: Held, lo: nat, r: nat)
    requires IndexInv(ix, b, origin, n, held) && lo in held && lo + r < n
    ensures var now := RollingBack(ix, origin, lo, n, r);
      b > 0 && Wellformed(now) && Lookup(now, b, (lo + r) * b) == Slot(|ix.entries|, origin, lo + r)
  {
    hide IndexInv, Slot, Lookup, Cleared;
    var m := n - 1 - r;
    ExactKey(ix, b, origin, n, held, lo, m);
    var now := RollingBack(ix, origin, lo, n, r);
    ClearedKeepsKeys(ix.entries, origin, lo, r, now.tail);
    Quotient((lo + r) * b, lo + r, 0, b);
    LookupFromKey(now, b, origin, m, (lo + r) * b);
  }

  lemma RollingNext(ix: Index, origin: int, lo: nat, n: nat, r: nat)
    requires Wellformed(ix) && lo + r < n
    ensures Rewound(WithValue(RollingBack(ix, origin, lo, n, r), Slot(|ix.entries|, origin, lo + r), None))
         == RollingBack(ix, origin, lo, n, r + 1)
  {
    hide Slot;
    SlotShift(|ix.entries|, origin, n - 1 - r, -1);
  }

  /** The next step looks its block up from a tail that is itself still to be taken back. */
  lemma RollingBackStep(ix: Index, b: nat, origin: int, n: nat, held: Held, lo: nat, r: nat)
    requires IndexInv(ix, b, origin, n, held) && lo in held && lo + r < n
    ensures var now := RollingBack(ix, origin, lo, n, r);
      && (lo + r) * b == lo * b + r * b && Wellformed(now)
      && Lookup(now, b, (lo + r) * b) == Slot(|ix.entries|, origin, lo + r)
      && Rewound(WithValue(now, Slot(|ix.entries|, origin, lo + r), None)) == RollingBack(ix, origin, lo, n, r + 1)
  {
    ExactKey(ix, b, origin, n, held, lo, n - 1);
    hide IndexInv, Slot, Lookup, Cleared, RollingBack, Rewound, WithValue;
    RollingLookup(ix, b, origin, n, held, lo, r);
    RollingNext(ix, origin, lo, n, r);
  }

  /** Taking all new blocks back restores every lookup there was. */
  lemma RolledBackKeepsIndex(ix: Index, b: nat, origin: int, n: nat, held: Held, lo: nat, before: Held)
    requires IndexInv(ix, b, origin, n, held) && lo <= n
    requires forall k <- before :: k < lo && k in held && before[k] == held[k]
    ensures IndexInv(RollingBack(ix, origin, lo, n, n - lo), b, origin, lo, before)
  {
    var cap := |ix.entries|;
    var now := RollingBack(ix, origin, lo, n, n - lo);
    forall k: nat | k < lo && exists h <- before :: h <= k
      ensures now.entries[Slot(cap, origin, k)] == ix.entries[Slot(cap, origin, k)] && k >= n - cap
      ensures ix.entries[Slot(cap, origin, k)].key == k * b
    {
      ClearedKeepsOthers(ix.entries, origin, lo, n - lo, k);
    }
  }

  // ---------------------------------------------------------------- how many blocks fit

  /** The free entries in a row after position t, up to m of them. */
  function FreeFrom(ix: Index, t: int, m: nat): (run: nat)
    requires Wellformed(ix) && 0 <= t < |ix.entries|
    ensures run <= m
    decreases m
  {
    if m == 0 then 0
    else
      var next := (t + 1) % |ix.entries|;
      if Free(ix.entries[next]) then 1 + FreeFrom(ix, next, m - 1) else 0
  }

  /** The blocks that can be registered before the index has to grow. */
  function FreeRun(ix: Index): nat
    requires Wellformed(ix)
  {
    FreeFrom(ix, ix.tail, |ix.entries|)
  }

  /** How often an index without a free entry has to double for m blocks: each time it doubles, the new half is
      free and the entry in the way is not. */
  function Growths(m: nat, cap: nat): nat
    requires cap > 0
  {
    if m == 0 then 0 else 1 + Growths(if m > cap then m - cap else 0, 2 * cap)
  }

  /** There are entries for m more blocks, with memory for so many larger indices. */
  predicate IndexCovers(ix: Index, m: nat, canAlloc: bool, heap: nat)
    requires Wellformed(ix)
  {
    m <= FreeRun(ix) || (canAlloc && Growths(m - FreeRun(ix), |ix.entries|) <= heap)
  }

  /** A block registered at the next entry. */
  function WithBlock(ix: Index, key: nat, block: nat): Index
    requires Wellformed(ix)
  {
    var keyed := WithKey(ix, key);
    WithValue(keyed, keyed.tail, Some(block))
  }

  /** Where a run of d entries after t ends. */
  lemma {:induction false} RunUnchanged(ix: Index, ix': Index, t: int, m: nat, d: nat)
    requires Wellformed(ix) && Wellformed(ix') && |ix'.entries| == |ix.entries| && 0 <= t < |ix.entries|
    requires d <= |ix.entries| && m <= d
    requires forall x :: 0 <= x < |ix.entries| && x != (t + d + 1) % |ix.entries| ==> ix'.entries[x] == ix.entries[x]
    requires d < |ix.entries|
    ensures FreeFrom(ix', t, m) == FreeFrom(ix, t, m)
    decreases m
  {
    if m > 0 {
      var cap, next := |ix.entries|, (t + 1) % |ix.entries|;
      NotThere(t, d, cap);
      Stepped(t, d, cap);
      RunUnchanged(ix, ix', next, m - 1, d - 1);
    }
  }

  lemma NotThere(t: int, d: nat, cap: nat)
    requires 0 <= t < cap && 0 < d < cap
    ensures (t + 1) % cap != (t + d + 1) % cap
  {
    if (t + 1) % cap == (t + d + 1) % cap {
      var a, c := (t + 1) / cap, (t + d + 1) / cap;
      DivMod(t + 1, cap);
      DivMod(t + d + 1, cap);
      var q := c - a;
      assert q * cap == d;
      if q >= 1 {
        AtLeast(q, cap);
      } else {
        MulMonotone(q, 0, cap);
      }
    }
  }

  lemma Stepped(t: int, d: nat, cap: nat)
    requires cap > 0 && d > 0
    ensures ((t + 1) % cap + (d - 1) + 1) % cap == (t + d + 1) % cap
  {
    var r := (t + 1) % cap + d;
    Quotient(t + 1 + d, (t + 1) / cap + r / cap, r % cap, cap);
  }

  /** A run of all but one entry does not reach the one before its start. */
  lemma RunStops(ix: Index, t: int, m: nat, n: nat)
    requires Wellformed(ix) && 0 <= t < |ix.entries| && m <= n
    ensures FreeFrom(ix, t, m) == if FreeFrom(ix, t, n) < m then FreeFrom(ix, t, n) else m
    decreases n
  {
    if m > 0 {
      RunStops(ix, (t + 1) % |ix.entries|, m - 1, n - 1);
    }
  }

  /** The whole run ends at an entry that is not free. */
  lemma {:induction false} RunEndsAt(ix: Index, t: int, m: nat, d: nat)
    requires Wellformed(ix) && 0 <= t < |ix.entries| && d < m <= |ix.entries|
    requires !Free(ix.entries[(t + d + 1) % |ix.entries|])
    ensures FreeFrom(ix, t, m) <= d
    decreases m
  {
    if d > 0 {
      Stepped(t, d, |ix.entries|);
      if Free(ix.entries[(t + 1) % |ix.entries|]) {
        RunEndsAt(ix, (t + 1) % |ix.entries|, m - 1, d - 1);
      }
    }
  }

  /** Registering a block takes one entry of the run. */
  lemma BlockTakesOne(ix: Index, key: nat, block: nat)
    requires Wellformed(ix) && key != INVALID && Free(ix.entries[NewTail(ix)])
    ensures FreeRun(WithBlock(ix, key, block)) == FreeRun(ix) - 1
  {
    var ix', cap, next := WithBlock(ix, key, block), |ix.entries|, NewTail(ix);
    Quotient(next + cap, 1, next, cap);
    RunUnchanged(ix, ix', next, cap - 1, cap - 1);
    RunStops(ix', next, cap - 1, cap);
    assert !Free(ix'.entries[next]);
    RunEndsAt(ix', next, cap, cap - 1);
  }

  lemma {:induction false} FreshHalf(ix: Index, t: int, m: nat)
    requires Wellformed(ix) && 0 <= t < |ix.entries| && t + m < |ix.entries|
    requires forall x :: t < x <= t + m ==> Free(ix.entries[x])
    requires m < |ix.entries| && !Free(ix.entries[(t + m + 1) % |ix.entries|])
    ensures FreeFrom(ix, t, m + 1) == m
    decreases m
  {
    var cap := |ix.entries|;
    if m > 0 {
      Quotient(t + 1, 0, t + 1, cap);
      Stepped(t, m, cap);
      FreshHalf(ix, t + 1, m - 1);
    }
  }

  /** After doubling the new half is free, and then comes the entry that was in the way. */
  lemma GrownRun(ix: Index, junk: Option<nat>)
    requires Wellformed(ix) && !Free(ix.entries[NewTail(ix)])
    ensures Wellformed(Grown(ix, junk)) && FreeRun(Grown(ix, junk)) == |ix.entries|
    ensures |Grown(ix, junk).entries| == 2 * |ix.entries|
    ensures Free(Grown(ix, junk).entries[NewTail(Grown(ix, junk))])
  {
    var cap, g := |ix.entries|, Grown(ix, junk);
    Quotient(2 * cap, 1, 0, 2 * cap);
    Quotient(cap, 0, cap, 2 * cap);
    if ix.tail + 1 < cap {
      Quotient(ix.tail + 1, 0, ix.tail + 1, cap);
    } else {
      Quotient(cap, 1, 0, cap);
    }
    assert g.entries[0] == ix.entries[NewTail(ix)];
    FreshHalf(g, cap - 1, cap);
    RunStops(g, cap - 1, cap + 1, 2 * cap);
  }

  lemma {:induction false} GrowthsAtMost(m: nat, cap: nat)
    requires cap > 0
    ensures Growths(m, cap) <= m
    decreases m
  {
    if m > 0 {
      GrowthsAtMost(if m > cap then m - cap else 0, 2 * cap);
    }
  }

  lemma WithBlockSize(ix: Index, key: nat, block: nat)
    requires Wellformed(ix)
    ensures Wellformed(WithBlock(ix, key, block)) && |WithBlock(ix, key, block).entries| == |ix.entries|
  {
  }

  /** Registering one of m blocks leaves room for the others exactly if there was room for all... */
  lemma CoversOneLess(ix: Index, key: nat, block: nat, m: nat, canAlloc: bool, heap: nat)
    requires Wellformed(ix) && m > 0 && key != INVALID && Free(ix.entries[NewTail(ix)])
    ensures IndexCovers(ix, m, canAlloc, heap) <==> IndexCovers(WithBlock(ix, key, block), m - 1, canAlloc, heap)
  {
    hide FreeFrom, FreeRun, Growths, WithBlock;
    WithBlockSize(ix, key, block);
    BlockTakesOne(ix, key, block);
  }

  lemma LargerCoversOneLess(ix: Index, g: Index, key: nat, block: nat, m: nat, heap: nat)
    requires Wellformed(ix) && Wellformed(g) && m > 0 && key != INVALID && heap > 0
    requires FreeRun(ix) == 0 && FreeRun(g) == |ix.entries|
    requires |g.entries| == 2 * |ix.entries| && Free(g.entries[NewTail(g)])
    ensures IndexCovers(ix, m, true, heap) <==> IndexCovers(WithBlock(g, key, block), m - 1, true, heap - 1)
  {
    hide FreeFrom, FreeRun, WithBlock;
    WithBlockSize(g, key, block);
    BlockTakesOne(g, key, block);
    var cap := |ix.entries|;
    assert Growths(m, cap) == 1 + Growths(if m > cap then m - cap else 0, 2 * cap);
    assert Growths(0, 2 * cap) == 0;
  }

  /** ...also where the index has to grow for it. */
  lemma GrownCoversOneLess(ix: Index, junk: Option<nat>, key: nat, block: nat, m: nat, heap: nat)
    requires Wellformed(ix) && m > 0 && key != INVALID && !Free(ix.entries[NewTail(ix)]) && heap > 0
    ensures Wellformed(Grown(ix, junk))
    ensures IndexCovers(ix, m, true, heap)
      <==> IndexCovers(WithBlock(Grown(ix, junk), key, block), m - 1, true, heap - 1)
  {
    hide FreeFrom, FreeRun, Grown, WithBlock, IndexCovers;
    NoRun(ix);
    GrownRun(ix, junk);
    LargerCoversOneLess(ix, Grown(ix, junk), key, block, m, heap);
  }

  lemma NoRun(ix: Index)
    requires Wellformed(ix) && !Free(ix.entries[NewTail(ix)])
    ensures FreeRun(ix) == 0
  {
  }

  /** Without an entry for the next block there is room for none. */
  lemma NothingCovered(ix: Index, m: nat, canAlloc: bool, heap: nat)
    requires Wellformed(ix) && m > 0 && !Free(ix.entries[NewTail(ix)]) && !(canAlloc && heap > 0)
    ensures !IndexCovers(ix, m, canAlloc, heap)
  {
    NoRun(ix);
    hide FreeRun;
  }

  lemma NoneCovered(ix: Index, canAlloc: bool, heap: nat)
    requires Wellformed(ix)
    ensures IndexCovers(ix, 0, canAlloc, heap)
  {
    hide FreeRun;
  }

  /** `ix` has room for one block less than `was`. */
  ghost predicate RoomOneLess(was: Index, heap: nat, ix: Index, heap': nat, canAlloc: bool) {
    Wellformed(was) && Wellformed(ix) &&
    forall m: nat :: m > 0 ==> (IndexCovers(was, m, canAlloc, heap) <==> IndexCovers(ix, m - 1, canAlloc, heap'))
  }

  /** A block registered at the next entry, after growth where that is not free. */
  lemma BlockTakesRoom(was: Index, heap: nat, before: Index, heap': nat, junk: Option<nat>, key: nat, block: nat,
                       canAlloc: bool)
    requires Wellformed(was) && Wellformed(before) && key != INVALID
    requires Free(was.entries[NewTail(was)]) ==> before == was && heap' == heap
    requires !Free(was.entries[NewTail(was)]) ==>
      before == Grown(was, junk) && canAlloc && heap > 0 && heap' == heap - 1
    ensures RoomOneLess(was, heap, WithBlock(before, key, block), heap', canAlloc)
  {
    hide IndexCovers, Grown, WithBlock, Free;
    WithBlockSize(before, key, block);
    var ix := WithBlock(before, key, block);
    forall m: nat | m > 0 ensures IndexCovers(was, m, canAlloc, heap) <==> IndexCovers(ix, m - 1, canAlloc, heap') {
      if Free(was.entries[NewTail(was)]) {
        CoversOneLess(was, key, block, m, canAlloc, heap);
      } else {
        GrownCoversOneLess(was, junk, key, block, m, heap);
      }
    }
  }
}
