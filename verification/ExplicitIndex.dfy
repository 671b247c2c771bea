/** The block index of an explicit producer (src/util/concurrentqueue.h:1845-1940, 2004-2018,
    2357-2394) under single-item enqueues: a circular index of (base, block) pairs over a circular list
    of blocks, of which the oldest is used again as soon as it is empty.  Blocks are numbered as for the
    implicit producer, n of them were started, and `ring` is the list from the oldest block to the tail
    block. */
module ExplicitIndices {
  import opened Wrappers
  import opened Bits
  import opened BlockIndexes
  import opened BlockStorage

  datatype Pair = Pair(base: nat, block: nat)

  /** Where the pair of position j of the ring is. */
  function SlotOf(cap: nat, origin: int, n: int, used: nat, j: int): int
    requires cap > 0
  {
    Slot(cap, origin, n - used + j)
  }

  /** The ring's pairs are in the index, in order, before the front. */
  ghost predicate Indexed(b: nat, entries: seq<Pair>, front: int, ring: seq<nat>, n: nat, origin: int) {
    && |entries| > 0 && |ring| <= |entries| && |ring| <= n
    && front == Slot(|entries|, origin, n)
    && forall j :: 0 <= j < |ring| ==>
         entries[SlotOf(|entries|, origin, n, |ring|, j)] == Pair((n - |ring| + j) * b, ring[j])
  }

  /** Its blocks count what is dequeued, and only empty blocks have left it. */
  ghost predicate Counted(b: nat, ring: seq<nat>, counts: map<nat, nat>, n: nat, done: set<nat>) {
    && b >= 2 && |ring| <= n
    && (forall i, j :: 0 <= i < j < |ring| ==> ring[i] != ring[j])
    && (forall j :: 0 <= j < |ring| ==> ring[j] in counts && counts[ring[j]] == DoneIn(b, n - |ring| + j, done))
    && (forall k: nat :: k < n - |ring| ==> DoneIn(b, k, done) == b)
    && (forall i <- done :: i < n * b)
  }

  /** What a dequeue computes from the pair at the slot exposed last (2015-2018). */
  function RingLookup(entries: seq<Pair>, front: int, b: nat, i: nat): int
    requires entries != [] && b > 0
  {
    var cap := |entries|;
    var shown := (front - 1) % cap;
    (shown + (i - i % b - entries[shown].base) / b) % cap
  }

  lemma UndoneIsInRing(b: nat, ring: seq<nat>, counts: map<nat, nat>, n: nat, done: set<nat>, i: nat)
    requires Counted(b, ring, counts, n, done) && i < n * b && i !in done
    ensures b > 0 && n - |ring| <= i / b < n
  {
    AllDone(b, i / b, done);
    DivMod(i, b);
    if i / b >= n {
      MulMonotone(n, i / b, b);
    }
  }

  /** The pair of a block of the ring. */
  lemma PairOf(b: nat, entries: seq<Pair>, front: int, ring: seq<nat>, n: nat, origin: int, k: nat)
    requires Indexed(b, entries, front, ring, n, origin) && n - |ring| <= k < n
    ensures |entries| > 0 && entries[Slot(|entries|, origin, k)] == Pair(k * b, ring[k - (n - |ring|)])
  {
    hide Slot;
    var j := k - (n - |ring|);
    assert entries[SlotOf(|entries|, origin, n, |ring|, j)] == Pair((n - |ring| + j) * b, ring[j]);
  }

  lemma RingFits(b: nat, entries: seq<Pair>, front: int, ring: seq<nat>, n: nat, origin: int)
    requires Indexed(b, entries, front, ring, n, origin)
    ensures |ring| <= |entries| && |ring| <= n && entries != [] && front == Slot(|entries|, origin, n)
  {
  }

  /** Every ticket not yet dequeued finds the pair of its own block. */
  lemma RingLookupLands(b: nat, entries: seq<Pair>, front: int, ring: seq<nat>, n: nat, origin: int,
                        counts: map<nat, nat>, done: set<nat>, i: nat)
    requires Indexed(b, entries, front, ring, n, origin) && Counted(b, ring, counts, n, done) && i < n * b && i !in done
    ensures b > 0 && entries != [] && var j := i / b - (n - |ring|);
      0 <= j < |ring| && entries[RingLookup(entries, front, b, i)] == Pair(i / b * b, ring[j])
  {
    hide Indexed, Counted, Slot;
    UndoneIsInRing(b, ring, counts, n, done, i);
    RingFits(b, entries, front, ring, n, origin);
    var cap, k := |entries|, i / b;
    SlotShift(cap, origin, n, -1);
    PairOf(b, entries, front, ring, n, origin, n - 1);
    OffsetInBlocks(b, i, n - 1);
    SlotShift(cap, origin, n - 1, k - (n - 1));
    PairOf(b, entries, front, ring, n, origin, k);
  }

  // ---------------------------------------------------------------- starting a block

  lemma OtherPair(entries: seq<Pair>, origin: int, n: int, m: int, pair: Pair)
    requires 0 < n - m < |entries|
    ensures var cap := |entries|;
      entries[Slot(cap, origin, n) := pair][Slot(cap, origin, m)] == entries[Slot(cap, origin, m)]
  {
    SlotsDiffer(|entries|, origin, m, n);
  }

  lemma AddedPair(b: nat, entries: seq<Pair>, front: int, ring: seq<nat>, n: nat, origin: int, pair: Pair, m: nat)
    requires Indexed(b, entries, front, ring, n, origin) && n - |ring| <= m < n && n - m < |entries|
    ensures entries[front := pair][Slot(|entries|, origin, m)] == Pair(m * b, ring[m - (n - |ring|)])
  {
    RingFits(b, entries, front, ring, n, origin);
    hide Indexed, Slot;
    PairOf(b, entries, front, ring, n, origin, m);
    OtherPair(entries, origin, n, m, pair);
  }

  /** Stated by block numbers instead of places in the ring. */
  lemma PairsAreIndexed(b: nat, entries: seq<Pair>, front: int, ring: seq<nat>, n: nat, origin: int)
    requires |entries| > 0 && |ring| <= |entries| && |ring| <= n && front == Slot(|entries|, origin, n)
    requires forall m :: n - |ring| <= m < n ==>
      entries[Slot(|entries|, origin, m)] == Pair(m * b, ring[m - (n - |ring|)])
    ensures Indexed(b, entries, front, ring, n, origin)
  {
    hide Slot;
  }

  /** The pair of block number n goes to the front; of the old ring at most the oldest block leaves. */
  lemma AddedIsIndexed(b: nat, entries: seq<Pair>, front: int, ring: seq<nat>, n: nat, origin: int, ring': seq<nat>,
                       block: nat)
    requires Indexed(b, entries, front, ring, n, origin) && ring' != [] && |ring'| <= |entries| && |ring'| - 1 <= |ring|
    requires ring' == ring[|ring| - (|ring'| - 1)..] + [block]
    ensures Indexed(b, entries[front := Pair(n * b, block)], (front + 1) % |entries|, ring', n + 1, origin)
  {
    hide Slot, Indexed;
    var pair := Pair(n * b, block);
    RingFits(b, entries, front, ring, n, origin);
    SlotShift(|entries|, origin, n, 1);
    forall m | n + 1 - |ring'| <= m < n + 1
      ensures entries[front := pair][Slot(|entries|, origin, m)] == Pair(m * b, ring'[m - (n + 1 - |ring'|)])
    {
      if m < n {
        AddedPair(b, entries, front, ring, n, origin, pair, m);
      }
    }
    PairsAreIndexed(b, entries[front := pair], (front + 1) % |entries|, ring', n + 1, origin);
  }

  /** The oldest block is empty: it is used again. */
  lemma ReusedIsCounted(b: nat, ring: seq<nat>, counts: map<nat, nat>, n: nat, done: set<nat>)
    requires Counted(b, ring, counts, n, done) && ring != [] && counts[ring[0]] == b
    ensures Counted(b, ring[1..] + [ring[0]], counts[ring[0] := 0], n + 1, done)
  {
    NoneDone(b, n, done);
    MulMonotone(n, n + 1, b);
    hide DoneIn;
    var ring' := ring[1..] + [ring[0]];
    assert forall j :: 0 <= j < |ring| - 1 ==> ring'[j] == ring[j + 1];
  }

  /** A new block is linked in behind the tail block. */
  lemma AppendedIsCounted(b: nat, ring: seq<nat>, counts: map<nat, nat>, n: nat, done: set<nat>, block: nat)
    requires Counted(b, ring, counts, n, done) && block !in ring
    ensures Counted(b, ring + [block], counts[block := 0], n + 1, done)
  {
    NoneDone(b, n, done);
    MulMonotone(n, n + 1, b);
    hide DoneIn;
  }

  // ---------------------------------------------------------------- growth

  /** The used pairs, oldest first. */
  ghost predicate Copied(copied: seq<Pair>, entries: seq<Pair>, origin: int, n: nat, used: nat) {
    && |copied| == used && entries != []
    && forall j :: 0 <= j < used ==> copied[j] == entries[SlotOf(|entries|, origin, n, used, j)]
  }

  /** The new index: the copied pairs, and behind them whatever the memory holds. */
  function Extended(copied: seq<Pair>, junk: Pair, size: nat): (pairs: seq<Pair>)
    requires |copied| <= size
    ensures |pairs| == size
  {
    copied + seq(size - |copied|, _ => junk)
  }

  /** Copying the used pairs, oldest first, to an index twice the size keeps every lookup. */
  lemma GrownIsIndexed(b: nat, entries: seq<Pair>, front: int, ring: seq<nat>, n: nat, origin: int,
                       copied: seq<Pair>, junk: Pair)
    requires Indexed(b, entries, front, ring, n, origin) && Copied(copied, entries, origin, n, |ring|)
    ensures 0 < |entries| && |copied| == |ring| <= |entries|
    ensures Indexed(b, Extended(copied, junk, 2 * |entries|), |ring|, ring, n, n - |ring|)
  {
    var grown, used := Extended(copied, junk, 2 * |entries|), |ring|;
    FirstSlots(|grown|, n, used, used);
    forall j | 0 <= j < used
      ensures grown[SlotOf(|grown|, n - used, n, used, j)] == Pair((n - used + j) * b, ring[j])
    {
      FirstSlots(|grown|, n, used, j);
      hide Slot, SlotOf;
      assert grown[j] == copied[j] == entries[SlotOf(|entries|, origin, n, used, j)];
    }
  }

  lemma FirstSlots(cap: nat, n: int, used: nat, j: nat)
    requires j < cap
    ensures SlotOf(cap, n - used, n, used, j) == j == Slot(cap, n - used, n - used + j)
  {
    Quotient(j, 0, j, cap);
  }

  // ---------------------------------------------------------------- dequeuing

  /** One more ticket of the ring is dequeued. */
  lemma DequeuedIsCounted(b: nat, ring: seq<nat>, counts: map<nat, nat>, n: nat, done: set<nat>, i: nat)
    requires Counted(b, ring, counts, n, done) && i < n * b && i !in done
    ensures b > 0 && var j := i / b - (n - |ring|);
      && 0 <= j < |ring| && ring[j] in counts
      && Counted(b, ring, counts[ring[j] := counts[ring[j]] + 1], n, done + {i})
  {
    UndoneIsInRing(b, ring, counts, n, done, i);
    MoreDone(b, done, {i}, i / b);
    hide DoneIn;
  }

  /** The circular list is the ring. */
  ghost predicate RingLinks(next: map<nat, nat>, ring: seq<nat>, tailBlock: Option<nat>) {
    && tailBlock == (if ring == [] then None else Some(ring[|ring| - 1]))
    && forall j :: 0 <= j < |ring| ==> LinkedAt(next, ring, j)
  }

  predicate LinkedAt(next: map<nat, nat>, ring: seq<nat>, j: nat)
    requires j < |ring|
  {
    ring[j] in next && next[ring[j]] == ring[if j + 1 < |ring| then j + 1 else 0]
  }

  lemma HeadAfterTail(next: map<nat, nat>, ring: seq<nat>, tailBlock: Option<nat>)
    requires RingLinks(next, ring, tailBlock)
    ensures tailBlock.Some? <==> ring != []
    ensures tailBlock.Some? ==> tailBlock.value in next && next[tailBlock.value] == ring[0]
  {
    if ring != [] {
      assert LinkedAt(next, ring, |ring| - 1);
    }
  }

  lemma RotatedLinks(next: map<nat, nat>, ring: seq<nat>, tailBlock: Option<nat>)
    requires RingLinks(next, ring, tailBlock) && ring != []
    ensures RingLinks(next, ring[1..] + [ring[0]], Some(ring[0]))
  {
    var ring' := ring[1..] + [ring[0]];
    forall j | 0 <= j < |ring'| ensures LinkedAt(next, ring', j) {
      assert LinkedAt(next, ring, if j + 1 < |ring| then j + 1 else 0);
    }
  }

  function LinkedIn(next: map<nat, nat>, tailBlock: Option<nat>, block: nat): map<nat, nat>
    requires tailBlock.Some? ==> tailBlock.value in next
  {
    if tailBlock.None? then next[block := block]
    else next[block := next[tailBlock.value]][tailBlock.value := block]
  }

  lemma AppendedLinks(b: nat, next: map<nat, nat>, ring: seq<nat>, tailBlock: Option<nat>, block: nat,
                      counts: map<nat, nat>, n: nat, done: set<nat>)
    requires RingLinks(next, ring, tailBlock) && block !in ring && Counted(b, ring, counts, n, done)
    ensures tailBlock.Some? ==> tailBlock.value in next
    ensures RingLinks(LinkedIn(next, tailBlock, block), ring + [block], Some(block))
  {
    hide DoneIn;
    HeadAfterTail(next, ring, tailBlock);
    var next', ring' := LinkedIn(next, tailBlock, block), ring + [block];
    forall j | 0 <= j < |ring'| ensures LinkedAt(next', ring', j) {
      if j < |ring| {
        assert LinkedAt(next, ring, j);
      }
    }
  }

  // ---------------------------------------------------------------- the producer

  /** The loop meets the front after the last used slot and not before. */
  lemma NextSlot(cap: nat, origin: int, n: int, used: nat, j: nat)
    requires j < used <= cap
    ensures (SlotOf(cap, origin, n, used, j) + 1) % cap == SlotOf(cap, origin, n, used, j + 1)
    ensures SlotOf(cap, origin, n, used, j + 1) == Slot(cap, origin, n) <==> j + 1 == used
  {
    hide Slot;
    SlotShift(cap, origin, n - used + j, 1);
    if j + 1 < used {
      SlotsDiffer(cap, origin, n - used + j + 1, n);
    }
  }

  class ExplicitIndex {
    const b: nat
    var entries: seq<Pair>
    var front: int
    var slotsUsed: nat
    var tailBlock: Option<nat>
    var next: map<nat, nat>
    /** `elementsCompletelyDequeued` of each block. */
    var counts: map<nat, nat>
    ghost var ring: seq<nat>
    ghost var n: nat
    ghost var done: set<nat>
    ghost var origin: int

    ghost predicate Valid()
      reads this
    {
      && slotsUsed == |ring| && 0 <= front < |entries|
      && RingLinks(next, ring, tailBlock)
      && Indexed(b, entries, front, ring, n, origin)
      && Counted(b, ring, counts, n, done)
    }

    constructor (b: nat, size: nat, junk: Pair)
      requires b >= 2 && size > 0
      ensures Valid() && ring == [] && n == 0 && this.b == b
    {
      this.b, entries, front := b, seq(size, _ => junk), 0;
      slotsUsed, tailBlock, next, counts := 0, None, map[], map[];
      ring, n, done, origin := [], 0, {}, 0;
      Quotient(0, 0, 0, size);
    }

    /** The copying loop of new_block_index (2371-2379). */
    method CopyUsed() returns (copied: seq<Pair>)
      requires Indexed(b, entries, front, ring, n, origin) && slotsUsed == |ring|
      ensures |copied| == slotsUsed && Copied(copied, entries, origin, n, |ring|)
    {
      hide Slot, Indexed;
      RingFits(b, entries, front, ring, n, origin);
      copied := [];
      if slotsUsed != 0 {
        ghost var cap := |entries|;
        SlotShift(cap, origin, n, 0 - slotsUsed);
        var i := (front - slotsUsed) % |entries|;
        while true
          invariant |copied| < slotsUsed && i == SlotOf(cap, origin, n, slotsUsed, |copied|)
          invariant forall j :: 0 <= j < |copied| ==> copied[j] == entries[SlotOf(cap, origin, n, slotsUsed, j)]
          decreases slotsUsed - |copied|
        {
          NextSlot(cap, origin, n, slotsUsed, |copied|);
          copied := copied + [entries[i]];
          i := (i + 1) % |entries|;
          if i == front {
            break;
          }
        }
      }
    }

    method NewBlockIndex(memory: bool, junk: Pair) returns (ok: bool)
      requires Valid()
      modifies this`entries, this`front, this`origin
      ensures ok == memory && Valid()
      ensures |entries| == if ok then 2 * old(|entries|) else old(|entries|)
    {
      hide Counted, RingLinks, Indexed, Copied, Extended;
      if !memory {
        return false;
      }
      var size := |entries|;
      var copied := CopyUsed();
      GrownIsIndexed(b, entries, front, ring, n, origin, copied, junk);
      entries, front, origin := Extended(copied, junk, 2 * size), |copied|, n - |ring|;
      return true;
    }

    /** The block after the tail block is empty, so the whole ring's oldest block is. */
    ghost predicate HeadIsEmpty()
      reads this
    {
      ring != [] && ring[0] in counts && counts[ring[0]] == b
    }

    /** The first lines of an enqueue that reaches the end of a block (1854-1940); `newBlock` is what
        requisition_block returns. */
    method StartBlock(base: nat, leeway: bool, canAlloc: bool, memory: bool, newBlock: Option<nat>,
                      junk: Pair) returns (ok: bool)
      requires Valid() && base == n * b && (newBlock.Some? ==> newBlock.value !in ring)
      modifies this
      ensures Valid() && done == old(done)
      ensures n == if ok then old(n) + 1 else old(n)
      ensures !ok ==> ring == old(ring)
      ensures ok && old(HeadIsEmpty()) ==> ring == old(ring)[1..] + [old(ring)[0]]
      ensures ok && !old(HeadIsEmpty()) ==> newBlock.Some? && ring == old(ring) + [newBlock.value]
      ensures ok <==>
        old(HeadIsEmpty()) || (leeway && (old(slotsUsed < |entries|) || (canAlloc && memory)) && newBlock.Some?)
      ensures |entries| == old(|entries|) *
        if !old(HeadIsEmpty()) && leeway && old(slotsUsed == |entries|) && canAlloc && memory then 2 else 1
    {
      hide Indexed, Counted, RingLinks;
      HeadAfterTail(next, ring, tailBlock);
      HeadIsCounted(b, ring, counts, n, done);
      RingFits(b, entries, front, ring, n, origin);
      if tailBlock.Some? && counts[next[tailBlock.value]] == b {
        ReuseHead(base);
      } else {
        if !leeway {
          return false;
        }
        if slotsUsed == |entries| {
          if !canAlloc {
            return false;
          }
          var grown := NewBlockIndex(memory, junk);
          if !grown {
            return false;
          }
        }
        if newBlock.None? {
          return false;
        }
        LinkIn(newBlock.value, base);
      }
      return true;
    }

    /** The block ahead is empty (1858-1861, 1935-1940). */
    method ReuseHead(base: nat)
      requires Valid() && HeadIsEmpty() && base == n * b
      modifies this
      ensures Valid() && n == old(n) + 1 && ring == old(ring)[1..] + [old(ring)[0]] && done == old(done)
      ensures |entries| == old(|entries|)
    {
      hide Indexed, Counted, RingLinks;
      RingFits(b, entries, front, ring, n, origin);
      HeadAfterTail(next, ring, tailBlock);
      ReusedIsCounted(b, ring, counts, n, done);
      RotatedLinks(next, ring, tailBlock);
      AddedIsIndexed(b, entries, front, ring, n, origin, ring[1..] + [ring[0]], ring[0]);
      var block := next[tailBlock.value];
      tailBlock := Some(block);
      counts := counts[block := 0];
      entries := entries[front := Pair(base, block)];
      front := (front + 1) % |entries|;
      ring, n := ring[1..] + [ring[0]], n + 1;
    }

    /** A new block goes between the tail block and the oldest one (1904-1913, 1935-1940). */
    method LinkIn(block: nat, base: nat)
      requires Valid() && slotsUsed < |entries| && base == n * b && block !in ring
      modifies this
      ensures Valid() && n == old(n) + 1 && ring == old(ring) + [block] && done == old(done)
      ensures |entries| == old(|entries|)
    {
      hide Indexed, Counted, RingLinks;
      AppendedIsCounted(b, ring, counts, n, done, block);
      AppendedLinks(b, next, ring, tailBlock, block, counts, n, done);
      AddedIsIndexed(b, entries, front, ring, n, origin, ring + [block], block);
      counts := counts[block := 0];
      next := LinkedIn(next, tailBlock, block);
      tailBlock := Some(block);
      slotsUsed := slotsUsed + 1;
      entries := entries[front := Pair(base, block)];
      front := (front + 1) % |entries|;
      ring, n := ring + [block], n + 1;
    }

    /** Finding the block of a claimed ticket and counting it empty (2007-2018, 2032). */
    method SetEmpty(i: nat) returns (block: nat)
      requires b > 0 && i < n * b && i !in done
      requires Valid()
      modifies this`counts, this`done
      ensures Valid() && done == old(done) + {i}
      ensures 0 <= i / b - (n - |ring|) < |ring| && block == ring[i / b - (n - |ring|)]
    {
      hide Indexed, Counted, RingLinks;
      RingLookupLands(b, entries, front, ring, n, origin, counts, done, i);
      DequeuedIsCounted(b, ring, counts, n, done, i);
      block := entries[RingLookup(entries, front, b, i)].block;
      counts := counts[block := counts[block] + 1];
      done := done + {i};
    }
  }

  lemma HeadIsCounted(b: nat, ring: seq<nat>, counts: map<nat, nat>, n: nat, done: set<nat>)
    requires Counted(b, ring, counts, n, done)
    ensures ring != [] ==> ring[0] in counts
  {
  }
}
