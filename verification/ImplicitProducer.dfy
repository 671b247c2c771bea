/** The implicit producer of src/util/concurrentqueue.h (2487-2880): elements in blocks behind the
    circular index.  One operation is one step, except that a dequeue is two: claiming tickets and, in
    any order and at any later time, taking the elements claimed. */
module ImplicitProducers {
  import opened Wrappers
  import opened Bits
  import opened BlockIndexes
  import opened BlockStorage

  class ImplicitProducer<T> {
    const b: nat
    const limit: Option<nat>
    const recycle: bool
    const initial: nat
    var headIndex: nat
    var tailIndex: nat
    var tailBlock: nat
    var index: Index
    /** The blocks: their elements, their counters and their `next`. */
    var cells: map<(nat, nat), T>
    var counts: map<nat, nat>
    var next: map<nat, Option<nat>>
    /** The pool, and how many blocks and indices there is memory left for. */
    var pool: Pool
    var heapLeft: nat
    var indexHeapLeft: nat
    ghost var log: seq<T>
    ghost var done: set<nat>
    ghost var n: nat
    ghost var held: Held
    ghost var origin: int

    ghost function Model(): State<T>
      reads this
    {
      State(headIndex, tailIndex, tailBlock, index, cells, counts, pool, log, done, n, held, origin)
    }

    ghost predicate Valid()
      reads this
    {
      Inv(b, Model()) && Room(b, limit, headIndex, n)
    }

    constructor (b: nat, limit: Option<nat>, cap: nat, recycle: bool, initial: nat, heap: nat, indexHeap: nat,
                 junk: Option<nat>)
      requires b >= 2 && cap > 0
      ensures Valid() && log == [] && done == {} && this.b == b && this.limit == limit
    {
      this.b, this.limit, this.recycle, this.initial := b, limit, recycle, initial;
      headIndex, tailIndex, tailBlock := 0, 0, 0;
      index := Index(seq(cap, _ => Entry(INVALID, junk)), cap - 1);
      cells, counts, next := map[], map[], map[];
      pool, heapLeft, indexHeapLeft := Pool([], {}, 0), heap, indexHeap;
      log, done, n, held, origin := [], {}, 0, map[], 0;
      Quotient(b - 1, 0, b - 1, b);
      Quotient(-1, -1, cap - 1, cap);
    }

    /** The rotation loop and the rest of new_block_index (2967-3009). */
    method NewBlockIndex(junk: Option<nat>) returns (ok: bool)
      requires IndexInv(index, b, origin, n, held)
      modifies this`index, this`indexHeapLeft, this`origin
      ensures ok <==> old(indexHeapLeft) > 0
      ensures indexHeapLeft == if ok then old(indexHeapLeft) - 1 else old(indexHeapLeft)
      ensures IndexInv(index, b, origin, n, held)
      ensures ok ==> index == Grown(old(index), junk) && Free(index.entries[NewTail(index)])
      ensures !ok ==> index == old(index) && origin == old(origin)
    {
      if indexHeapLeft == 0 {
        return false;
      }
      hide Slot;
      GrowKeepsIndex(index, b, origin, n, held, junk);
      var cap := |index.entries|;
      var rotated := Rotate(index);
      origin := n - cap;
      index := Index(rotated + seq(cap, _ => Entry(INVALID, junk)), cap - 1);
      indexHeapLeft := indexHeapLeft - 1;
      return true;
    }

    static method Rotate(ix: Index) returns (rotated: seq<Entry>)
      requires Wellformed(ix)
      ensures rotated == ix.entries[ix.tail + 1..] + ix.entries[..ix.tail + 1]
    {
      var cap := |ix.entries|;
      NextPosition(cap, ix.tail);
      var prevPos := (ix.tail + 1) % cap;
      rotated := [ix.entries[prevPos]];
      while prevPos != ix.tail
        invariant 0 < |rotated| <= cap && prevPos == Position(cap, ix.tail, |rotated| - 1)
        invariant forall j :: 0 <= j < |rotated| ==> rotated[j] == ix.entries[Position(cap, ix.tail, j)]
        decreases cap - |rotated|
      {
        NextPosition(cap, prevPos);
        prevPos := (prevPos + 1) % cap;
        rotated := rotated + [ix.entries[prevPos]];
      }
    }

    /** insert_block_index_entry (2902-2934); `before` is the index the key went into. */
    method InsertBlockIndexEntry(canAlloc: bool, blockStartIndex: nat, junk: Option<nat>)
      returns (ok: bool, ghost before: Index)
      requires IndexInv(index, b, origin, n, held)
      modifies this`index, this`indexHeapLeft, this`origin
      ensures IndexInv(before, b, origin, n, held) && Wellformed(before)
      ensures ok ==> Free(before.entries[NewTail(before)]) && index == WithKey(before, blockStartIndex)
      ensures !ok ==> index == old(index) && origin == old(origin)
      ensures ok <==> Free(old(index).entries[NewTail(old(index))]) || (canAlloc && old(indexHeapLeft) > 0)
      ensures ok && Free(old(index).entries[NewTail(old(index))]) ==>
        before == old(index) && indexHeapLeft == old(indexHeapLeft)
      ensures ok && !Free(old(index).entries[NewTail(old(index))]) ==>
        before == Grown(old(index), junk) && indexHeapLeft == old(indexHeapLeft) - 1
      ensures indexHeapLeft + 1 >= old(indexHeapLeft)
    {
      before := index;
      if !Free(index.entries[NewTail(index)]) {
        if !canAlloc {
          return false, before;
        }
        var grown := NewBlockIndex(junk);
        if !grown {
          return false, before;
        }
        before := index;
      }
      index := WithKey(index, blockStartIndex);
      return true, before;
    }

    predicate BlockLeft(canAlloc: bool)
      reads this
    {
      pool.made < initial || pool.free != [] || (canAlloc && heapLeft > 0)
    }

    /** The blocks that can still be had. */
    function BlocksLeft(canAlloc: bool): nat
      reads this
    {
      (if pool.made < initial then initial - pool.made else 0) + |pool.free| + if canAlloc then heapLeft else 0
    }

    predicate IndexSlotLeft(canAlloc: bool)
      requires Wellformed(index)
      reads this
    {
      Free(index.entries[NewTail(index)]) || (canAlloc && indexHeapLeft > 0)
    }

    /** requisition_block: the initial blocks, then the free list, then the heap (3096-3116). */
    method RequisitionBlock(canAlloc: bool) returns (r: Option<nat>)
      requires BlocksInv(held, pool) && n !in held
      modifies this`pool, this`heapLeft
      ensures r.Some? ==> BlocksInv(held[n := r.value], pool) && forall k <- held :: held[k] != r.value
      ensures r.None? ==> pool == old(pool)
      ensures r.Some? <==> old(BlockLeft(canAlloc))
      ensures r.Some? ==> BlocksLeft(canAlloc) == old(BlocksLeft(canAlloc)) - 1
      ensures heapLeft + 1 >= old(heapLeft)
      ensures heapLeft < old(heapLeft) ==> old(pool.made >= initial && pool.free == [])
      ensures old(pool.made < initial) ==> pool.free == old(pool.free)
      ensures r.Some? && old(pool.made >= initial && pool.free != []) ==> pool.free + [r.value] == old(pool.free)
    {
      if pool.made < initial {
        FreshKeepsBlocks(held, pool, n);
        r, pool := Some(pool.made), pool.(made := pool.made + 1);
      } else if pool.free != [] {
        PopKeepsBlocks(held, pool, n);
        var last := |pool.free| - 1;
        r, pool := Some(pool.free[last]), pool.(free := pool.free[..last]);
      } else if canAlloc && heapLeft > 0 {
        FreshKeepsBlocks(held, pool, n);
        r, pool, heapLeft := Some(pool.made), pool.(made := pool.made + 1), heapLeft - 1;
      } else {
        r := None;
      }
    }

    /** The next block: index entry, block, counter and value, or nothing of these (2494-2534, 2654-2689). */
    method AddBlock(base: nat, canAlloc: bool, junk: Option<nat>) returns (r: Option<nat>)
      requires Core(b, Model()) && base == n * b
      modifies this`index, this`indexHeapLeft, this`origin, this`pool, this`heapLeft, this`counts, this`held, this`n
      ensures Core(b, Model())
      ensures r.Some? ==> n == old(n) + 1 && old(n) !in old(held) && held == old(held)[old(n) := r.value]
      ensures r.None? ==> n == old(n) && held == old(held) && pool == old(pool) && counts == old(counts)
      ensures r.Some? <==>
        !Full(b, limit, headIndex, base) && old(IndexSlotLeft(canAlloc)) && old(BlockLeft(canAlloc))
      ensures r.Some? ==> Room(b, limit, headIndex, n)
      ensures r.Some? ==> BlocksLeft(canAlloc) == old(BlocksLeft(canAlloc)) - 1
      ensures r.Some? ==> RoomOneLess(old(index), old(indexHeapLeft), index, indexHeapLeft, canAlloc)
      ensures heapLeft + 1 >= old(heapLeft) && indexHeapLeft + 1 >= old(indexHeapLeft)
    {
      hide Core, Full, Room, IndexInv, BlocksInv, Filled, RoomOneLess, Grown, WithBlock, WithKey, Free;
      PartsOfCore(b, Model());
      if Full(b, limit, headIndex, base) {
        return None;
      }
      RoomForOne(b, limit, headIndex, n);
      NumberIsNew(b, Model());
      NextBaseIsValid(b, Model());
      ghost var s := Model();
      var inserted, before := InsertBlockIndexEntry(canAlloc, base, junk);
      if !inserted {
        assert Model() == s;
        return None;
      }
      r := BlockFor(canAlloc, s, before);
      if r.Some? {
        BlockTakesRoom(s.index, old(indexHeapLeft), before, indexHeapLeft, junk, base, r.value, canAlloc);
      }
    }

    /** The block for an inserted entry, or the entry is taken back (2508-2518, 2660-2690). */
    method BlockFor(canAlloc: bool, ghost s: State<T>, ghost before: Index) returns (r: Option<nat>)
      requires Wellformed(before) && Core(b, s) && s.n !in s.held
      requires Model() == s.(index := WithKey(before, s.n * b), origin := origin)
      requires IndexInv(before, b, origin, s.n, s.held) && Free(before.entries[NewTail(before)])
      modifies this`index, this`pool, this`heapLeft, this`counts, this`held, this`n
      ensures Core(b, Model()) && (r.Some? <==> old(BlockLeft(canAlloc)))
      ensures r.Some? ==> n == s.n + 1 && held == s.held[s.n := r.value] && index == WithBlock(before, s.n * b, r.value)
      ensures r.Some? ==> BlocksLeft(canAlloc) == old(BlocksLeft(canAlloc)) - 1
      ensures r.None? ==> n == s.n && held == s.held && pool == s.pool && counts == s.counts
      ensures heapLeft + 1 >= old(heapLeft)
    {
      hide Core, Found, Filled, IndexInv, BlocksInv, WithKey, WithBlock, Free;
      PartsOfCore(b, s);
      r := RequisitionBlock(canAlloc);
      if r.None? {
        Retract(s, before);
      } else {
        Attach(r.value, s, before);
      }
    }

    /** The entry was inserted but there is no block for it (2511-2512). */
    method Retract(ghost s: State<T>, ghost before: Index)
      requires Wellformed(before) && Core(b, s)
      requires Model() == s.(index := WithKey(before, s.n * b), origin := origin)
      requires IndexInv(before, b, origin, s.n, s.held) && Free(before.entries[NewTail(before)])
      modifies this`index
      ensures Core(b, Model())
    {
      UndoneKeepsCore(b, s, before, origin);
      index := WithValue(Rewound(index), index.tail, None);
      assert Model() == Undone(b, s, before, origin);
    }

    /** The block goes behind the entry, with its counter reset (2518, 2534). */
    method Attach(newBlock: nat, ghost s: State<T>, ghost before: Index)
      requires Wellformed(before) && Filled(b, s)
      requires Model() == s.(index := WithKey(before, s.n * b), origin := origin, pool := pool)
      requires IndexInv(before, b, origin, s.n, s.held) && Free(before.entries[NewTail(before)])
      requires BlocksInv(s.held[s.n := newBlock], pool) && forall k <- s.held :: s.held[k] != newBlock
      modifies this`index, this`counts, this`held, this`n
      ensures Core(b, Model()) && n == s.n + 1 && held == s.held[s.n := newBlock]
      ensures index == WithBlock(before, s.n * b, newBlock)
    {
      RegisteredKeepsCore(b, s, before, origin, newBlock, pool);
      counts := counts[newBlock := 0];
      index := WithValue(index, index.tail, Some(newBlock));
      held, n := held[n := newBlock], n + 1;
      assert Model() == Registered(b, s, before, origin, newBlock, pool);
    }

    method Enqueue(x: T, canAlloc: bool, junk: Option<nat>) returns (ok: bool)
      requires Valid()
      modifies this
      ensures Valid() && headIndex == old(headIndex) && done == old(done)
      ensures log == if ok then old(log) + [x] else old(log)
      ensures !ok ==> held == old(held) && pool == old(pool) && tailBlock == old(tailBlock)
      ensures ok <==>
        old(tailIndex) % b != 0 ||
        (!Full(b, limit, old(headIndex), old(tailIndex)) && old(IndexSlotLeft(canAlloc)) && old(BlockLeft(canAlloc)))
    {
      hide Inv, Core, Blocks, Room;
      Bounds(b, Model());
      NextBlock(b, Model());
      if tailIndex % b == 0 {
        var started := StartBlock(canAlloc, junk);
        if !started {
          return false;
        }
      }
      WriteElement(x);
      return true;
    }

    /** The end of a block is reached (2492-2536). */
    method StartBlock(canAlloc: bool, junk: Option<nat>) returns (ok: bool)
      requires Valid() && tailIndex == n * b && n == tailIndex / b && tailIndex % b == 0
      modifies this`index, this`indexHeapLeft, this`origin, this`pool
      modifies this`heapLeft, this`counts, this`held, this`n, this`tailBlock
      ensures ok ==>
        Core(b, Model()) && n == tailIndex / b + 1 && tailIndex / b in held && tailBlock == held[tailIndex / b]
      ensures ok ==> Room(b, limit, headIndex, n)
      ensures !ok ==> Valid() && held == old(held) && pool == old(pool) && tailBlock == old(tailBlock)
      ensures ok <==>
        !Full(b, limit, headIndex, tailIndex) && old(IndexSlotLeft(canAlloc)) && old(BlockLeft(canAlloc))
    {
      var newBlock := AddBlock(tailIndex, canAlloc, junk);
      if newBlock.None? {
        return false;
      }
      tailBlock := newBlock.value;
      return true;
    }

    /** The last lines of enqueue (2544-2547). */
    method WriteElement(x: T)
      requires Core(b, Model()) && |log| == tailIndex
      requires n == tailIndex / b + 1 && tailIndex / b in held && tailBlock == held[tailIndex / b]
      requires Room(b, limit, headIndex, n)
      modifies this`cells, this`tailIndex, this`log
      ensures Valid() && log == old(log) + [x]
    {
      hide Core, Room, Inv;
      ghost var s := Model();
      IndexIsWellformed(b, s);
      WrittenKeepsInv(b, s, tailBlock, x);
      cells := cells[(tailBlock, tailIndex % b) := x];
      log := log + [x];
      tailIndex := tailIndex + 1;
      assert Model() == Written(b, s, tailBlock, x).(tail := s.tail + 1);
    }

    // -------------------------------------------------------------- taking

    method AddBlockToFreeList(block: nat)
      modifies this`pool
      ensures pool == GivenBack(old(pool), block, recycle || block < initial)
    {
      if !recycle && block >= initial {
        pool := pool.(destroyed := pool.destroyed + {block});
      } else {
        pool := pool.(free := pool.free + [block]);
      }
    }

    /** set_many_empty and what follows it (2600-2609, 2858-2868). */
    method SetManyEmpty(slot: int, block: nat, first: nat, m: nat)
      requires Wellformed(index) && b > 0 && first / b in held && held[first / b] == block && block in counts
      requires slot == Slot(|index.entries|, origin, first / b)
      modifies this`counts, this`index, this`pool, this`done, this`held
      ensures Model() == Finished(b, old(Model()), first, m, recycle || block < initial)
    {
      var prevVal := counts[block];
      counts := counts[block := prevVal + m];
      if prevVal + m == b {
        index := WithValue(index, slot, None);
        AddBlockToFreeList(block);
        held := held - {first / b};
      }
      done := done + Range(first, m);
    }

    /** Claiming m tickets, which the optimistic counters allow only while so many are there. */
    method Claim(m: nat) returns (first: nat)
      requires Valid() && headIndex + m <= tailIndex
      modifies this`headIndex
      ensures Valid() && first == old(headIndex) && headIndex == first + m
    {
      RoomStays(b, limit, headIndex, n, headIndex + m, n);
      first := headIndex;
      headIndex := headIndex + m;
    }

    /** Taking the element of a claimed ticket (2566-2609). */
    method Take(i: nat) returns (x: T)
      requires Valid() && i < headIndex && i !in done
      modifies this`counts, this`index, this`pool, this`done, this`held
      ensures Valid() && x == log[i] && done == old(done) + {i}
      ensures b > 0 && GivesBack(b, old(Model()), Model(), i / b, recycle, initial)
    {
      hide HeldInv, BlocksInv, CountsInv, Room, GivesBack;
      assert Stored(b, held, cells, i, log[i]);
      LookupLands(index, b, origin, n, held, i);
      CountOf(b, done, held, counts, i / b);
      var slot := Lookup(index, b, i);
      var block := index.entries[slot].value.value;
      x := cells[(block, i % b)];
      assert Range(i, 1) == {i};
      FinishedKeepsInv(b, Model(), i, 1, recycle || block < initial);
      FinishedGivesBack(b, Model(), i, 1, recycle, initial);
      SetManyEmpty(slot, block, i, 1);
    }

    /** The inner loop of dequeue_bulk (2816-2821). */
    method CopyFromBlock(block: nat, first: nat, end: nat) returns (xs: seq<T>)
      requires b > 0 && first <= end <= |log|
      requires Holds(b, cells, block, first, end, log)
      ensures xs == log[first..end]
    {
      xs := [];
      var i := first;
      while i != end
        invariant first <= i <= end && xs == log[first..i]
      {
        xs := xs + [cells[(block, i % b)]];
        i := i + 1;
      }
    }

    /** One block's part of dequeue_bulk: its elements, then set_many_empty (2813-2868). */
    method TakeFromBlock(slot: int, first: nat, end: nat) returns (xs: seq<T>)
      requires b > 0 && end <= |log| && Wellformed(index)
      requires Valid() && first < end <= headIndex && Untaken(first, end - first, done)
      requires forall i: nat :: first <= i < end ==> i / b == first / b
      requires first / b in held && slot == Slot(|index.entries|, origin, first / b)
      modifies this`counts, this`index, this`pool, this`done, this`held
      ensures Valid() && xs == log[first..end] && done == old(done) + Range(first, end - first)
      ensures |index.entries| == old(|index.entries|)
      ensures GivesBack(b, old(Model()), Model(), first / b, recycle, initial)
    {
      hide Inv, Room, GivesBack;
      TakingFromBlock(b, Model(), first, end, recycle || held[first / b] < initial);
      RangeInBlock(b, first, end);
      FinishedGivesBack(b, Model(), first, end - first, recycle, initial);
      var block := index.entries[slot].value.value;
      xs := CopyFromBlock(block, first, end);
      SetManyEmpty(slot, block, first, end - first);
    }

    /** One round of the loop: the tickets from i to `stop` that are in the block of i, and the next slot. */
    method TakeNextBlock(indexIndex: int, i: nat, stop: nat, ghost before: set<nat>, ghost first: nat)
      returns (part: seq<T>, end: nat, next: int)
      requires b > 0 && first <= i < stop <= |log| && Wellformed(index)
      requires Valid() && stop <= headIndex && Untaken(i, stop - i, done) && done == before + Range(first, i - first)
      requires indexIndex == Slot(|index.entries|, origin, i / b)
      modifies this`counts, this`index, this`pool, this`done, this`held
      ensures Valid() && Wellformed(index) && i < end <= stop
      ensures part == log[i..end] && done == before + Range(first, end - first)
      ensures end < stop ==> Untaken(end, stop - end, done) && next == Slot(|index.entries|, origin, end / b)
    {
      hide Inv, Range, Slot, Untaken, Room, GivesBack, Lookup;
      end := EndIndex(b, i, stop);
      BulkRound(b, Model(), before, first, i, stop);
      part := TakeFromBlock(indexIndex, i, end);
      Bounds(b, Model());
      next := (indexIndex + 1) % |index.entries|;
    }

    /** The blocks' parts one after the other (2804-2870): the slot of the first block is looked up, and
        the next block's slot is the next one. */
    method TakeBulk(first: nat, m: nat) returns (xs: seq<T>)
      requires b > 0 && first + m <= |log| && Wellformed(index)
      requires Valid() && m > 0 && first + m <= headIndex && Untaken(first, m, done)
      modifies this`counts, this`index, this`pool, this`done, this`held
      ensures Valid() && xs == log[first..first + m] && done == old(done) + Range(first, m)
    {
      hide Inv, Range, Slot, Untaken, Room, GivesBack, Lookup, EndIndex;
      var stop := first + m;
      xs := [];
      var i := first;
      TicketSlot(b, Model(), first, stop);
      RangeIs(first, 0);
      var indexIndex := Lookup(index, b, first);
      while i != stop
        invariant first <= i <= stop && Valid() && Wellformed(index)
        invariant xs == log[first..i] && done == old(done) + Range(first, i - first)
        invariant i < stop ==> Untaken(i, stop - i, done) && indexIndex == Slot(|index.entries|, origin, i / b)
      {
        var part;
        part, i, indexIndex := TakeNextBlock(indexIndex, i, stop, old(done), first);
        xs := xs + part;
      }
    }

    /** dequeue without the optimistic counters: a claim, then the element. */
    method Dequeue() returns (r: Option<T>)
      requires Valid()
      modifies this`headIndex, this`counts, this`index, this`pool, this`done, this`held
      ensures Valid() && r == (if old(headIndex) < tailIndex then Some(log[old(headIndex)]) else None)
      ensures headIndex == old(headIndex) + (if r.Some? then 1 else 0)
    {
      if headIndex == tailIndex {
        return None;
      }
      var i := Claim(1);
      var x := Take(i);
      return Some(x);
    }

    method DequeueBulk(max: nat) returns (xs: seq<T>)
      requires Valid()
      modifies this`headIndex, this`counts, this`index, this`pool, this`done, this`held
      ensures Valid() && old(headIndex) <= headIndex <= |log| && xs == log[old(headIndex)..headIndex]
      ensures headIndex == if max < tailIndex - old(headIndex) then old(headIndex) + max else tailIndex
    {
      hide Inv, Range, Untaken, Room;
      Bounds(b, Model());
      var count := if max < tailIndex - headIndex then max else tailIndex - headIndex;
      if count == 0 {
        return [];
      }
      var first := Claim(count);
      Unclaimed(b, old(Model()), count);
      Bounds(b, Model());
      xs := TakeBulk(first, count);
    }

    // -------------------------------------------------------------- bulk enqueue

    /** The first of the two loops that take reserved blocks back: their index entries (2669-2675). */
    method ClearEntries(first: Option<nat>, startTailIndex: nat, ghost lo: nat)
      requires b > 0 && Wellformed(index) && lo <= n && RoundDown(b, startTailIndex - 1) == (lo - 1) * b
      requires forall k: nat :: lo <= k < n ==> k in held
      requires first == if lo < n then Some(held[lo]) else None
      requires Linked(held, next, lo, n) && Ends(held, next, lo, n) && IndexInv(index, b, origin, n, held)
      modifies this`index
      ensures index == RollingBack(old(index), origin, lo, n, n - lo)
    {
      hide IndexInv, Cleared, Lookup, Linked;
      ghost var peak, r := index, 0;
      RollingBackStart(peak, b, origin, n, held, lo);
      var currentTailIndex := RoundDown(b, startTailIndex - 1);
      var block := first;
      while block.Some?
        invariant r <= n - lo && index == RollingBack(peak, origin, lo, n, r)
        invariant currentTailIndex == (lo + r - 1) * b
        invariant block == if lo + r < n then Some(held[lo + r]) else None
        decreases n - lo - r
      {
        RollingBackStep(peak, b, origin, n, held, lo, r);
        currentTailIndex := currentTailIndex + b;
        var slot := Lookup(index, b, currentTailIndex);
        index := WithValue(index, slot, None);
        index := Rewound(index);
        NextInChain(held, next, lo, n, lo + r);
        block := next[block.value];
        r := r + 1;
      }
    }

    /** add_blocks_to_free_list (3081-3088). */
    method AddBlocksToFreeList(first: Option<nat>, ghost before: Held, ghost lo: nat)
      requires BlocksInv(held, pool) && Extends(before, held, lo, n) && lo <= n
      requires Linked(held, next, lo, n) && Ends(held, next, lo, n)
      requires first == if lo < n then Some(held[lo]) else None
      modifies this`pool, this`held
      ensures BlocksInv(held, pool) && held == before
    {
      hide BlocksInv, Linked;
      ghost var r := 0;
      var block := first;
      while block.Some?
        invariant r <= n - lo && BlocksInv(held, pool)
        invariant Remaining(before, old(held), held, lo + r, n)
        invariant block == if lo + r < n then Some(old(held)[lo + r]) else None
        decreases n - lo - r
      {
        ReleaseKeepsBlocks(held, pool, lo + r, recycle || block.value < initial);
        NextInChain(old(held), next, lo, n, lo + r);
        var following := next[block.value];
        AddBlockToFreeList(block.value);
        held := held - {lo + r};
        block := following;
        r := r + 1;
      }
    }

    /** An allocation failed: everything reserved goes back (2669-2677). */
    method RollBack(first: Option<nat>, startBlock: nat, ghost s: State<T>, ghost link: nat)
      requires Reserving(b, s, Model(), next, link, first) && Inv(b, s) && startBlock == s.tailBlock
      requires Room(b, limit, headIndex, s.n)
      modifies this`index, this`pool, this`held, this`n, this`tailBlock
      ensures Valid() && held == s.held && tailBlock == startBlock
    {
      hide Linked, Ends, BlocksInv, HeldInv, ElementsInv, CountsInv, IndexInv, Blocks, Room;
      IndexIsWellformed(b, Model());
      FewerLinks(held, next, link, s.n, n);
      RolledBackKeepsIndex(index, b, origin, n, held, s.n, s.held);
      CountsOfFewer(b, done, s.held, held, s.n, n, counts);
      BaseBefore(b, tailIndex);
      ClearEntries(first, tailIndex, s.n);
      AddBlocksToFreeList(first, s.held, s.n);
      n := s.n;
      tailBlock := startBlock;
      RolledBackKeepsInv(b, s, Model());
    }

    /** One more block, behind the last one (2651-2699). */
    method ReserveBlock(base: nat, canAlloc: bool, junk: Option<nat>, owned: bool, ghost s: State<T>,
                        ghost link: nat, ghost first: Option<nat>)
      returns (r: Option<nat>)
      requires Wellformed(index) && Reserving(b, s, Model(), next, link, first)
      requires base == n * b && (owned <==> link < n)
      modifies this`index, this`indexHeapLeft, this`origin, this`pool, this`heapLeft
      modifies this`counts, this`held, this`n, this`next, this`tailBlock
      ensures r.None? ==> n == old(n) && Reserving(b, s, Model(), next, link, first)
      ensures r.Some? ==> n == old(n) + 1 && Reserving(b, s, Model(), next, link, if first == None then r else first)
      ensures r.Some? ==> (link < n <==> link < s.n || (if first == None then r else first) != None)
      ensures r.Some? ==> Room(b, limit, headIndex, n) && BlocksLeft(canAlloc) == old(BlocksLeft(canAlloc)) - 1
      ensures r.Some? ==> RoomOneLess(old(index), old(indexHeapLeft), index, indexHeapLeft, canAlloc)
      ensures r.Some? <==> !Full(b, limit, headIndex, base) && old(IndexSlotLeft(canAlloc)) && old(BlockLeft(canAlloc))
    {
      hide Core, Full, LinkedBehind, Room, Extends, Reserved, Linked, Ends, RoomOneLess;
      ghost var m := Model();
      IndexIsWellformed(b, m);
      r := AddBlock(base, canAlloc, junk);
      if r.None? {
        ReservingStays(b, s, m, Model(), next, link, first);
        return;
      }
      ReservingGrows(b, s, m, Model(), next, link, first, r.value);
      hide Reserving;
      next := LinkedBehind(next, tailBlock, r.value, owned);
      tailBlock := r.value;
    }

    /** Exactly what `needed` more blocks take: leeway for the last of them, that many blocks, and entries for them
        with memory for the larger indices. */
    predicate Fits(needed: nat, last: nat, canAlloc: bool)
      requires Wellformed(index)
      reads this
    {
      needed > 0 ==>
        && !Full(b, limit, headIndex, last) && needed <= BlocksLeft(canAlloc)
        && IndexCovers(index, needed, canAlloc, indexHeapLeft)
    }

    /** The blocks a bulk enqueue of `count` elements needs. */
    function Needed(count: nat): nat
      reads this`tailIndex
    {
      if b > 0 && Blocks(b, tailIndex + count) > Blocks(b, tailIndex)
      then Blocks(b, tailIndex + count) - Blocks(b, tailIndex) else 0
    }

    /** The base of the last of them. */
    function LastNeeded(count: nat): nat
      reads this`tailIndex
    {
      if b > 0 && Blocks(b, tailIndex + count) > 0 then (Blocks(b, tailIndex + count) - 1) * b else 0
    }

    /** A bulk enqueue of `count` elements fits. */
    predicate BulkFits(count: nat, canAlloc: bool)
      reads this
    {
      Wellformed(index) && Fits(Needed(count), LastNeeded(count), canAlloc)
    }

    /** Memory for every block needed and for a new index at each, and leeway up to the last. */
    ghost predicate Enough(count: nat, canAlloc: bool, heap: nat, indexHeap: nat)
      reads this`headIndex, this`tailIndex
    {
      b > 0 &&
      var target := Blocks(b, tailIndex + count);
      var needed := target - Blocks(b, tailIndex);
      needed > 0 ==> canAlloc && heap >= needed && indexHeap >= needed && !Full(b, limit, headIndex, (target - 1) * b)
    }

    /** That is enough, whatever the pool and the index look like. */
    lemma EnoughFits(count: nat, canAlloc: bool)
      requires b > 0 && Wellformed(index) && Blocks(b, tailIndex) <= Blocks(b, tailIndex + count)
      requires Enough(count, canAlloc, heapLeft, indexHeapLeft)
      ensures BulkFits(count, canAlloc)
    {
      hide Blocks, Full, FreeRun;
      var needed := Blocks(b, tailIndex + count) - Blocks(b, tailIndex);
      if needed > FreeRun(index) {
        GrowthsAtMost(needed - FreeRun(index), |index.entries|);
      }
    }

    /** One of the blocks needed was had: the others fit exactly if all did. */
    lemma FitsOneLess(needed: nat, last: nat, canAlloc: bool, was: Index, heap: nat, blocks: nat)
      requires needed > 0 && RoomOneLess(was, heap, index, indexHeapLeft, canAlloc)
      requires BlocksLeft(canAlloc) == blocks - 1
      requires needed == 1 ==> !Full(b, limit, headIndex, last)
      ensures !Full(b, limit, headIndex, last) && needed <= blocks && IndexCovers(was, needed, canAlloc, heap)
        <==> Fits(needed - 1, last, canAlloc)
    {
      hide IndexCovers, Full, BlocksLeft;
      NoneCovered(index, canAlloc, indexHeapLeft);
    }

    /** If the next block cannot be had, they do not fit. */
    lemma DoesNotFit(needed: nat, base: nat, last: nat, canAlloc: bool)
      requires needed > 0 && Wellformed(index)
      requires Full(b, limit, headIndex, base) ==> Full(b, limit, headIndex, last)
      requires Full(b, limit, headIndex, base) || !IndexSlotLeft(canAlloc) || !BlockLeft(canAlloc)
      ensures !Fits(needed, last, canAlloc)
    {
      hide IndexCovers, Full, Free;
      if !IndexSlotLeft(canAlloc) {
        NothingCovered(index, needed, canAlloc, indexHeapLeft);
      }
    }

    /** Block by block as many as the elements need, or none (2638-2701). */
    method ReserveBlocks(count: nat, canAlloc: bool, junk: Option<nat>, ghost link: nat)
      returns (ok: bool, first: Option<nat>, endBlock: nat)
      requires b > 0 && link == tailIndex / b && Wellformed(index)
      requires Blocks(b, tailIndex) <= Blocks(b, tailIndex + count)
      requires Valid()
      modifies this`index, this`indexHeapLeft, this`origin, this`pool, this`heapLeft, this`counts
      modifies this`held, this`n, this`next, this`tailBlock
      ensures ok <==> old(BulkFits(count, canAlloc))
      ensures !ok ==> Valid() && held == old(held) && tailBlock == old(tailBlock)
      ensures ok ==> n == Blocks(b, tailIndex + count) && Reserving(b, old(Model()), Model(), next, link, first)
      ensures ok ==> endBlock == tailBlock && Room(b, limit, headIndex, n)
    {
      hide Reserving, Inv, Blocks, RoundDown, Room, Full, Fits, IndexCovers, RoomOneLess, Free;
      ghost var s, fits := Model(), BulkFits(count, canAlloc);
      ghost var target := Blocks(b, tailIndex + count);
      ghost var last := LastNeeded(count);
      var startBlock := tailBlock;
      first := None;
      StartOfReservation(b, s, next);
      BlocksNeeded(b, tailIndex, count);
      var blockBaseDiff := RoundDown(b, tailIndex + count - 1) - RoundDown(b, tailIndex - 1);
      var currentTailIndex := RoundDown(b, tailIndex - 1);
      while blockBaseDiff > 0
        invariant s.n <= n <= target && blockBaseDiff == (target - n) * b && currentTailIndex == (n - 1) * b
        invariant Reserving(b, s, Model(), next, link, first) && Wellformed(index)
        invariant link < n <==> link < s.n || first != None
        invariant Room(b, limit, headIndex, n)
        invariant fits <==> Fits(target - n, last, canAlloc)
        decreases blockBaseDiff
      {
        RoundOfReservation(b, limit, headIndex, n, target);
        blockBaseDiff := blockBaseDiff - b;
        currentTailIndex := currentTailIndex + b;
        var newBlock := NextReserved(currentTailIndex, canAlloc, junk, tailIndex % b != 0 || first.Some?, s, link,
                                     first, target, last);
        if newBlock.None? {
          RollBack(first, startBlock, s, link);
          return false, None, startBlock;
        }
        first := if first.None? then newBlock else first;
      }
      RoundOfReservation(b, limit, headIndex, n, target);
      NoneNeededFits(last, canAlloc);
      return true, first, tailBlock;
    }

    lemma NoneNeededFits(last: nat, canAlloc: bool)
      requires Wellformed(index)
      ensures Fits(0, last, canAlloc)
    {
    }

    /** One round: the next block is had, and the others fit exactly if all did; or it is not, and they did not. */
    method NextReserved(base: nat, canAlloc: bool, junk: Option<nat>, owned: bool, ghost s: State<T>, ghost link: nat,
                        ghost first: Option<nat>, ghost target: nat, ghost last: nat) returns (r: Option<nat>)
      requires Wellformed(index) && Reserving(b, s, Model(), next, link, first)
      requires base == n * b && (owned <==> link < n)
      requires n < target && (Full(b, limit, headIndex, base) ==> Full(b, limit, headIndex, last))
      requires n + 1 == target ==> last == base
      modifies this`index, this`indexHeapLeft, this`origin, this`pool, this`heapLeft, this`counts
      modifies this`held, this`n, this`next, this`tailBlock
      ensures r.None? ==>
        n == old(n) && Reserving(b, s, Model(), next, link, first) && !old(Fits(target - n, last, canAlloc))
      ensures r.Some? ==> n == old(n) + 1 && Reserving(b, s, Model(), next, link, if first == None then r else first)
      ensures r.Some? ==> (link < n <==> link < s.n || (if first == None then r else first) != None)
      ensures r.Some? ==> Room(b, limit, headIndex, n) && Wellformed(index)
      ensures r.Some? ==> (old(Fits(target - n, last, canAlloc)) <==> Fits(target - n, last, canAlloc))
    {
      hide Reserving, Room, Full, IndexCovers, RoomOneLess, Free, BlocksLeft, BlockLeft;
      ghost var was, heap, blocks, needed := index, indexHeapLeft, BlocksLeft(canAlloc), target - n;
      if Full(b, limit, headIndex, base) || !IndexSlotLeft(canAlloc) || !BlockLeft(canAlloc) {
        DoesNotFit(needed, base, last, canAlloc);
      }
      r := ReserveBlock(base, canAlloc, junk, owned, s, link, first);
      if r.Some? {
        StillWellformed(was, heap, canAlloc);
        FitsOneLess(needed, last, canAlloc, was, heap, blocks);
      }
    }

    lemma StillWellformed(was: Index, heap: nat, canAlloc: bool)
      requires RoomOneLess(was, heap, index, indexHeapLeft, canAlloc)
      ensures Wellformed(index)
    {
    }

    /** The innermost loop of enqueue_bulk (2717-2719). */
    method FillBlock(xs: seq<T>, startTailIndex: nat, from: nat, stopIndex: nat)
      requires startTailIndex <= from <= stopIndex <= startTailIndex + |xs|
      requires Core(b, Model()) && |log| == from && stopIndex <= n * b
      requires forall j: nat :: from <= j < stopIndex ==> j / b in held && held[j / b] == tailBlock
      modifies this`cells, this`log
      ensures Core(b, Model()) && log == old(log) + xs[from - startTailIndex..stopIndex - startTailIndex]
    {
      hide Core;
      var currentTailIndex := from;
      while currentTailIndex != stopIndex
        invariant from <= currentTailIndex <= stopIndex && |log| == currentTailIndex && Core(b, Model())
        invariant log == old(log) + xs[from - startTailIndex..currentTailIndex - startTailIndex]
      {
        ghost var s := Model();
        WrittenKeepsCore(b, s, tailBlock, xs[currentTailIndex - startTailIndex]);
        cells := cells[(tailBlock, currentTailIndex % b) := xs[currentTailIndex - startTailIndex]];
        log := log + [xs[currentTailIndex - startTailIndex]];
        currentTailIndex := currentTailIndex + 1;
        assert Model() == Written(b, s, tailBlock, xs[currentTailIndex - 1 - startTailIndex]);
      }
    }

    /** The blocks are filled one after the other (2703-2772). */
    method FillBlocks(xs: seq<T>, endBlock: nat)
      requires b > 0 && |log| == tailIndex && n == Blocks(b, tailIndex + |xs|)
      requires Linked(held, next, tailIndex / b, n)
      requires Filling(held, tailIndex / b, n, tailIndex / b, tailBlock, endBlock)
      requires Core(b, Model())
      modifies this`cells, this`log, this`tailBlock
      ensures Core(b, Model()) && log == old(log) + xs && tailBlock == endBlock
    {
      hide Core, Linked, Blocks, StopIndex, Filling;
      var startTailIndex := tailIndex;
      var newTailIndex := startTailIndex + |xs|;
      var currentTailIndex := startTailIndex;
      ghost var link, k := tailIndex / b, tailIndex / b;
      while true
        invariant startTailIndex <= currentTailIndex <= newTailIndex && Core(b, Model())
        invariant |log| == currentTailIndex && log == old(log) + xs[..currentTailIndex - startTailIndex]
        invariant k == currentTailIndex / b && Filling(held, link, n, k, tailBlock, endBlock)
        decreases n - k
      {
        FillStep(b, held, next, link, n, currentTailIndex, newTailIndex, tailBlock, endBlock);
        var stopIndex := StopIndex(b, currentTailIndex, newTailIndex);
        FillBlock(xs, startTailIndex, currentTailIndex, stopIndex);
        assert old(log) + xs[..stopIndex - startTailIndex] == log by {
          OneSliceMore(old(log), xs, currentTailIndex - startTailIndex, stopIndex - startTailIndex);
        }
        currentTailIndex := stopIndex;
        if tailBlock == endBlock {
          break;
        }
        AnyTailBlock(b, Model(), next[tailBlock].value);
        tailBlock := next[tailBlock].value;
        k := k + 1;
      }
    }

    lemma BulkCount(count: nat, canAlloc: bool)
      requires b > 0 && Valid()
      ensures Wellformed(index) && Blocks(b, tailIndex) <= Blocks(b, tailIndex + count)
      ensures Enough(count, canAlloc, heapLeft, indexHeapLeft) ==> BulkFits(count, canAlloc)
    {
      hide Inv, Blocks, Room, BulkFits, Enough;
      Bounds(b, Model());
      BlocksMonotone(b, tailIndex, tailIndex + count);
      if Enough(count, canAlloc, heapLeft, indexHeapLeft) {
        EnoughFits(count, canAlloc);
      }
    }

    method EnqueueBulk(xs: seq<T>, canAlloc: bool, junk: Option<nat>) returns (ok: bool)
      requires b > 0 && Valid()
      modifies this
      ensures Valid() && headIndex == old(headIndex) && done == old(done)
      ensures log == if ok then old(log) + xs else old(log)
      ensures !ok ==> held == old(held) && tailBlock == old(tailBlock) && tailIndex == old(tailIndex)
      ensures ok <==> old(BulkFits(|xs|, canAlloc))
      ensures old(Enough(|xs|, canAlloc, heapLeft, indexHeapLeft)) ==> ok
    {
      hide Inv, Core, Reserving, Filling, Linked, Blocks, Room, BulkFits, Enough;
      BulkCount(|xs|, canAlloc);
      var startTailIndex, startBlock := tailIndex, tailBlock;
      var reserved, firstAllocatedBlock, endBlock := ReserveBlocks(|xs|, canAlloc, junk, tailIndex / b);
      if !reserved {
        return false;
      }
      ReservationReady(b, old(Model()), Model(), next, firstAllocatedBlock, |xs|);
      tailBlock := startBlock;
      if startTailIndex % b == 0 && firstAllocatedBlock.Some? {
        tailBlock := firstAllocatedBlock.value;
      }
      FillBlocks(xs, endBlock);
      BulkKeepsInv(b, Model(), startTailIndex + |xs|);
      tailIndex := startTailIndex + |xs|;
      return true;
    }
  }
}
