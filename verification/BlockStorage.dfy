/** The block storage of an implicit producer of src/util/concurrentqueue.h (1560-1685, 2487-2880) as
    values: which tickets are in which block, which blocks are in use, free or destroyed, and where the
    elements are, for any block size of at least two.  Tickets, that is head and tail indices, are
    naturals here; module WrappedIndices connects them to 64-bit indices. */
module BlockStorage {
  import opened Wrappers
  import opened Bits
  import opened BlockIndexes

  // ---------------------------------------------------------------- blocks and their tickets

  function Range(lo: nat, m: nat): set<nat> {
    if m == 0 then {} else Range(lo, m - 1) + {lo + m - 1}
  }

  lemma {:induction false} RangeIs(lo: nat, m: nat)
    ensures |Range(lo, m)| == m && forall i: nat :: i in Range(lo, m) <==> lo <= i < lo + m
  {
    if m > 0 {
      RangeIs(lo, m - 1);
    }
  }

  /** The tickets of block number k. */
  function Tickets(b: nat, k: nat): set<nat> {
    Range(k * b, b)
  }

  lemma TicketsAre(b: nat, k: nat)
    requires b > 0
    ensures |Tickets(b, k)| == b && forall i: nat :: i in Tickets(b, k) <==> i / b == k
  {
    RangeIs(k * b, b);
    forall i: nat ensures k * b <= i < k * b + b <==> i / b == k {
      DivMod(i, b);
      if k * b <= i < k * b + b {
        Quotient(i, k, i - k * b, b);
      }
    }
  }

  /** How many tickets of block number k are done. */
  function DoneIn(b: nat, k: nat, done: set<nat>): nat {
    |Tickets(b, k) * done|
  }

  lemma AllDone(b: nat, k: nat, done: set<nat>)
    requires b > 0
    ensures DoneIn(b, k, done) <= b && (DoneIn(b, k, done) == b <==> forall i: nat :: i / b == k ==> i in done)
  {
    TicketsAre(b, k);
    var s := Tickets(b, k);
    assert s == s * done + (s - done);
    assert |s| == |s * done| + |s - done|;
    if |s * done| == b {
      assert s - done == {};
      forall i: nat | i / b == k ensures i in done {
        assert i in s && i !in s - done;
      }
    } else {
      var i :| i in s - done;
    }
  }

  /** How many blocks the tickets below `tail` take. */
  function Blocks(b: nat, tail: nat): nat
    requires b > 0
  {
    (tail + b - 1) / b
  }

  lemma TailBlockNumber(b: nat, tail: nat)
    requires b > 0
    ensures tail % b != 0 ==> Blocks(b, tail) == tail / b + 1
    ensures tail % b == 0 ==> Blocks(b, tail) == tail / b && tail == tail / b * b
    ensures Blocks(b, tail + 1) == tail / b + 1
  {
    var q, r := tail / b, tail % b;
    DivMod(tail, b);
    assert tail + b - 1 == (q + 1) * b + (r - 1);
    if r == 0 {
      assert tail + b - 1 == q * b + (b - 1);
      Quotient(tail + b - 1, q, b - 1, b);
    } else {
      Quotient(tail + b - 1, q + 1, r - 1, b);
    }
    Quotient(tail + b, q + 1, r, b);
  }

  // ---------------------------------------------------------------- invariants

  /** A block is in use from its registration until all its tickets are done. */
  ghost predicate HeldInv(b: nat, n: nat, done: set<nat>, held: Held) {
    forall k: nat :: k in held <==> k < n && DoneIn(b, k, done) < b
  }

  /** `elementsCompletelyDequeued` of a block in use. */
  ghost predicate CountsInv(b: nat, done: set<nat>, held: Held, counts: map<nat, nat>) {
    forall k <- held :: held[k] in counts && counts[held[k]] == DoneIn(b, k, done)
  }

  /** The blocks of the queue: the free ones, last in first out, those destroyed, and how many there
      were made. */
  datatype Pool = Pool(free: seq<nat>, destroyed: set<nat>, made: nat)

  ghost predicate Distinct(held: Held) {
    forall j <- held, k <- held :: held[j] == held[k] ==> j == k
  }

  /** Every block made is in use under one number, or is in the free list once, or is destroyed. */
  ghost predicate BlocksInv(held: Held, pool: Pool) {
    && Distinct(held)
    && (forall i, j :: 0 <= i < j < |pool.free| ==> pool.free[i] != pool.free[j])
    && (forall k <- held :: held[k] < pool.made && held[k] !in pool.free && held[k] !in pool.destroyed)
    && (forall id <- pool.free :: id < pool.made && id !in pool.destroyed)
    && (forall id <- pool.destroyed :: id < pool.made)
    && (forall id: nat :: id < pool.made ==> id in pool.free || id in pool.destroyed || InUse(held, id))
  }

  ghost predicate InUse(held: Held, id: nat) {
    exists k :: k in held && held[k] == id
  }

  /** Every element not yet taken is in its block. */
  ghost predicate ElementsInv<T>(b: nat, log: seq<T>, done: set<nat>, held: Held, cells: map<(nat, nat), T>) {
    b > 0 && forall i: nat :: i < |log| && i !in done ==> Stored(b, held, cells, i, log[i])
  }

  ghost predicate Stored<T>(b: nat, held: Held, cells: map<(nat, nat), T>, i: nat, x: T)
    requires b > 0
  {
    i / b in held && (held[i / b], i % b) in cells && cells[(held[i / b], i % b)] == x
  }

  // ---------------------------------------------------------------- registering a block

  lemma NoneDone(b: nat, n: nat, done: set<nat>)
    requires b > 0 && forall i <- done :: i < n * b
    ensures DoneIn(b, n, done) == 0
  {
    RangeIs(n * b, b);
    assert Tickets(b, n) * done == {};
  }

  lemma RegisterKeepsHeld(b: nat, n: nat, done: set<nat>, held: Held, counts: map<nat, nat>, block: nat)
    requires HeldInv(b, n, done, held) && CountsInv(b, done, held, counts)
    requires DoneIn(b, n, done) == 0 && b > 0 && forall k <- held :: held[k] != block
    ensures n !in held && HeldInv(b, n + 1, done, held[n := block])
    ensures CountsInv(b, done, held[n := block], counts[block := 0])
  {
  }

  lemma RegisterKeepsElements<T>(b: nat, log: seq<T>, n: nat, done: set<nat>, held: Held, cells: map<(nat, nat), T>,
                                 block: nat)
    requires ElementsInv(b, log, done, held, cells) && n !in held
    ensures ElementsInv(b, log, done, held[n := block], cells)
  {
    forall i: nat | i < |log| && i !in done ensures Stored(b, held[n := block], cells, i, log[i]) {
      assert Stored(b, held, cells, i, log[i]);
    }
  }

  // ---------------------------------------------------------------- writing an element

  lemma WriteKeepsElements<T>(b: nat, log: seq<T>, done: set<nat>, held: Held, cells: map<(nat, nat), T>, x: T)
    requires ElementsInv(b, log, done, held, cells) && |log| / b in held
    requires Distinct(held)
    ensures ElementsInv(b, log + [x], done, held, cells[(held[|log| / b], |log| % b) := x])
  {
    var t := |log|;
    var cells' := cells[(held[t / b], t % b) := x];
    forall i: nat | i < t + 1 && i !in done ensures Stored(b, held, cells', i, (log + [x])[i]) {
      if i < t {
        assert Stored(b, held, cells, i, log[i]);
        DivMod(i, b);
        DivMod(t, b);
      }
    }
  }

  // ---------------------------------------------------------------- taking elements

  /** More tickets of block number k are done. */
  lemma MoreDone(b: nat, done: set<nat>, batch: set<nat>, k: nat)
    requires b > 0 && batch !! done && forall i <- batch :: i / b == k
    ensures DoneIn(b, k, done + batch) == DoneIn(b, k, done) + |batch| <= b
    ensures forall j: nat :: j != k ==> DoneIn(b, j, done + batch) == DoneIn(b, j, done)
  {
    TicketsAre(b, k);
    assert Tickets(b, k) * (done + batch) == Tickets(b, k) * done + batch;
    AllDone(b, k, done + batch);
    forall j: nat | j != k ensures DoneIn(b, j, done + batch) == DoneIn(b, j, done) {
      TicketsAre(b, j);
      assert Tickets(b, j) * (done + batch) == Tickets(b, j) * done;
    }
  }

  /** While tickets of the block are left, only its counter changes; then it is no longer in use. */
  lemma FinishKeepsHeld(b: nat, n: nat, done: set<nat>, done': set<nat>, held: Held, counts: map<nat, nat>, k: nat)
    requires HeldInv(b, n, done, held) && CountsInv(b, done, held, counts) && k in held
    requires DoneIn(b, k, done') <= b && forall j: nat :: j != k ==> DoneIn(b, j, done') == DoneIn(b, j, done)
    requires Distinct(held)
    ensures var counts' := counts[held[k] := DoneIn(b, k, done')];
      var held' := if DoneIn(b, k, done') == b then held - {k} else held;
      HeldInv(b, n, done', held') && CountsInv(b, done', held', counts')
  {
  }

  /** A block given back is recycled or destroyed. */
  function GivenBack(pool: Pool, block: nat, keep: bool): Pool {
    if keep then pool.(free := pool.free + [block]) else pool.(destroyed := pool.destroyed + {block})
  }

  lemma ReleaseKeepsBlocks(held: Held, pool: Pool, k: nat, keep: bool)
    requires BlocksInv(held, pool) && k in held
    ensures BlocksInv(held - {k}, GivenBack(pool, held[k], keep))
  {
    var pool' := GivenBack(pool, held[k], keep);
    forall id: nat | id < pool.made
      ensures id in pool'.free || id in pool'.destroyed || InUse(held - {k}, id)
    {
      if id in pool.free {
      } else if id == held[k] {
        assert (pool.free + [held[k]])[|pool.free|] == id;
      } else if id !in pool.destroyed {
        var j :| j in held && held[j] == id;
        assert j in held - {k} && (held - {k})[j] == id;
      }
    }
  }

  lemma TakeKeepsElements<T>(b: nat, log: seq<T>, done: set<nat>, batch: set<nat>, held: Held, cells: map<(nat, nat),
                             T>, k: nat)
    requires ElementsInv(b, log, done, held, cells)
    ensures ElementsInv(b, log, done + batch, held, cells)
    ensures DoneIn(b, k, done + batch) == b ==> ElementsInv(b, log, done + batch, held - {k}, cells)
  {
    AllDone(b, k, done + batch);
    forall i: nat | i < |log| && i !in done + batch
      ensures Stored(b, held, cells, i, log[i])
      ensures DoneIn(b, k, done + batch) == b ==> Stored(b, held - {k}, cells, i, log[i])
    {
    }
  }

  // ---------------------------------------------------------------- the pool

  lemma InUseStays(held: Held, n: nat, block: nat, id: nat)
    requires n !in held && (InUse(held, id) || id == block)
    ensures InUse(held[n := block], id)
  {
    var held' := held[n := block];
    if id == block {
      assert n in held' && held'[n] == id;
    } else {
      var k :| k in held && held[k] == id;
      assert k in held' && held'[k] == id;
    }
  }

  lemma PopKeepsBlocks(held: Held, pool: Pool, n: nat)
    requires BlocksInv(held, pool) && n !in held && pool.free != []
    ensures var last := |pool.free| - 1;
      var block := pool.free[last];
      BlocksInv(held[n := block], pool.(free := pool.free[..last])) && forall k <- held :: held[k] != block
  {
    var last := |pool.free| - 1;
    var block, rest := pool.free[last], pool.free[..last];
    assert pool.free == rest + [block];
    assert block in pool.free;
    assert block !in rest by {
      assert forall i :: 0 <= i < last ==> pool.free[i] != pool.free[last];
    }
    assert forall id <- rest :: id in pool.free;
    forall id: nat | id < pool.made && id !in rest && id !in pool.destroyed ensures InUse(held[n := block], id) {
      InUseStays(held, n, block, id);
    }
  }

  lemma FreshKeepsBlocks(held: Held, pool: Pool, n: nat)
    requires BlocksInv(held, pool) && n !in held
    ensures BlocksInv(held[n := pool.made], pool.(made := pool.made + 1)) && forall k <- held :: held[k] != pool.made
  {
    forall id: nat | id <= pool.made && id !in pool.free && id !in pool.destroyed
      ensures InUse(held[n := pool.made], id) {
      InUseStays(held, n, pool.made, id);
    }
  }

  /** Half the range of a 64-bit index. */
  const HALF: nat := 0x8000_0000_0000_0000

  /** No leeway for another block at `base`, or the sub-queue would outgrow its limit (2496, 2660). */
  predicate Full(b: nat, limit: Option<nat>, head: nat, base: nat) {
    || base + b - head >= HALF
    || (limit.Some? && (limit.value == 0 || limit.value - b < base - head))
  }

  /** The room up to the end of the last block registered. */
  predicate Room(b: nat, limit: Option<nat>, head: nat, n: nat) {
    n * b - head < HALF && (limit.Some? ==> n * b - head <= limit.value)
  }

  lemma RoomForOne(b: nat, limit: Option<nat>, head: nat, n: nat)
    requires !Full(b, limit, head, n * b)
    ensures Room(b, limit, head, n + 1)
  {
    assert (n + 1) * b == n * b + b;
  }

  lemma RoomStays(b: nat, limit: Option<nat>, head: nat, n: nat, head': nat, n': nat)
    requires Room(b, limit, head, n) && n' <= n && head <= head'
    ensures Room(b, limit, head', n')
  {
    MulMonotone(n', n, b);
  }

  lemma FullIsMonotone(b: nat, limit: Option<nat>, head: nat, n: nat, m: nat)
    requires n <= m && Full(b, limit, head, n * b)
    ensures Full(b, limit, head, m * b)
  {
    MulMonotone(n, m, b);
  }

  /** The j-th position after the tail, going round. */
  function Position(cap: nat, tail: nat, j: nat): nat
    requires tail < cap && j < cap
  {
    if tail + 1 + j < cap then tail + 1 + j else tail + 1 + j - cap
  }

  lemma NextPosition(cap: nat, p: nat)
    requires p < cap
    ensures (p + 1) % cap == if p + 1 < cap then p + 1 else 0
  {
    if p + 1 < cap {
      Quotient(p + 1, 0, p + 1, cap);
    } else {
      Quotient(p + 1, 1, 0, cap);
    }
  }

  // ---------------------------------------------------------------- the state as a value

  /** `log` holds all elements ever enqueued, `done` the tickets whose elements were taken, `n` counts
      the blocks ever registered and `held` has those in use. */
  datatype State<T> = State(
    head: nat, tail: nat, tailBlock: nat, index: Index,
    cells: map<(nat, nat), T>, counts: map<nat, nat>, pool: Pool,
    log: seq<T>, done: set<nat>, n: nat, held: Held, origin: int)

  /** The blocks in use are in the index, and no other place has them. */
  ghost predicate Found<T>(b: nat, s: State<T>) {
    IndexInv(s.index, b, s.origin, s.n, s.held) && BlocksInv(s.held, s.pool)
  }

  /** The blocks in use hold what was enqueued and not yet taken. */
  ghost predicate Filled<T>(b: nat, s: State<T>) {
    && b >= 2
    && HeldInv(b, s.n, s.done, s.held)
    && CountsInv(b, s.done, s.held, s.counts)
    && ElementsInv(b, s.log, s.done, s.held, s.cells)
    && s.head <= s.tail <= |s.log| <= s.n * b
    && (forall i <- s.done :: i < s.head)
  }

  ghost predicate Core<T>(b: nat, s: State<T>) {
    Found(b, s) && Filled(b, s)
  }

  /** Between operations the registered blocks are those the tickets need. */
  ghost predicate Inv<T>(b: nat, s: State<T>) {
    && Core(b, s)
    && |s.log| == s.tail && s.n == Blocks(b, s.tail)
    && (s.tail % b != 0 ==> s.tail / b in s.held && s.tailBlock == s.held[s.tail / b])
  }

  function Registered<T>(b: nat, s: State<T>, before: Index, origin: int, block: nat, pool: Pool): State<T>
    requires Wellformed(before)
  {
    var ix := WithKey(before, s.n * b);
    s.(index := WithValue(ix, ix.tail, Some(block)), origin := origin, counts := s.counts[block := 0], pool := pool,
       held := s.held[s.n := block], n := s.n + 1)
  }

  lemma RegisteredIsFilled<T>(b: nat, s: State<T>, before: Index, origin: int, block: nat, pool: Pool)
    requires Filled(b, s) && Wellformed(before)
    requires forall k <- s.held :: s.held[k] != block
    ensures Filled(b, Registered(b, s, before, origin, block, pool))
  {
    hide HeldInv, CountsInv, ElementsInv, DoneIn, WithValue, WithKey;
    NoneDone(b, s.n, s.done);
    RegisterKeepsHeld(b, s.n, s.done, s.held, s.counts, block);
    RegisterKeepsElements(b, s.log, s.n, s.done, s.held, s.cells, block);
    MulMonotone(s.n, s.n + 1, b);
  }

  lemma RegisteredKeepsCore<T>(b: nat, s: State<T>, before: Index, origin: int, block: nat, pool: Pool)
    requires Filled(b, s)
    requires IndexInv(before, b, origin, s.n, s.held) && Free(before.entries[NewTail(before)])
    requires BlocksInv(s.held[s.n := block], pool) && forall k <- s.held :: s.held[k] != block
    ensures Core(b, Registered(b, s, before, origin, block, pool))
  {
    RegisterKeepsIndex(before, b, origin, s.n, s.held, block);
    RegisteredIsFilled(b, s, before, origin, block, pool);
  }

  lemma NumberIsNew<T>(b: nat, s: State<T>)
    requires Core(b, s)
    ensures s.n !in s.held
  {
  }

  /** No block for the new entry: only the index may have grown. */
  function Undone<T>(b: nat, s: State<T>, before: Index, origin: int): State<T>
    requires Wellformed(before)
  {
    var ix := WithKey(before, s.n * b);
    s.(index := WithValue(Rewound(ix), ix.tail, None), origin := origin)
  }

  lemma UndoneKeepsCore<T>(b: nat, s: State<T>, before: Index, origin: int)
    requires Core(b, s)
    requires IndexInv(before, b, origin, s.n, s.held) && Free(before.entries[NewTail(before)])
    ensures Core(b, Undone(b, s, before, origin))
  {
    UndoKeepsIndex(before, b, origin, s.n, s.held);
  }

  function Written<T>(b: nat, s: State<T>, block: nat, x: T): State<T>
    requires b > 0
  {
    s.(cells := s.cells[(block, |s.log| % b) := x], log := s.log + [x])
  }

  lemma WrittenKeepsCore<T>(b: nat, s: State<T>, block: nat, x: T)
    requires Core(b, s) && |s.log| < s.n * b && |s.log| / b in s.held && s.held[|s.log| / b] == block
    ensures Core(b, Written(b, s, block, x))
  {
    WriteKeepsElements(b, s.log, s.done, s.held, s.cells, x);
  }

  lemma WrittenKeepsInv<T>(b: nat, s: State<T>, block: nat, x: T)
    requires Core(b, s) && |s.log| == s.tail && s.n == s.tail / b + 1
    requires s.tail / b in s.held && s.held[s.tail / b] == block == s.tailBlock
    ensures Inv(b, Written(b, s, block, x).(tail := s.tail + 1))
  {
    NextTicket(b, s.tail);
    WrittenKeepsCore(b, s, block, x);
  }

  lemma NextTicket(b: nat, t: nat)
    requires b > 0
    ensures t < (t / b + 1) * b && Blocks(b, t + 1) == t / b + 1
    ensures (t + 1) % b != 0 ==> (t + 1) / b == t / b
  {
    DivMod(t, b);
    TailBlockNumber(b, t);
    if t % b + 1 < b {
      Quotient(t + 1, t / b, t % b + 1, b);
    } else {
      Quotient(t + 1, t / b + 1, 0, b);
    }
  }

  /** The tickets first to first+m-1, all of one block, are done.  With the last of its tickets the
      block leaves the index and is given back. */
  function Finished<T>(b: nat, s: State<T>, first: nat, m: nat, keep: bool): State<T>
    requires b > 0 && first / b in s.held && s.held[first / b] in s.counts && Wellformed(s.index)
  {
    var k := first / b;
    var block := s.held[k];
    var s1 := s.(done := s.done + Range(first, m), counts := s.counts[block := s.counts[block] + m]);
    if s.counts[block] + m == b then
      s1.(index := WithValue(s.index, Slot(|s.index.entries|, s.origin, k), None),
          held := s.held - {k}, pool := GivenBack(s.pool, block, keep))
    else s1
  }

  lemma CountOf(b: nat, done: set<nat>, held: Held, counts: map<nat, nat>, k: nat)
    requires CountsInv(b, done, held, counts) && k in held
    ensures held[k] in counts && counts[held[k]] == DoneIn(b, k, done)
  {
  }

  lemma FinishedIsFilled<T>(b: nat, s: State<T>, first: nat, m: nat, keep: bool)
    requires Filled(b, s) && Wellformed(s.index) && first / b in s.held && first + m <= s.head
    requires Range(first, m) !! s.done && forall i <- Range(first, m) :: i / b == first / b
    requires Distinct(s.held)
    ensures Filled(b, Finished(b, s, first, m, keep))
    ensures DoneIn(b, first / b, s.done + Range(first, m)) == s.counts[s.held[first / b]] + m
  {
    hide HeldInv, CountsInv, ElementsInv, Distinct, Slot, DoneIn, WithValue, GivenBack, Range;
    var k, batch := first / b, Range(first, m);
    RangeIs(first, m);
    MoreDone(b, s.done, batch, k);
    assert forall i <- s.done + batch :: i < s.head;
    CountOf(b, s.done, s.held, s.counts, k);
    FinishKeepsHeld(b, s.n, s.done, s.done + batch, s.held, s.counts, k);
    TakeKeepsElements(b, s.log, s.done, batch, s.held, s.cells, k);
  }

  lemma FinishedIsFound<T>(b: nat, s: State<T>, first: nat, m: nat, keep: bool)
    requires Found(b, s) && first / b in s.held && s.held[first / b] in s.counts
    ensures Found(b, Finished(b, s, first, m, keep))
  {
    ReleaseKeepsIndex(s.index, b, s.origin, s.n, s.held, first / b);
    ReleaseKeepsBlocks(s.held, s.pool, first / b, keep);
  }

  lemma FinishedKeepsCore<T>(b: nat, s: State<T>, first: nat, m: nat, keep: bool)
    requires Core(b, s) && first / b in s.held && first + m <= s.head
    requires Range(first, m) !! s.done && forall i <- Range(first, m) :: i / b == first / b
    ensures Core(b, Finished(b, s, first, m, keep))
    ensures DoneIn(b, first / b, s.done + Range(first, m)) == s.counts[s.held[first / b]] + m
  {
    FinishedIsFound(b, s, first, m, keep);
    FinishedIsFilled(b, s, first, m, keep);
  }

  /** A partly filled block is not given back. */
  lemma TailBlockHeld<T>(b: nat, s: State<T>)
    requires Filled(b, s) && s.n == Blocks(b, s.tail) && s.tail % b != 0
    ensures s.tail / b in s.held
  {
    TailBlockNumber(b, s.tail);
    AllDone(b, s.tail / b, s.done);
    assert s.tail !in s.done;
  }

  /** Block number k is given back, and leaves the index, exactly if all its tickets are done. */
  ghost predicate GivesBack<T>(b: nat, s: State<T>, s': State<T>, k: nat, recycle: bool, initial: nat) {
    k in s.held &&
    if DoneIn(b, k, s'.done) == b then
      s'.held == s.held - {k} && s'.pool.made == s.pool.made &&
      // a block that was allocated is destroyed unless the queue recycles those
      if recycle || s.held[k] < initial
      then s'.pool.free == s.pool.free + [s.held[k]] && s'.pool.destroyed == s.pool.destroyed
      else s'.pool.free == s.pool.free && s'.pool.destroyed == s.pool.destroyed + {s.held[k]}
    else
      s'.held == s.held && s'.pool == s.pool
  }

  lemma FinishedGivesBack<T>(b: nat, s: State<T>, first: nat, m: nat, recycle: bool, initial: nat)
    requires Inv(b, s) && first / b in s.held && first + m <= s.head && s.held[first / b] in s.counts
    requires Range(first, m) !! s.done && forall i <- Range(first, m) :: i / b == first / b
    ensures GivesBack(b, s, Finished(b, s, first, m, recycle || s.held[first / b] < initial), first / b,
                      recycle, initial)
  {
    hide HeldInv, BlocksInv, CountsInv, ElementsInv, IndexInv;
    FinishedKeepsCore(b, s, first, m, recycle || s.held[first / b] < initial);
  }

  lemma FinishedKeepsInv<T>(b: nat, s: State<T>, first: nat, m: nat, keep: bool)
    requires Inv(b, s) && first / b in s.held && first + m <= s.head
    requires Range(first, m) !! s.done && forall i <- Range(first, m) :: i / b == first / b
    ensures Inv(b, Finished(b, s, first, m, keep))
  {
    FinishedKeepsCore(b, s, first, m, keep);
    if s.tail % b != 0 {
      TailBlockHeld(b, Finished(b, s, first, m, keep));
    }
  }

  /** What the tail index says about the next element's block. */
  lemma NextBlock<T>(b: nat, s: State<T>)
    requires Inv(b, s)
    ensures Core(b, s) && |s.log| == s.tail
    ensures s.tail % b == 0 ==> s.n == s.tail / b && s.tail == s.n * b
    ensures s.tail % b != 0 ==> s.n == s.tail / b + 1 && s.tail / b in s.held && s.tailBlock == s.held[s.tail / b]
  {
    TailBlockNumber(b, s.tail);
  }

  /** Where the part of the tickets from i to `stop` that is in the block of i ends (2810-2811). */
  function EndIndex(b: nat, i: nat, stop: nat): (end: nat)
    requires b > 0 && i < stop
    ensures i < end <= stop
  {
    DivMod(i, b);
    if stop < i - i % b + b then stop else i - i % b + b
  }

  lemma EndOfBlock(b: nat, i: nat, stop: nat)
    requires b > 0 && i < stop
    ensures forall j: nat :: i <= j < EndIndex(b, i, stop) ==> j / b == i / b
    ensures EndIndex(b, i, stop) < stop ==> EndIndex(b, i, stop) / b == i / b + 1 && EndIndex(b, i, stop) % b == 0
  {
    var end := EndIndex(b, i, stop);
    DivMod(i, b);
    forall j: nat | i <= j < end ensures j / b == i / b {
      Quotient(j, i / b, j - i / b * b, b);
    }
    if end < stop {
      assert end == (i / b + 1) * b;
      Quotient(end, i / b + 1, 0, b);
    }
  }

  ghost predicate Holds<T>(b: nat, cells: map<(nat, nat), T>, block: nat, first: nat, end: nat, log: seq<T>)
    requires b > 0 && end <= |log|
  {
    forall i: nat :: first <= i < end ==> (block, i % b) in cells && cells[(block, i % b)] == log[i]
  }

  lemma BlockHolds<T>(b: nat, log: seq<T>, done: set<nat>, held: Held, cells: map<(nat, nat), T>, first: nat, end: nat)
    requires ElementsInv(b, log, done, held, cells) && first / b in held && end <= |log|
    requires forall i: nat :: first <= i < end ==> i / b == first / b && i !in done
    ensures Holds(b, cells, held[first / b], first, end, log)
  {
    var block := held[first / b];
    forall i: nat | first <= i < end ensures (block, i % b) in cells && cells[(block, i % b)] == log[i] {
      assert Stored(b, held, cells, i, log[i]);
    }
  }

  lemma EntryOf(ix: Index, b: nat, origin: int, n: nat, held: Held, k: nat)
    requires IndexInv(ix, b, origin, n, held) && k in held
    ensures ix.entries[Slot(|ix.entries|, origin, k)].value == Some(held[k])
  {
  }

  lemma RangeInBlock(b: nat, first: nat, end: nat)
    requires b > 0 && first < end && forall i: nat :: first <= i < end ==> i / b == first / b
    ensures forall i <- Range(first, end - first) :: i / b == first / b
  {
    RangeIs(first, end - first);
  }

  /** The block and the elements of tickets of one block in use, and the state after they are taken. */
  lemma TakingFromBlock<T>(b: nat, s: State<T>, first: nat, end: nat, keep: bool)
    requires Inv(b, s) && first / b in s.held && first < end <= s.head && Untaken(first, end - first, s.done)
    requires forall i: nat :: first <= i < end ==> i / b == first / b
    ensures var k := first / b;
      && s.held[k] in s.counts && s.index.entries[Slot(|s.index.entries|, s.origin, k)].value == Some(s.held[k])
      && Holds(b, s.cells, s.held[k], first, end, s.log)
      && Inv(b, Finished(b, s, first, end - first, keep))
  {
    hide HeldInv, IndexInv, BlocksInv, CountsInv, ElementsInv, Finished, Slot, Holds, Range, Blocks;
    RangeIs(first, end - first);
    EntryOf(s.index, b, s.origin, s.n, s.held, first / b);
    CountOf(b, s.done, s.held, s.counts, first / b);
    BlockHolds(b, s.log, s.done, s.held, s.cells, first, end);
    FinishedKeepsInv(b, s, first, end - first, keep);
  }

  /** None of these tickets is done. */
  ghost predicate Untaken(lo: nat, m: nat, done: set<nat>) {
    Range(lo, m) !! done
  }

  lemma SplitRange(lo: nat, m: nat, k: nat)
    ensures Range(lo, m + k) == Range(lo, m) + Range(lo + m, k) && Range(lo, m) !! Range(lo + m, k)
  {
    hide Range;
    RangeIs(lo, m + k);
    RangeIs(lo, m);
    RangeIs(lo + m, k);
  }

  lemma Bounds<T>(b: nat, s: State<T>)
    requires Inv(b, s)
    ensures b >= 2 && Wellformed(s.index) && s.head <= s.tail == |s.log|
  {
  }

  lemma Unclaimed<T>(b: nat, s: State<T>, m: nat)
    requires Inv(b, s)
    ensures Untaken(s.head, m, s.done)
  {
    RangeIs(s.head, m);
  }

  /** The block of a ticket that is not done is in use and at the slot the lookup finds. */
  lemma TicketSlot<T>(b: nat, s: State<T>, i: nat, stop: nat)
    requires Inv(b, s) && i < stop <= s.head && Untaken(i, stop - i, s.done)
    ensures i / b in s.held && Lookup(s.index, b, i) == Slot(|s.index.entries|, s.origin, i / b)
  {
    hide BlocksInv, CountsInv, HeldInv, Slot, Lookup;
    RangeIs(i, stop - i);
    assert i !in s.done by {
      assert i in Range(i, stop - i);
    }
    assert Stored(b, s.held, s.cells, i, s.log[i]);
    LookupLands(s.index, b, s.origin, s.n, s.held, i);
  }

  /** One round of dequeue_bulk: the part is of one block, the rest is still to do, and its slot is next. */
  lemma BulkRound<T>(b: nat, s: State<T>, before: set<nat>, first: nat, i: nat, stop: nat)
    requires Inv(b, s) && first <= i < stop <= s.head
    requires Untaken(i, stop - i, s.done) && s.done == before + Range(first, i - first)
    ensures b > 0 && Wellformed(s.index)
    ensures var end := EndIndex(b, i, stop);
      && end <= |s.log| && i / b in s.held
      && Untaken(i, end - i, s.done) && (forall j: nat :: i <= j < end ==> j / b == i / b)
      && s.done + Range(i, end - i) == before + Range(first, end - first)
      && Untaken(end, stop - end, s.done + Range(i, end - i))
      && (end < stop ==>
            (Slot(|s.index.entries|, s.origin, i / b) + 1) % |s.index.entries|
              == Slot(|s.index.entries|, s.origin, end / b))
  {
    hide Inv, Range, Slot;
    Bounds(b, s);
    var end := EndIndex(b, i, stop);
    TicketSlot(b, s, i, stop);
    EndOfBlock(b, i, stop);
    SplitRange(i, end - i, stop - end);
    SplitRange(first, i - first, end - i);
    SlotShift(|s.index.entries|, s.origin, i / b, 1);
  }

  // ---------------------------------------------------------------- bulk enqueue

  function RoundDown(b: nat, i: int): int
    requires b > 0
  {
    i - i % b
  }

  /** The first block base a bulk enqueue steps over, and with the last one its blockBaseDiff (2644-2645). */
  lemma BaseBefore(b: nat, i: nat)
    requires b > 0
    ensures RoundDown(b, i - 1) == (Blocks(b, i) - 1) * b
  {
    var q := (i - 1) / b;
    assert i - 1 == q * b + (i - 1) % b;
    assert i + b - 1 == (q + 1) * b + (i - 1) % b;
    Quotient(i + b - 1, q + 1, (i - 1) % b, b);
  }

  /** One block less to go. */
  lemma NextBase(b: nat, n: nat, target: nat)
    requires n <= target && b > 0
    ensures (target - n) * b > 0 <==> n < target
    ensures (target - (n + 1)) * b == (target - n) * b - b && (n + 1 - 1) * b == (n - 1) * b + b == n * b
  {
    if n < target {
      AtLeast(target - n, b);
    }
  }

  lemma BlocksMonotone(b: nat, i: nat, j: nat)
    requires b > 0 && i <= j
    ensures Blocks(b, i) <= Blocks(b, j)
  {
    DivMod(i + b - 1, b);
    DivMod(j + b - 1, b);
    var d := Blocks(b, i) - Blocks(b, j);
    if d > 0 {
      AtLeast(d, b);
    }
  }

  /** What a bulk enqueue computes before its loop (2644), in blocks. */
  lemma BlocksNeeded(b: nat, i: nat, count: nat)
    requires b > 0
    ensures Blocks(b, i) <= Blocks(b, i + count)
    ensures RoundDown(b, i - 1) == (Blocks(b, i) - 1) * b
    ensures RoundDown(b, i + count - 1) - RoundDown(b, i - 1) == (Blocks(b, i + count) - Blocks(b, i)) * b
  {
    hide Blocks, RoundDown;
    BaseBefore(b, i);
    BaseBefore(b, i + count);
    BlocksMonotone(b, i, i + count);
  }

  /** One round of its loop; a limit that stops this round would stop the last one. */
  lemma RoundOfReservation(b: nat, limit: Option<nat>, head: nat, n: nat, target: nat)
    requires b > 0 && n <= target
    ensures (target - n) * b > 0 <==> n < target
    ensures (target - (n + 1)) * b == (target - n) * b - b && (n + 1 - 1) * b == (n - 1) * b + b == n * b
    ensures n < target && Full(b, limit, head, n * b) ==> Full(b, limit, head, (target - 1) * b)
  {
    hide Full;
    NextBase(b, n, target);
    if n < target && Full(b, limit, head, n * b) {
      FullIsMonotone(b, limit, head, n, target - 1);
    }
  }

  /** More blocks are in use, from number lo on. */
  ghost predicate Extends(before: Held, held: Held, lo: nat, n: nat) {
    && (forall k <- before :: k < lo && k in held && held[k] == before[k])
    && (forall k <- held :: k in before || lo <= k < n)
    && (forall k: nat :: lo <= k < n ==> k in held)
  }

  ghost predicate LinkAt(held: Held, next: map<nat, Option<nat>>, k: nat) {
    k in held && k + 1 in held && held[k] in next && next[held[k]] == Some(held[k + 1])
  }

  /** From number lo on, every block's `next` is the following block. */
  ghost predicate Linked(held: Held, next: map<nat, Option<nat>>, lo: nat, n: nat) {
    forall k: nat :: lo <= k < n - 1 ==> LinkAt(held, next, k)
  }

  ghost predicate Ends(held: Held, next: map<nat, Option<nat>>, lo: nat, n: nat) {
    n > lo ==> n - 1 in held && held[n - 1] in next && next[held[n - 1]] == None
  }

  /** The pointers of a reservation of the blocks lo to n-1 behind `startBlock`. */
  ghost predicate Reserved(held: Held, n: nat, lo: nat, startBlock: nat, first: Option<nat>, last: nat) {
    if n == lo then first == None && last == startBlock
    else lo < n && lo in held && n - 1 in held && first == Some(held[lo]) && last == held[n - 1]
  }

  /** The new block goes behind the last one, if that one is still the producer's (2686, 2693-2696). */
  function LinkedBehind(next: map<nat, Option<nat>>, last: nat, block: nat, owned: bool): map<nat, Option<nat>> {
    var next1 := next[block := None];
    if owned then next1[last := Some(block)] else next1
  }

  lemma LinkOneMore(held: Held, next: map<nat, Option<nat>>, lo: nat, link: nat, n: nat, last: nat, block: nat)
    requires link <= lo <= n && n !in held && Linked(held, next, link, n)
    requires Distinct(held)
    requires forall k <- held :: held[k] != block
    requires link < n ==> n - 1 in held && held[n - 1] == last
    ensures var held', next' := held[n := block], LinkedBehind(next, last, block, link < n);
      Linked(held', next', link, n + 1) && Ends(held', next', lo, n + 1)
  {
    var held', next' := held[n := block], LinkedBehind(next, last, block, link < n);
    forall k: nat | link <= k < n ensures LinkAt(held', next', k) {
      assert k == n - 1 || LinkAt(held, next, k);
    }
  }

  lemma ReservedOneMore(before: Held, held: Held, n: nat, lo: nat, startBlock: nat, first: Option<nat>, last: nat,
                        block: nat)
    requires Extends(before, held, lo, n) && n !in held && Reserved(held, n, lo, startBlock, first, last) && lo <= n
    ensures Extends(before, held[n := block], lo, n + 1)
    ensures Reserved(held[n := block], n + 1, lo, startBlock, if first == None then Some(block) else first, block)
  {
  }

  lemma BlocksAreDistinct<T>(b: nat, s: State<T>)
    requires Core(b, s)
    ensures Distinct(s.held)
  {
  }

  lemma StartOfReservation<T>(b: nat, s: State<T>, next: map<nat, Option<nat>>)
    requires Inv(b, s)
    ensures b > 0 && s.n == Blocks(b, s.tail) && Reserving(b, s, s, next, s.tail / b, None)
    ensures s.tail / b < s.n <==> s.tail % b != 0
  {
    NumbersBelow(b, s);
    hide HeldInv, CountsInv, BlocksInv, ElementsInv, IndexInv;
    NextBlock(b, s);
  }

  lemma CoreOf<T>(b: nat, s: State<T>)
    requires Inv(b, s)
    ensures b > 0 && |s.log| == s.tail && s.n == Blocks(b, s.tail)
  {
  }

  lemma NumbersBelow<T>(b: nat, s: State<T>)
    requires Inv(b, s)
    ensures forall k <- s.held :: k < s.n
  {
  }

  lemma PartsOfCore<T>(b: nat, s: State<T>)
    requires Core(b, s)
    ensures IndexInv(s.index, b, s.origin, s.n, s.held)
    ensures BlocksInv(s.held, s.pool) && Filled(b, s) && Wellformed(s.index)
  {
    hide Filled, BlocksInv;
  }

  lemma NextBaseIsValid<T>(b: nat, s: State<T>)
    requires Core(b, s)
    ensures s.n * b != INVALID
  {
    hide HeldInv, CountsInv, ElementsInv, BlocksInv;
    KeyIsValid(b, s.n);
  }

  lemma IndexIsWellformed<T>(b: nat, s: State<T>)
    requires Core(b, s)
    ensures b > 0 && Wellformed(s.index)
  {
  }

  lemma AnyTailBlock<T>(b: nat, s: State<T>, block: nat)
    requires Core(b, s)
    ensures Core(b, s.(tailBlock := block))
  {
  }

  lemma DistinctBefore(held: Held, n: nat, block: nat)
    requires n !in held && Distinct(held[n := block])
    ensures Distinct(held) && forall k <- held :: held[k] != block
  {
    var held' := held[n := block];
    forall k | k in held ensures k in held' && held'[k] == held[k] {
    }
    assert n in held';
  }

  /** Blocks are being reserved since `before`, linked from number `link` on. */
  ghost predicate Reserving<T>(b: nat, before: State<T>, s: State<T>, next: map<nat, Option<nat>>, link: nat,
                               first: Option<nat>) {
    && before.n <= s.n
    && (link == before.n || (link == before.n - 1 && link in before.held && before.held[link] == before.tailBlock))
    && Extends(before.held, s.held, before.n, s.n)
    && Reserved(s.held, s.n, before.n, before.tailBlock, first, s.tailBlock)
    && Linked(s.held, next, link, s.n) && Ends(s.held, next, before.n, s.n)
    && s == before.(index := s.index, origin := s.origin, counts := s.counts, pool := s.pool,
                    held := s.held, n := s.n, tailBlock := s.tailBlock)
    && Core(b, s)
  }

  lemma ReservationGrows(before: Held, held: Held, next: map<nat, Option<nat>>, lo: nat, link: nat, n: nat,
                         startBlock: nat, first: Option<nat>, last: nat, block: nat)
    requires Extends(before, held, lo, n) && Reserved(held, n, lo, startBlock, first, last)
    requires Linked(held, next, link, n) && link <= lo <= n && n !in held
    requires link == lo || (link == lo - 1 && link in before && before[link] == startBlock)
    requires Distinct(held[n := block])
    ensures var held', next' := held[n := block], LinkedBehind(next, last, block, link < n);
      && Extends(before, held', lo, n + 1)
      && Reserved(held', n + 1, lo, startBlock, if first == None then Some(block) else first, block)
      && Linked(held', next', link, n + 1) && Ends(held', next', lo, n + 1)
    ensures link < n <==> link < lo || first.Some?
  {
    ReservedOneMore(before, held, n, lo, startBlock, first, last, block);
    DistinctBefore(held, n, block);
    LinkOneMore(held, next, lo, link, n, last, block);
  }

  /** One more block is reserved: `now` is the state with the block registered. */
  lemma ReservingGrows<T>(b: nat, before: State<T>, s: State<T>, now: State<T>, next: map<nat, Option<nat>>, link: nat,
                          first: Option<nat>, block: nat)
    requires Reserving(b, before, s, next, link, first) && Core(b, now) && s.n !in s.held
    requires now == s.(index := now.index, origin := now.origin, counts := now.counts, pool := now.pool,
                       held := s.held[s.n := block], n := s.n + 1)
    ensures Reserving(b, before, now.(tailBlock := block), LinkedBehind(next, s.tailBlock, block, link < s.n), link,
                      if first == None then Some(block) else first)
    ensures link < s.n <==> link < before.n || first.Some?
  {
    hide Core, Extends, Reserved, Linked, Ends, Distinct, LinkedBehind;
    BlocksAreDistinct(b, now);
    AnyTailBlock(b, now, block);
    ReservationGrows(before.held, s.held, next, before.n, link, s.n, before.tailBlock, first, s.tailBlock, block);
  }

  /** No block was found; the index may have grown. */
  lemma ReservingStays<T>(b: nat, before: State<T>, s: State<T>, now: State<T>, next: map<nat, Option<nat>>, link: nat,
                          first: Option<nat>)
    requires Reserving(b, before, s, next, link, first) && Core(b, now)
    requires now == s.(index := now.index, origin := now.origin)
    ensures Reserving(b, before, now, next, link, first)
  {
    hide Core, Extends, Reserved, Linked, Ends;
  }

  /** The state is as it was, but for a grown index, other free blocks and counters of those. */
  lemma RolledBackKeepsInv<T>(b: nat, s: State<T>, s': State<T>)
    requires Inv(b, s)
    requires s' == s.(index := s'.index, origin := s'.origin, counts := s'.counts, pool := s'.pool)
    requires Found(b, s') && CountsInv(b, s.done, s.held, s'.counts)
    ensures Inv(b, s')
  {
    hide IndexInv, BlocksInv, HeldInv, ElementsInv, CountsInv, Blocks;
  }

  lemma CountsOfFewer(b: nat, done: set<nat>, before: Held, held: Held, lo: nat, n: nat, counts: map<nat, nat>)
    requires CountsInv(b, done, held, counts) && Extends(before, held, lo, n)
    ensures CountsInv(b, done, before, counts)
  {
    hide DoneIn;
  }

  lemma FewerLinks(held: Held, next: map<nat, Option<nat>>, link: nat, lo: nat, n: nat)
    requires Linked(held, next, link, n) && link <= lo
    ensures Linked(held, next, lo, n)
  {
  }

  lemma NextInChain(held: Held, next: map<nat, Option<nat>>, lo: nat, n: nat, k: nat)
    requires Linked(held, next, lo, n) && Ends(held, next, lo, n) && lo <= k < n && k in held
    ensures k + 1 < n ==> k + 1 in held
    ensures held[k] in next && next[held[k]] == if k + 1 < n then Some(held[k + 1]) else None
  {
    if k + 1 < n {
      assert LinkAt(held, next, k);
    }
  }

  /** Of the blocks added those from number m on are still in use. */
  ghost predicate Remaining(before: Held, peak: Held, held: Held, m: nat, n: nat) {
    && (forall k <- held :: k in peak && held[k] == peak[k] && (k in before || m <= k < n))
    && (forall k <- before :: k in held && held[k] == before[k] && k < m)
    && (forall k: nat :: m <= k < n ==> k in held)
  }

  /** Filling is at block number k, from number `link` on; the last one is `endBlock`. */
  ghost predicate Filling(held: Held, link: nat, n: nat, k: nat, tailBlock: nat, endBlock: nat) {
    && link <= k <= n && Distinct(held)
    && (forall j: nat :: link <= j < n ==> j in held)
    && (k < n ==> tailBlock == held[k] && endBlock == held[n - 1])
    && (k == n ==> tailBlock == endBlock)
  }

  lemma LastBase(b: nat, i: nat)
    requires b > 0
    ensures i <= Blocks(b, i) * b && (i > 0 ==> (Blocks(b, i) - 1) * b < i && (i - 1) / b == Blocks(b, i) - 1)
  {
    DivMod(i + b - 1, b);
    if i > 0 {
      BaseBefore(b, i);
      DivMod(i - 1, b);
      Quotient(i - 1, Blocks(b, i) - 1, (i - 1) % b, b);
    }
  }

  /** The part of a bulk enqueue that goes into one block (2712-2715). */
  function StopIndex(b: nat, i: nat, stop: nat): (r: nat)
    requires b > 0 && i <= stop
    ensures i <= r <= stop
  {
    DivMod(i, b);
    if stop < RoundDown(b, i) + b then stop else RoundDown(b, i) + b
  }

  lemma BlockPart(b: nat, i: nat, stop: nat)
    requires b > 0 && i <= stop
    ensures StopIndex(b, i, stop) <= Blocks(b, stop) * b
    ensures forall j: nat :: i <= j < StopIndex(b, i, stop) ==> j / b == i / b
    ensures i / b + 1 < Blocks(b, stop) ==> StopIndex(b, i, stop) / b == i / b + 1
    ensures i / b + 1 >= Blocks(b, stop) ==> StopIndex(b, i, stop) == stop
  {
    var n, end := Blocks(b, stop), StopIndex(b, i, stop);
    LastBase(b, stop);
    DivMod(i, b);
    forall j: nat | i <= j < end ensures j / b == i / b {
      Quotient(j, i / b, j - i / b * b, b);
    }
    assert RoundDown(b, i) + b == (i / b + 1) * b;
    if i / b + 1 < n {
      MulMonotone(i / b + 1, n - 1, b);
      Quotient(end, i / b + 1, 0, b);
    } else {
      MulMonotone(n, i / b + 1, b);
    }
  }

  lemma OneSliceMore<T>(log: seq<T>, xs: seq<T>, i: nat, j: nat)
    requires i <= j <= |xs|
    ensures log + xs[..i] + xs[i..j] == log + xs[..j]
  {
  }

  /** One block is filled as far as it goes; it is the last one exactly if that is all. */
  lemma FillStep(b: nat, held: Held, next: map<nat, Option<nat>>, link: nat, n: nat, i: nat, stop: nat,
                 tailBlock: nat, endBlock: nat)
    requires b > 0 && i <= stop && n == Blocks(b, stop) && Linked(held, next, link, n)
    requires Filling(held, link, n, i / b, tailBlock, endBlock)
    ensures var end := StopIndex(b, i, stop);
      && end <= n * b
      && (forall j: nat :: i <= j < end ==> j / b in held && held[j / b] == tailBlock)
      && (tailBlock == endBlock ==> end == stop)
      && (tailBlock != endBlock ==>
            && i / b < n && tailBlock in next && next[tailBlock].Some?
            && end / b == i / b + 1 && Filling(held, link, n, end / b, next[tailBlock].value, endBlock))
  {
    hide Blocks, StopIndex;
    BlockPart(b, i, stop);
    LastBase(b, stop);
    var k := i / b;
    DivMod(i, b);
    if k < n - 1 {
      assert LinkAt(held, next, k);
    }
  }

  /** The block the elements start in (2707-2712). */
  function FillStart<T>(b: nat, s: State<T>, first: Option<nat>, startBlock: nat): nat
    requires b > 0
  {
    if s.tail % b == 0 && first.Some? then first.value else startBlock
  }

  /** The reserved blocks are linked from `start` on, and there are enough of them. */
  ghost predicate ReadyToFill<T>(b: nat, s: State<T>, next: map<nat, Option<nat>>, start: nat, count: nat)
    requires b > 0
  {
    && ((s.tail + count) % b != 0 ==> s.n - 1 in s.held && s.held[s.n - 1] == s.tailBlock)
    && Linked(s.held, next, s.tail / b, s.n) && Filling(s.held, s.tail / b, s.n, s.tail / b, start, s.tailBlock)
    && |s.log| == s.tail && Core(b, s) && Core(b, s.(tailBlock := start))
  }

  lemma ReservationReady<T>(b: nat, before: State<T>, s: State<T>, next: map<nat, Option<nat>>, first: Option<nat>,
                            count: nat)
    requires Inv(b, before) && b > 0 && s.n == Blocks(b, s.tail + count)
    requires Reserving(b, before, s, next, s.tail / b, first)
    ensures ReadyToFill(b, s, next, FillStart(b, s, first, before.tailBlock), count)
  {
    hide HeldInv, CountsInv, ElementsInv, BlocksInv, IndexInv, Blocks, Linked, Ends, Core, Distinct;
    CoreOf(b, before);
    NextBlock(b, before);
    AnyTailBlock(b, s, if s.tail % b == 0 && first.Some? then first.value else before.tailBlock);
    BlocksAreDistinct(b, s);
    LastBase(b, s.tail + count);
    TailBlockNumber(b, s.tail + count);
    BlocksMonotone(b, s.tail, s.tail + count);
    TailBlockNumber(b, s.tail);
  }

  lemma BulkKeepsInv<T>(b: nat, s: State<T>, tail: nat)
    requires Core(b, s) && |s.log| == tail >= s.tail && s.n == Blocks(b, tail)
    requires tail % b != 0 ==> s.n - 1 in s.held && s.tailBlock == s.held[s.n - 1]
    ensures Inv(b, s.(tail := tail))
  {
    TailBlockNumber(b, tail);
  }

  // ---------------------------------------------------------------- what the invariant means

  /** A sub-queue never holds more elements than its limit. */
  lemma SubqueueLimit<T>(b: nat, limit: Option<nat>, s: State<T>)
    requires Inv(b, s) && Room(b, limit, s.head, s.n)
    ensures limit.Some? ==> s.tail - s.head <= limit.value
  {
    hide HeldInv, CountsInv, BlocksInv, ElementsInv, IndexInv;
  }

  /** Every ticket whose element is not yet taken finds it: the lookup leads to the entry of its block,
      and the element in that block is the one enqueued. */
  lemma UntakenIsFound<T>(b: nat, s: State<T>, i: nat)
    requires Inv(b, s) && i < s.tail && i !in s.done
    ensures b > 0 && Wellformed(s.index)
    ensures var e := s.index.entries[Lookup(s.index, b, i)];
      e.key == i / b * b && e.value.Some? && (e.value.value, i % b) in s.cells &&
        s.cells[(e.value.value, i % b)] == s.log[i]
  {
    assert Stored(b, s.held, s.cells, i, s.log[i]);
    LookupLands(s.index, b, s.origin, s.n, s.held, i);
  }

  /** Its block is in use, and the tail of the index has the base of the last block put to use. */
  lemma UntakenIsHeld<T>(b: nat, s: State<T>, i: nat)
    requires Inv(b, s) && i < s.tail && i !in s.done
    ensures b > 0 && i / b in s.held && i / b < s.n <= i / b + |s.index.entries|
    ensures Wellformed(s.index) && s.index.entries[s.index.tail].key == (s.n - 1) * b
  {
    hide Slot, HeldInv, CountsInv, BlocksInv, Blocks;
    assert Stored(b, s.held, s.cells, i, s.log[i]);
    ExactKey(s.index, b, s.origin, s.n, s.held, i / b, s.n - 1);
  }

  /** A block is out of the pool exactly while some ticket of its number is not done. */
  lemma BlocksAccounted<T>(b: nat, s: State<T>, id: nat)
    requires Inv(b, s) && id < s.pool.made
    ensures b > 0 && (id !in s.pool.free && id !in s.pool.destroyed <==>
      exists k :: k in s.held && s.held[k] == id && k < s.n && DoneIn(b, k, s.done) < b)
  {
    hide CountsInv, ElementsInv, IndexInv;
    if id !in s.pool.free && id !in s.pool.destroyed {
      assert InUse(s.held, id);
    }
  }

  lemma UndoneTicket(b: nat, n: nat, done: set<nat>, held: Held, k: nat)
    requires b > 0 && HeldInv(b, n, done, held) && k in held
    ensures exists i: nat :: i < n * b && i !in done
  {
    assert k < n && DoneIn(b, k, done) < b;
    hide HeldInv, DoneIn;
    AllDone(b, k, done);
    var i: nat :| i / b == k && i !in done;
    TicketBelow(b, i, n);
  }

  lemma TicketBelow(b: nat, i: nat, n: nat)
    requires b > 0 && i / b < n
    ensures i < n * b
  {
    DivMod(i, b);
    MulMonotone(i / b + 1, n, b);
  }

  /** When all elements of whole blocks are taken, every block is back. */
  lemma EmptyHasNoBlocks<T>(b: nat, s: State<T>)
    requires Inv(b, s) && s.tail % b == 0 && forall i: nat :: i < s.tail ==> i in s.done
    ensures s.held == map[]
  {
    hide CountsInv, ElementsInv, IndexInv, BlocksInv;
    NextBlock(b, s);
    forall k | k in s.held ensures false {
      UndoneTicket(b, s.n, s.done, s.held, k);
    }
  }
}
