/** The counters of the blocks of an implicit producer beside its block index (src/util/concurrentqueue.h:
    1598-1635, 2564-2610, 2790-2868).  The machine is ConcurrentLookup with `headIndex`, `tailIndex`, a
    counter `elementsCompletelyDequeued` for each block and the pool; consumers hold ranges of tickets, and
    whether a block leaves the index is what its counter says.

    A bulk dequeue that asks for no element takes no ticket, but looks a block up and adds 0 to its counter
    all the same (2798-2858): an asker.  Counting a part of a range, clearing the entry and giving the block
    back are one step. */
module BlockCounts {
  import opened Bits
  import opened BlockIndexes
  import opened Sums
  import opened Wrappers
  import CL = ConcurrentLookup

  type Tid = nat

  /** The tickets from i to stop - 1. */
  datatype Range = Range(i: nat, stop: nat)

  datatype Asker =
    | Quiet
    | Asked(k: nat)                                  // 2954
    | Headed(k: nat, h: nat)                         // 2955
    | Tailed(k: nat, h: nat, tail: int)              // 2956
    | Keyed(k: nat, h: nat, tail: int, key: nat)     // 2961
    | Located(h: nat, slot: int)                     // 2811
    | Got(h: nat, slot: int, block: Option<nat>)     // 2858

  /** `free` is the pool; the blocks 0 to made - 1 were ever taken from it. */
  datatype State = State(
    core: CL.State, head: nat, tail: nat, counts: map<nat, nat>, ranges: seq<Range>,
    free: multiset<nat>, made: nat, askers: seq<Asker>)

  datatype Action =
    | Insert(memory: bool, junk: Option<nat>)
    | StoreTail
    | Attach(block: nat)
    | GiveUp
    | TakeBack
    | Publish(tail: nat)
    | Claim(t: Tid, m: nat)
    | Consume(t: Tid)
    | Ask(t: Tid)
    | AskStep(t: Tid)

  // ---------------------------------------------------------------- the steps

  predicate AskerFormed(s: State, a: Asker) {
    match a
    case Headed(_, h) => h < |s.core.headers|
    case Tailed(_, h, tail) => h < |s.core.headers| && 0 <= tail < |s.core.headers[h].slots|
    case Keyed(_, h, tail, _) => h < |s.core.headers| && 0 <= tail < |s.core.headers[h].slots|
    case Located(h, slot) => h < |s.core.headers| && 0 <= slot < |s.core.headers[h].slots|
    case Got(h, slot, _) => h < |s.core.headers| && 0 <= slot < |s.core.headers[h].slots|
    case _ => true
  }

  predicate Formed(s: State) {
    && CL.Formed(s.core) && |s.ranges| == |s.core.consumers|
    && forall t :: 0 <= t < |s.askers| ==> AskerFormed(s, s.askers[t])
  }

  /** The part of a range in the block of its first ticket ends here (2810-2811). */
  function End(b: nat, r: Range): nat
    requires b > 0
  {
    if r.stop < (r.i / b + 1) * b then r.stop else (r.i / b + 1) * b
  }

  function CountOf(s: State, block: nat): nat {
    if block in s.counts then s.counts[block] else 0
  }

  /** The step of a consumer that has its block: the elements are counted, and with the last one the block
      leaves the index and goes back to the pool (2598-2608, 2858-2866). */
  function FinishStep(s: State, t: Tid): State
    requires Formed(s) && t < |s.ranges|
  {
    var c, r := s.core.consumers[t], s.ranges[t];
    if !c.Got? || c.block.None? then s
    else
      var id, end := c.block.value, End(s.core.b, r);
      var count := CountOf(s, id) + if end > r.i then end - r.i else 0;
      var s1 := s.(counts := s.counts[id := count], ranges := s.ranges[t := Range(end, r.stop)]);
      var moved := s.core.consumers[t := CL.Onward(s.core, c)];
      if count == s.core.b then
        s1.(core := CL.SetValue(s.core, s.core.headers[c.h].slots[c.slot], None)
              .(held := s.core.held - {c.k}, consumers := moved),
            free := s.free + multiset{id})
      else s1.(core := s.core.(consumers := moved))
  }

  function AskOnward(s: State, a: Asker): Asker
    requires Formed(s) && AskerFormed(s, a)
  {
    match a
    case Quiet => Quiet
    case Asked(k) => Headed(k, |s.core.headers| - 1)
    case Headed(k, h) => Tailed(k, h, s.core.headers[h].tail)
    case Tailed(k, h, tail) => Keyed(k, h, tail, CL.Load(s.core, h, tail).key)
    case Keyed(k, h, tail, key) => Located(h, CL.Found(s.core, h, tail, key, k))
    case Located(h, slot) => Got(h, slot, CL.Load(s.core, h, slot).value)
    case Got(_, _, _) => Quiet
  }

  /** The asker's addition of 0 finds the counter of its block full. */
  predicate FindsFull(s: State, a: Action) {
    && a.AskStep? && a.t < |s.askers| && s.askers[a.t].Got? && s.askers[a.t].block.Some?
    && s.askers[a.t].block.value in s.counts && s.counts[s.askers[a.t].block.value] == s.core.b
  }

  function AskerStep(s: State, t: Tid): State
    requires Formed(s) && t < |s.askers|
  {
    var a := s.askers[t];
    var s1 := s.(askers := s.askers[t := AskOnward(s, a)]);
    if FindsFull(s, AskStep(t)) then
      s1.(core := CL.SetValue(s.core, s.core.headers[a.h].slots[a.slot], None),
        free := s.free + multiset{a.block.value})
    else s1
  }

  /** The producer takes a block from the pool or a new one, and resets its counter (2518, 2685). */
  function AttachStep(s: State, block: nat): State
    requires Formed(s)
  {
    if s.core.producer.TailStored? && (block in s.free || block == s.made) then
      s.(core := CL.Step(s.core, CL.Attach(block)), counts := s.counts[block := 0],
         free := s.free - multiset{block}, made := if block == s.made then s.made + 1 else s.made)
    else s
  }

  /** A block taken back goes to the pool (2676-2681). */
  function TakeBackStep(s: State): State
    requires Formed(s)
  {
    var core' := CL.TakeBackStep(s.core);
    if s.core.producer.Clearing? && s.core.pub + s.core.producer.r in s.core.held then
      s.(core := core', free := s.free + multiset{s.core.held[s.core.pub + s.core.producer.r]})
    else s.(core := core')
  }

  /** All registered blocks are needed for the elements published. */
  predicate MayPublish(s: State, tail: nat) {
    && s.core.producer.Idle? && s.tail <= tail <= s.core.n * s.core.b
    && (s.core.n > 0 ==> (s.core.n - 1) * s.core.b < tail)
  }

  /** There are m elements whose tickets the consumer may draw. */
  predicate MayClaim(s: State, t: Tid, m: nat) {
    && t < |s.ranges| && t < |s.core.consumers| && s.core.consumers[t].Ready?
    && m > 0 && s.head + m <= s.tail && s.core.b > 0
  }

  /** The claim of the blocks of the next m tickets. */
  function ClaimOf(s: State, m: nat): CL.Consumer
    requires s.core.b > 0 && m > 0
  {
    CL.Claimed(s.head / s.core.b, (s.head + m - 1) / s.core.b)
  }

  function Step(s: State, a: Action): State
    requires Formed(s)
  {
    match a
    case Insert(memory, junk) => s.(core := CL.Step(s.core, CL.Insert(memory, junk)))
    case StoreTail => s.(core := CL.Step(s.core, CL.StoreTail))
    case Attach(block) => AttachStep(s, block)
    case GiveUp => s.(core := CL.Step(s.core, CL.GiveUp))
    case TakeBack => TakeBackStep(s)
    case Publish(tail) =>
      if MayPublish(s, tail) then s.(core := s.core.(pub := s.core.n), tail := tail) else s
    case Claim(t, m) =>
      if MayClaim(s, t, m) then
        s.(core := s.core.(consumers := s.core.consumers[t := ClaimOf(s, m)]),
           ranges := s.ranges[t := Range(s.head, s.head + m)], head := s.head + m)
      else s
    case Consume(t) =>
      if t >= |s.ranges| then s
      else if s.core.consumers[t].Got? then FinishStep(s, t)
      else s.(core := s.core.(consumers := s.core.consumers[t := CL.Onward(s.core, s.core.consumers[t])]))
    case Ask(t) =>
      if t < |s.askers| && s.askers[t].Quiet? && s.head < s.tail
      then s.(askers := s.askers[t := Asked(s.head / s.core.b)]) else s
    case AskStep(t) => if t < |s.askers| then AskerStep(s, t) else s
  }

  function Init(b: nat, cap: nat, junk: Option<nat>, threads: nat, askers: nat): State
    requires cap > 0
  {
    State(CL.Init(b, cap, junk, threads), 0, 0, map[], seq(threads, _ => Range(0, 0)), multiset{}, 0,
          seq(askers, _ => Quiet))
  }

  // ---------------------------------------------------------------- the accounts

  /** The tickets of a range among the b tickets from lo on. */
  function Among(lo: nat, b: nat, r: Range): nat {
    var first, last := if r.i < lo then lo else r.i, if r.stop < lo + b then r.stop else lo + b;
    if first < last then last - first else 0
  }

  function TicketsIn(b: nat, k: nat): Range -> nat {
    (r: Range) => Among(k * b, b, r)
  }

  /** The tickets of block k that nobody has drawn yet, enqueued or not. */
  function Undrawn(b: nat, head: nat, k: nat): nat {
    if head < k * b then b else if head < k * b + b then k * b + b - head else 0
  }

  /** The tickets of block k that are not counted yet. */
  function Open(s: State, k: nat): nat {
    Undrawn(s.core.b, s.head, k) + Sum(s.ranges, TicketsIn(s.core.b, k))
  }

  predicate RangeOk(s: State, t: Tid)
    requires t < |s.ranges| == |s.core.consumers|
  {
    var c, r := s.core.consumers[t], s.ranges[t];
    if c.Ready? then r.i == r.stop
    else r.i < r.stop <= s.head && s.core.b > 0 && c.k == r.i / s.core.b && c.last == (r.stop - 1) / s.core.b
  }

  ghost predicate Places(held: Held, free: multiset<nat>, made: nat) {
    && (forall id: nat :: free[id] + (if id in held.Values then 1 else 0) == if id < made then 1 else 0)
    && (forall j <- held, k <- held :: held[j] == held[k] ==> j == k)
  }

  /** The counter of a block in use and its open tickets are the size of a block, and a published block is in use
      exactly while it has open tickets. */
  ghost predicate CountsOk(s: State) {
    && (forall k <- s.core.held :: s.core.held[k] in s.counts && s.counts[s.core.held[k]] + Open(s, k) == s.core.b)
    && (forall k <- s.core.held :: Open(s, k) > 0)
    && (forall k: nat :: k < s.core.pub && Open(s, k) > 0 ==> k in s.core.held)
  }

  ghost predicate Accounts(s: State)
    requires |s.ranges| == |s.core.consumers|
  {
    && s.core.b >= 2 && s.head <= s.tail <= s.core.pub * s.core.b
    && (forall t :: 0 <= t < |s.ranges| ==> RangeOk(s, t))
    && CountsOk(s) && Places(s.core.held, s.free, s.made)
    && (forall id <- s.counts :: id < s.made)
  }

  ghost predicate Inv(s: State) {
    Formed(s) && |s.ranges| == |s.core.consumers| && CL.Inv(s.core) && Accounts(s)
  }

  /** No block is in the pool twice, or in the pool and in use. */
  ghost predicate GivenBackOnce(s: State) {
    forall id: nat :: s.free[id] + (if id in s.core.held.Values then 1 else 0) <= 1
  }

  lemma InvMeansOnce(s: State)
    requires Inv(s)
    ensures GivenBackOnce(s)
  {
    hide Formed, CL.Inv, CountsOk, RangeOk;
  }

  // ---------------------------------------------------------------- arithmetic of ranges

  /** A block that has no ticket below the head. */
  lemma {:induction false} NothingDrawn(ranges: seq<Range>, b: nat, k: nat)
    requires forall t :: 0 <= t < |ranges| ==> ranges[t].stop <= k * b || ranges[t].i == ranges[t].stop
    ensures Sum(ranges, TicketsIn(b, k)) == 0
  {
    SumOfZeros(ranges, TicketsIn(b, k));
  }

  lemma UnpublishedIsOpen(s: State, k: nat)
    requires |s.ranges| == |s.core.consumers| && s.core.b > 0 && s.head <= s.core.pub * s.core.b && s.core.pub <= k
    requires forall t :: 0 <= t < |s.ranges| ==> RangeOk(s, t)
    ensures Open(s, k) == s.core.b
  {
    MulMonotone(s.core.pub, k, s.core.b);
    forall t | 0 <= t < |s.ranges| ensures s.ranges[t].stop <= k * s.core.b || s.ranges[t].i == s.ranges[t].stop {
      assert RangeOk(s, t);
    }
    NothingDrawn(s.ranges, s.core.b, k);
    hide Sum;
  }

  /** The block of a ticket. */
  lemma BlockOf(b: nat, i: nat, k: nat)
    requires b > 0
    ensures i / b == k <==> k * b <= i < k * b + b
    ensures i / b <= k <==> i < k * b + b
    ensures i / b >= k <==> i >= k * b
  {
    DivMod(i, b);
    var q := i / b;
    if q < k {
      MulMonotone(q + 1, k, b);
      assert (q + 1) * b == q * b + b;
    } else if q > k {
      MulMonotone(k + 1, q, b);
      assert (k + 1) * b == k * b + b;
    }
  }

  /** A consumer that works in block k has a ticket of it. */
  lemma PinsHaveTickets(b: nat, r: Range, k: nat)
    requires b > 0 && r.i < r.stop && r.i / b <= k <= (r.stop - 1) / b
    ensures TicketsIn(b, k)(r) > 0
  {
    BlockOf(b, r.i, k);
    BlockOf(b, r.stop - 1, k);
  }

  /** Drawing m tickets moves them from the undrawn ones to a range. */
  lemma DrawnTickets(b: nat, head: nat, m: nat, k: nat)
    ensures Undrawn(b, head, k) == Undrawn(b, head + m, k) + TicketsIn(b, k)(Range(head, head + m))
  {
  }

  /** Counting the part of a range in its first block. */
  lemma CountedPart(b: nat, r: Range, k: nat)
    requires b > 0 && r.i < r.stop
    ensures var end := End(b, r);
      && r.i < end <= r.stop
      && TicketsIn(b, k)(r) == TicketsIn(b, k)(Range(end, r.stop)) + (if k == r.i / b then end - r.i else 0)
      && (end < r.stop ==> end / b == r.i / b + 1)
      && ((r.stop - 1) / b == r.i / b <==> end == r.stop)
  {
    var q := r.i / b;
    BlockOf(b, r.i, q);
    assert (q + 1) * b == q * b + b;
    BlockOf(b, r.stop - 1, q);
    Quotient((q + 1) * b, q + 1, 0, b);
    if k < q {
      MulMonotone(k + 1, q, b);
      assert (k + 1) * b == k * b + b;
    } else if k > q {
      MulMonotone(q + 1, k, b);
    }
  }

  // ---------------------------------------------------------------- the steps of the lookup they are

  /** The step of ConcurrentLookup this step is, if any. */
  function CoreAction(s: State, a: Action): Option<CL.Action> {
    match a
    case Insert(memory, junk) => Some(CL.Insert(memory, junk))
    case StoreTail => Some(CL.StoreTail)
    case Attach(block) => if block in s.free || block == s.made then Some(CL.Attach(block)) else None
    case GiveUp => Some(CL.GiveUp)
    case TakeBack => Some(CL.TakeBack)
    case Publish(tail) => if MayPublish(s, tail) then Some(CL.Publish) else None
    case Claim(t, m) =>
      if MayClaim(s, t, m) then Some(CL.Claim(t, ClaimOf(s, m).k, ClaimOf(s, m).last)) else None
    case Consume(t) => if t < |s.ranges| then Some(CL.Consume(t, Full(s, t))) else None
    case _ => None
  }

  /** The part the consumer counts next is the last of its block. */
  predicate Full(s: State, t: Tid)
    requires t < |s.ranges|
  {
    && t < |s.core.consumers| && s.core.consumers[t].Got? && s.core.consumers[t].block.Some? && s.core.b > 0
    && CountOf(s, s.core.consumers[t].block.value) + Part(s.core.b, s.ranges[t]) == s.core.b
  }

  /** The tickets of a range in the block of its first. */
  function Part(b: nat, r: Range): nat
    requires b > 0
  {
    if End(b, r) > r.i then End(b, r) - r.i else 0
  }

  ghost predicate Refines(s: State, a: Action)
    requires Formed(s)
  {
    Step(s, a).core == match CoreAction(s, a) { case None => s.core case Some(b) => CL.Step(s.core, b) }
  }

  lemma BlockEnds(b: nat, i: nat, j: nat)
    requires b > 0 && i / b <= j
    ensures i < j * b + b
  {
    BlockOf(b, i, j);
  }

  lemma BlockBefore(b: nat, i: nat, pub: nat)
    requires b > 0 && i < pub * b
    ensures i / b < pub
  {
    BlockOf(b, i, pub);
  }

  lemma BlocksInOrder(b: nat, i: nat, j: nat)
    requires b > 0 && i <= j
    ensures i / b <= j / b
  {
    var q := j / b;
    BlockEnds(b, j, q);
    BlockOf(b, i, q);
  }

  lemma DrawnRange(b: nat, head: nat, m: nat, pub: nat)
    requires b > 0 && m > 0 && head + m <= pub * b
    ensures head / b <= (head + m - 1) / b < pub
    ensures forall j :: head / b <= j <= (head + m - 1) / b ==> head < j * b + b
  {
    BlockBefore(b, head + m - 1, pub);
    BlocksInOrder(b, head, head + m - 1);
    forall j | head / b <= j <= (head + m - 1) / b ensures head < j * b + b {
      BlockEnds(b, head, j);
    }
  }

  lemma DrawnBlocksAreHeld(s: State, m: nat)
    requires Inv(s) && m > 0 && s.head + m <= s.tail
    ensures s.core.b > 0
    ensures var k, last := s.head / s.core.b, (s.head + m - 1) / s.core.b;
      k <= last < s.core.pub && forall j :: k <= j <= last ==> j in s.core.held
  {
    hide Inv;
    HeadInPublished(s);
    DrawnRange(s.core.b, s.head, m, s.core.pub);
    forall j | s.head / s.core.b <= j <= (s.head + m - 1) / s.core.b ensures j in s.core.held {
      OpenIsHeld(s, j);
    }
  }

  lemma HeadInPublished(s: State)
    requires Inv(s)
    ensures s.core.b >= 2 && s.head <= s.tail <= s.core.pub * s.core.b
  {
    hide Formed, CL.Inv, CountsOk, Places, RangeOk;
  }

  lemma ClaimIs(s: State, t: Tid, m: nat)
    requires Formed(s) && MayClaim(s, t, m)
    ensures Step(s, Claim(t, m)).core == s.core.(consumers := s.core.consumers[t := ClaimOf(s, m)])
  {
    hide CL.Formed, ClaimOf;
  }

  lemma ClaimTaken(s: State, t: Tid, m: nat)
    requires Inv(s) && Formed(s) && CL.Formed(s.core) && MayClaim(s, t, m)
    ensures CL.Step(s.core, CL.Claim(t, ClaimOf(s, m).k, ClaimOf(s, m).last))
         == s.core.(consumers := s.core.consumers[t := ClaimOf(s, m)])
  {
    hide Inv, Formed, CL.Formed, CL.Step;
    DrawnBlocksAreHeld(s, m);
    CL.ClaimIsTaken(s.core, t, ClaimOf(s, m).k, ClaimOf(s, m).last);
  }

  lemma ClaimRefines(s: State, t: Tid, m: nat)
    requires Inv(s) && Formed(s)
    ensures Refines(s, Claim(t, m))
  {
    Parts(s);
    hide Inv, Formed, CL.Formed, CL.Step, Step, MayClaim, ClaimOf;
    if MayClaim(s, t, m) {
      ClaimIs(s, t, m);
      ClaimTaken(s, t, m);
    } else {
      NoClaim(s, t, m);
    }
  }

  lemma NoClaim(s: State, t: Tid, m: nat)
    requires Formed(s) && !MayClaim(s, t, m)
    ensures Step(s, Claim(t, m)) == s
  {
    hide CL.Formed;
  }

  lemma OpenIsHeld(s: State, j: nat)
    requires Inv(s) && j < s.core.pub && s.head < j * s.core.b + s.core.b
    ensures j in s.core.held
  {
    hide Formed, CL.Inv, Places, RangeOk, Sum;
    assert Open(s, j) > 0;
  }

  lemma NobodyElse(s: State, t: Tid, u: Tid)
    requires Inv(s) && t < |s.ranges| && Full(s, t) && u < |s.ranges| && u != t
    ensures u < |s.core.consumers| && !CL.Pins(s.core.consumers[u], s.core.consumers[t].k)
  {
    hide Inv, Formed, Sum, TicketsIn, Undrawn, CL.Formed, CL.Inv, CountsOk, Places;
    Parts(s);
    AllRanges(s);
    var k, b := s.core.consumers[t].k, s.core.b;
    GotBlock(s, t);
    OpenOf(s, k);
    assert RangeOk(s, u) && |s.ranges| == |s.core.consumers|;
    CountedPart(b, s.ranges[t], k);
    TwoTerms(s.ranges, t, u, TicketsIn(b, k));
    if CL.Pins(s.core.consumers[u], k) {
      PinsHaveTickets(b, s.ranges[u], k);
    }
  }

  /** The guard of the lookup machine follows from the counters: with the last ticket counted no other consumer
      works in the block. */
  lemma FullMeansAlone(s: State, t: Tid)
    requires Inv(s) && t < |s.ranges| && Full(s, t)
    ensures !CL.PinnedByOther(s.core, t, s.core.consumers[t].k)
  {
    assert |s.ranges| == |s.core.consumers|;
    hide Inv, Full;
    forall u | 0 <= u < |s.core.consumers| && u != t ensures !CL.Pins(s.core.consumers[u], s.core.consumers[t].k) {
      NobodyElse(s, t, u);
    }
  }

  lemma OpenOf(s: State, k: nat)
    requires Inv(s) && k in s.core.held
    ensures s.core.held[k] in s.counts && s.counts[s.core.held[k]] + Open(s, k) == s.core.b && Open(s, k) > 0
  {
    hide Formed, CL.Inv, Places, RangeOk, Open;
  }

  /** What the lookup theorem says of a consumer that has its block, and its range. */
  lemma GotBlock(s: State, t: Tid)
    requires Inv(s) && t < |s.ranges| && s.core.consumers[t].Got?
    ensures var c, r := s.core.consumers[t], s.ranges[t];
      && c.k in s.core.held && c.k < s.core.pub && c.block == Some(s.core.held[c.k])
      && r.i < r.stop <= s.head && s.core.b >= 2 && c.k == r.i / s.core.b && c.last == (r.stop - 1) / s.core.b
      && CL.ConsumerFormed(s.core, c)
      && s.core.headers[c.h].slots[c.slot] == CL.At(CL.Cur(s.core), c.k) < |s.core.entries|
  {
    CL.ThreadOf(s.core, t);
    CL.GotEntry(s.core, s.core.consumers[t]);
    CL.CurPointers(s.core);
    assert RangeOk(s, t);
    hide CL.Inv, CountsOk, Places, Formed, CL.Formed;
    assert CL.Pins(s.core.consumers[t], s.core.consumers[t].k);
  }

  lemma ConsumeRefines(s: State, t: Tid)
    requires Inv(s)
    ensures Refines(s, Consume(t))
  {
    if t < |s.ranges| {
      if s.core.consumers[t].Got? {
        GotBlock(s, t);
        if Full(s, t) {
          FullMeansAlone(s, t);
        }
      }
      hide Inv, Accounts, CL.Inv, CL.PinnedByOther, CL.Onward, End;
    }
  }

  lemma PublishRefines(s: State, tail: nat)
    requires Inv(s)
    ensures Refines(s, Publish(tail))
  {
    hide Inv, Accounts, CL.Inv;
  }

  lemma TakeBackRefines(s: State)
    requires Inv(s)
    ensures Refines(s, TakeBack)
  {
    hide Inv, Accounts, CL.Inv, CL.TakeBackStep;
  }

  lemma AttachRefines(s: State, block: nat)
    requires Inv(s)
    ensures Refines(s, Attach(block))
  {
    hide Inv, Accounts, CL.Inv;
  }

  /** Every step but an asker's on a full counter is a step of the lookup machine or leaves it. */
  lemma StepRefines(s: State, a: Action)
    requires Inv(s) && !FindsFull(s, a)
    ensures Refines(s, a)
  {
    assert Formed(s);
    hide Inv, Formed, CL.Step, Refines, FindsFull;
    match a
    case Claim(t, m) => ClaimRefines(s, t, m);
    case Consume(t) => ConsumeRefines(s, t);
    case Publish(tail) => PublishRefines(s, tail);
    case TakeBack => TakeBackRefines(s);
    case Attach(block) => AttachRefines(s, block);
    case _ => OthersRefine(s, a);
  }

  lemma OthersRefine(s: State, a: Action)
    requires Formed(s) && !FindsFull(s, a) && !a.Claim? && !a.Consume? && !a.Publish? && !a.TakeBack? && !a.Attach?
    ensures Refines(s, a)
  {
    hide Formed, CL.Step;
  }

  // ---------------------------------------------------------------- the accounts over every step

  /** Steps that change neither ranges, counters, nor which blocks are in use. */
  lemma AccountsStay(s: State, s': State)
    requires |s.ranges| == |s.core.consumers| && Accounts(s) && |s'.core.consumers| == |s.core.consumers|
    requires s'.core.b == s.core.b && s'.core.held == s.core.held && s'.core.pub == s.core.pub
    requires forall t :: 0 <= t < |s.ranges| ==> SameClaim(s.core.consumers[t], s'.core.consumers[t])
    requires s'.head == s.head && s'.tail == s.tail && s'.counts == s.counts && s'.ranges == s.ranges
    requires s'.free == s.free && s'.made == s.made
    ensures Accounts(s')
  {
    assert forall k :: Open(s', k) == Open(s, k);
    assert forall t :: 0 <= t < |s.ranges| ==> RangeOk(s, t) ==> RangeOk(s', t);
    hide Open, RangeOk, Places;
  }

  predicate SameClaim(c: CL.Consumer, d: CL.Consumer) {
    (c.Ready? <==> d.Ready?) && (!c.Ready? ==> c.k == d.k && c.last == d.last)
  }

  lemma ProducerKeepsAccounts(s: State, a: Action)
    requires Inv(s) && (a.Insert? || a.StoreTail? || a.GiveUp?)
    ensures |Step(s, a).ranges| == |Step(s, a).core.consumers| && Accounts(Step(s, a))
  {
    CoreFrame(s.core, CoreAction(s, a).value);
    hide Formed, CL.Inv, CL.Step, Accounts;
    AccountsStay(s, Step(s, a));
  }

  lemma CoreFrame(c: CL.State, b: CL.Action)
    requires CL.Formed(c) && (b.Insert? || b.StoreTail? || b.GiveUp?)
    ensures var c' := CL.Step(c, b); c'.b == c.b && c'.held == c.held && c'.pub == c.pub && c'.consumers == c.consumers
  {
    hide Free;
  }

  lemma TakeBackFrame(c: CL.State)
    requires CL.Formed(c)
    ensures var c' := CL.TakeBackStep(c);
      && c'.b == c.b && c'.pub == c.pub && c'.consumers == c.consumers
      && c'.held == if c.producer.Clearing? then c.held - {c.pub + c.producer.r} else c.held
  {
    hide CL.OwnSlot;
  }

  lemma ClearingIsHeld(c: CL.State)
    requires CL.Inv(c) && c.producer.Clearing?
    ensures c.pub + c.producer.r in c.held
  {
    CL.CurPointers(c);
    hide CL.Formed, CL.OldInv, CL.ConsumerInv, CL.ConsumerFormed, CL.KeysInv, CL.AheadInv, CL.Distinct;
    CL.NextToTakeBack(CL.Cur(c), c.entries, c.n, c.pub, c.producer.r, c.held);
  }

  /** A block leaves its place in use for the pool. */
  lemma PlacesAfterReturn(held: Held, free: multiset<nat>, made: nat, k: nat)
    requires Places(held, free, made) && k in held
    ensures Places(held - {k}, free + multiset{held[k]}, made)
  {
    var held' := held - {k};
    forall id: nat ensures id in held'.Values <==> id in held.Values && id != held[k] {
      if id in held.Values && id != held[k] {
        var j :| j in held && held[j] == id;
        assert j in held' && held'[j] == id;
      }
      if id in held'.Values {
        var j :| j in held' && held'[j] == id;
        assert held[j] == id;
      }
    }
    assert held[k] in held.Values;
  }

  lemma PlacesAfterAttach(held: Held, free: multiset<nat>, made: nat, n: nat, block: nat)
    requires Places(held, free, made) && n !in held && (block in free || block == made)
    ensures Places(held[n := block], free - multiset{block}, if block == made then made + 1 else made)
    ensures block !in held.Values
  {
    var held' := held[n := block];
    forall id: nat ensures id in held'.Values <==> id in held.Values || id == block {
      if id in held.Values {
        var j :| j in held && held[j] == id;
        assert held'[j] == id;
      }
      assert held'[n] == block;
    }
    assert forall k <- held :: held[k] in held.Values;
  }

  /** Steps that change neither ranges nor `headIndex` change no open tickets. */
  lemma OpenStays(s: State, s': State)
    requires s'.core.b == s.core.b && s'.head == s.head && s'.ranges == s.ranges
    ensures forall k :: Open(s', k) == Open(s, k)
  {
  }

  lemma RangesStay(s: State, s': State)
    requires |s.ranges| == |s.core.consumers| && s'.core.b == s.core.b && s'.head == s.head && s'.ranges == s.ranges
    requires s'.core.consumers == s.core.consumers && forall t :: 0 <= t < |s.ranges| ==> RangeOk(s, t)
    ensures forall t :: 0 <= t < |s'.ranges| ==> RangeOk(s', t)
  {
    assert forall t :: 0 <= t < |s.ranges| ==> RangeOk(s, t) ==> RangeOk(s', t);
  }

  /** A block not published leaves. */
  lemma CountsAfterReturn(s: State, s': State, k: nat)
    requires CountsOk(s) && s'.core.b == s.core.b && s'.core.pub == s.core.pub <= k && s'.counts == s.counts
    requires s'.core.held == s.core.held - {k} && forall j :: Open(s', j) == Open(s, j)
    ensures CountsOk(s')
  {
    hide Open;
  }

  lemma CountsAfterAttach(s: State, s': State, n: nat, block: nat)
    requires CountsOk(s) && s'.core.b == s.core.b > 0
    requires s'.core.pub == s.core.pub <= n && s'.counts == s.counts[block := 0]
    requires s'.core.held == s.core.held[n := block] && n !in s.core.held && block !in s.core.held.Values
    requires Open(s, n) == s.core.b && forall j :: Open(s', j) == Open(s, j)
    ensures CountsOk(s')
  {
    hide Open;
    assert forall k <- s.core.held :: s.core.held[k] in s.core.held.Values;
  }

  lemma AllRanges(s: State)
    requires Inv(s)
    ensures |s.ranges| == |s.core.consumers| && Accounts(s) && forall t :: 0 <= t < |s.ranges| ==> RangeOk(s, t)
  {
    hide Formed, CL.Inv, CountsOk, RangeOk, Places;
  }

  lemma ClearingKeepsAccounts(s: State)
    requires Inv(s) && s.core.producer.Clearing?
    ensures |TakeBackStep(s).ranges| == |TakeBackStep(s).core.consumers| && Accounts(TakeBackStep(s))
  {
    hide Inv, Formed, CL.TakeBackStep, Places, CountsOk, RangeOk, Open, CL.Formed, CL.Inv, CL.Onward;
    Parts(s);
    var s', k := TakeBackStep(s), s.core.pub + s.core.producer.r;
    AllRanges(s);
    TakeBackFrame(s.core);
    ClearingIsHeld(s.core);
    PlacesAfterReturn(s.core.held, s.free, s.made, k);
    OpenStays(s, s');
    RangesStay(s, s');
    CountsAfterReturn(s, s', k);
  }

  lemma TakeBackKeepsAccounts(s: State)
    requires Inv(s)
    ensures |TakeBackStep(s).ranges| == |TakeBackStep(s).core.consumers| && Accounts(TakeBackStep(s))
  {
    if s.core.producer.Clearing? {
      ClearingKeepsAccounts(s);
    } else {
      AllRanges(s);
      TakeBackFrame(s.core);
      hide Inv, Formed, CL.TakeBackStep, Accounts;
      AccountsStay(s, TakeBackStep(s));
    }
  }

  lemma AttachFrame(c: CL.State, block: nat)
    requires CL.Inv(c) && c.producer.TailStored?
    ensures c.pub <= c.n && c.n !in c.held
    ensures var c' := CL.Step(c, CL.Attach(block));
      && c'.b == c.b && c'.pub == c.pub && c'.consumers == c.consumers && c'.held == c.held[c.n := block]
  {
    CL.CurPointers(c);
    hide CL.Formed, CL.OldInv, CL.ConsumerInv, CL.ConsumerFormed, CL.KeysInv, CL.AheadInv, CL.Distinct;
  }

  lemma AttachKeepsAccounts(s: State, block: nat)
    requires Inv(s) && s.core.producer.TailStored? && (block in s.free || block == s.made)
    ensures |AttachStep(s, block).ranges| == |AttachStep(s, block).core.consumers| && Accounts(AttachStep(s, block))
  {
    hide Formed, CL.Inv, CL.Step, Places, CountsOk, RangeOk, Open;
    var s' := AttachStep(s, block);
    AttachFrame(s.core, block);
    PlacesAfterAttach(s.core.held, s.free, s.made, s.core.n, block);
    UnpublishedIsOpen(s, s.core.n);
    if block in s.free {
      FreeIsMade(s, block);
    }
    OpenStays(s, s');
    RangesStay(s, s');
    CountsAfterAttach(s, s', s.core.n, block);
  }

  lemma FreeIsMade(s: State, block: nat)
    requires Places(s.core.held, s.free, s.made) && block in s.free
    ensures block < s.made
  {
  }

  /** The newly published blocks are in use and have all their tickets open. */
  lemma PublishFrame(c: CL.State)
    requires CL.Inv(c) && c.producer.Idle?
    ensures c.pub <= c.n && forall k: nat :: c.pub <= k < c.n ==> k in c.held
  {
    CL.CurPointers(c);
    hide CL.Formed, CL.OldInv, CL.ConsumerInv, CL.ConsumerFormed, CL.KeysInv, CL.AheadInv, CL.Distinct;
  }

  lemma CountsAfterPublish(s: State, s': State)
    requires CountsOk(s) && s'.core.b == s.core.b && s'.counts == s.counts && s'.core.held == s.core.held
    requires forall j :: Open(s', j) == Open(s, j)
    requires forall k: nat :: s.core.pub <= k < s'.core.pub ==> k in s.core.held
    ensures CountsOk(s')
  {
    hide Open;
  }

  lemma PublishKeepsAccounts(s: State, tail: nat)
    requires Inv(s)
    ensures |Step(s, Publish(tail)).ranges| == |Step(s, Publish(tail)).core.consumers|
    ensures Accounts(Step(s, Publish(tail)))
  {
    hide Formed, CL.Inv, Places, CountsOk, RangeOk, Open;
    var s' := Step(s, Publish(tail));
    if s.core.producer.Idle? {
      PublishFrame(s.core);
    }
    OpenStays(s, s');
    RangesStay(s, s');
    CountsAfterPublish(s, s');
  }

  /** Drawing tickets. */
  lemma OpenAfterClaim(s: State, s': State, t: Tid, m: nat, k: nat)
    requires t < |s.ranges| && s.ranges[t].i == s.ranges[t].stop && s'.core.b == s.core.b
    requires s'.head == s.head + m && s'.ranges == s.ranges[t := Range(s.head, s.head + m)]
    ensures Open(s', k) == Open(s, k)
  {
    hide Sum;
    SumUpdate(s.ranges, t, Range(s.head, s.head + m), TicketsIn(s.core.b, k));
    DrawnTickets(s.core.b, s.head, m, k);
  }

  lemma ClaimKeepsAccounts(s: State, t: Tid, m: nat)
    requires Inv(s) && MayClaim(s, t, m)
    ensures var s' := Step(s, Claim(t, m)); |s'.ranges| == |s'.core.consumers| && Accounts(s')
  {
    hide Formed, CL.Inv, Places, CountsOk, Open;
    var s' := Step(s, Claim(t, m));
    assert RangeOk(s, t);
    forall k ensures Open(s', k) == Open(s, k) {
      OpenAfterClaim(s, s', t, m, k);
    }
    CountsAfterPublish(s, s');
    forall u | 0 <= u < |s'.ranges| ensures RangeOk(s', u) {
      assert RangeOk(s, u);
    }
  }

  lemma LoadKeepsAccounts(s: State, t: Tid)
    requires Inv(s) && t < |s.ranges| && !s.core.consumers[t].Got?
    ensures var s' := Step(s, Consume(t)); |s'.ranges| == |s'.core.consumers| && Accounts(s')
  {
    var s' := Step(s, Consume(t));
    CL.ThreadOf(s.core, t);
    OnwardClaim(s.core, s.core.consumers[t]);
    hide Formed, CL.Inv, Accounts, CL.Onward;
    AccountsStay(s, s');
  }

  lemma OnwardClaim(core: CL.State, c: CL.Consumer)
    requires CL.Formed(core) && CL.ConsumerFormed(core, c) && !c.Got?
    ensures SameClaim(c, CL.Onward(core, c))
  {
    hide CL.Formed, CL.Found;
  }

  /** Counting a part: block k has that many fewer open tickets, the others as many as before. */
  lemma OpenAfterCount(s: State, s': State, t: Tid, k: nat)
    requires t < |s.ranges| && s.core.b > 0 && s.ranges[t].i < s.ranges[t].stop && s'.core.b == s.core.b
    requires s'.head == s.head && s'.ranges == s.ranges[t := Range(End(s.core.b, s.ranges[t]), s.ranges[t].stop)]
    ensures var r, end := s.ranges[t], End(s.core.b, s.ranges[t]);
      r.i < end && Open(s, k) == Open(s', k) + if k == r.i / s.core.b then end - r.i else 0
  {
    hide Sum, TicketsIn, End;
    var r := s.ranges[t];
    CountedPart(s.core.b, r, k);
    SumUpdate(s.ranges, t, Range(End(s.core.b, r), r.stop), TicketsIn(s.core.b, k));
  }

  /** The counters and who is in use after block k was counted. */
  lemma CountsAfterCount(s: State, s': State, k: nat, part: nat, full: bool)
    requires CountsOk(s) && s'.core.b == s.core.b && s'.core.pub == s.core.pub && k in s.core.held && k < s.core.pub
    requires forall i <- s.core.held, j <- s.core.held :: s.core.held[i] == s.core.held[j] ==> i == j
    requires forall j: nat :: Open(s, j) == Open(s', j) + if j == k then part else 0
    requires var id := s.core.held[k]; s'.counts == s.counts[id := CountOf(s, id) + part]
    requires full == (s'.counts[s.core.held[k]] == s.core.b)
    requires s'.core.held == if full then s.core.held - {k} else s.core.held
    ensures CountsOk(s')
  {
    hide Open;
  }

  /** Where a consumer that has its block goes. */
  lemma LocatedNext(s: State, t: Tid)
    requires CL.Formed(s.core) && t < |s.core.consumers| && s.core.consumers[t].Got?
    ensures CL.ConsumerFormed(s.core, s.core.consumers[t])
    ensures var c, d := s.core.consumers[t], CL.Onward(s.core, s.core.consumers[t]);
      if c.k < c.last then d.Located? && d.k == c.k + 1 && d.last == c.last else d.Ready?
  {
    CL.StepStaysFormed(s.core, CL.Consume(t, false));
    assert CL.ConsumerFormed(s.core, s.core.consumers[t]);
    hide CL.Formed;
  }

  lemma FinishFrame(s: State, t: Tid)
    requires Inv(s) && t < |s.ranges| && s.core.consumers[t].Got?
    ensures var c, r, s' := s.core.consumers[t], s.ranges[t], FinishStep(s, t);
      var k, end := c.k, End(s.core.b, r);
      && k in s.core.held && r.i < end <= r.stop && k == r.i / s.core.b && k < s.core.pub && s.core.b >= 2
      && s'.core.b == s.core.b && s'.core.pub == s.core.pub && s'.head == s.head && s'.tail == s.tail
      && s'.made == s.made
      && s'.ranges == s.ranges[t := Range(end, r.stop)]
      && s'.counts == s.counts[s.core.held[k] := CountOf(s, s.core.held[k]) + (end - r.i)]
      && s'.core.held == (if Full(s, t) then s.core.held - {k} else s.core.held)
      && s'.free == (if Full(s, t) then s.free + multiset{s.core.held[k]} else s.free)
      && (Full(s, t) <==> s'.counts[s.core.held[k]] == s.core.b)
      && |s'.core.consumers| == |s.core.consumers| && s'.core.consumers == s.core.consumers[t := s'.core.consumers[t]]
      && (if end == r.stop then s'.core.consumers[t].Ready?
          else s'.core.consumers[t].Located? && s'.core.consumers[t].k == k + 1 && s'.core.consumers[t].last == c.last)
  {
    hide Inv, CL.Inv, Formed, CL.Formed, Accounts, End, CountsOk, Places, RangeOk, CL.Onward;
    Parts(s);
    LocatedNext(s, t);
    GotBlock(s, t);
    CountedPart(s.core.b, s.ranges[t], s.core.consumers[t].k);
    BlockOf(s.core.b, s.ranges[t].stop - 1, s.core.consumers[t].k);
  }

  lemma FinishKeepsRange(s: State, t: Tid)
    requires Inv(s) && t < |s.ranges| && s.core.consumers[t].Got?
    ensures var s' := FinishStep(s, t); |s'.ranges| == |s.ranges| == |s'.core.consumers| && RangeOk(s', t)
  {
    hide Inv, FinishStep, End, Full, Accounts, Formed, CL.Formed, CL.Inv, CL.Onward;
    AllRanges(s);
    FinishFrame(s, t);
    GotBlock(s, t);
    CountedPart(s.core.b, s.ranges[t], s.core.consumers[t].k);
  }

  lemma FinishKeepsRanges(s: State, t: Tid, u: Tid)
    requires Inv(s) && t < |s.ranges| && s.core.consumers[t].Got? && u < |s.ranges| && u != t
    ensures var s' := FinishStep(s, t); |s'.ranges| == |s.ranges| == |s'.core.consumers| && RangeOk(s', u)
  {
    hide Inv, FinishStep, End, Full, Accounts, Formed, CL.Formed, CL.Inv, CL.Onward;
    AllRanges(s);
    FinishFrame(s, t);
    assert RangeOk(s, u);
  }

  lemma Parts(s: State)
    requires Inv(s)
    ensures Formed(s) && CL.Formed(s.core) && CL.Inv(s.core)
    ensures |s.ranges| == |s.core.consumers| && s.core.b >= 2 && s.head <= s.tail <= s.core.pub * s.core.b
    ensures CountsOk(s) && Places(s.core.held, s.free, s.made) && forall id <- s.counts :: id < s.made
    ensures forall i <- s.core.held, j <- s.core.held :: s.core.held[i] == s.core.held[j] ==> i == j
  {
    hide CL.Formed, CL.Inv, CountsOk, RangeOk;
  }

  lemma FinishKeepsCounts(s: State, t: Tid)
    requires Inv(s) && t < |s.core.consumers| && t < |s.ranges| && s.core.consumers[t].Got?
    ensures CountsOk(FinishStep(s, t))
  {
    hide Inv, FinishStep, End, Full, CountsOk, Open, Places, Formed, CL.Formed, CL.Inv, CL.Onward;
    Parts(s);
    FinishFrame(s, t);
    var s', k := FinishStep(s, t), s.core.consumers[t].k;
    forall j: nat ensures Open(s, j) == Open(s', j) + if j == k then End(s.core.b, s.ranges[t]) - s.ranges[t].i else 0 {
      OpenAfterCount(s, s', t, j);
    }
    CountsAfterCount(s, s', k, End(s.core.b, s.ranges[t]) - s.ranges[t].i, Full(s, t));
  }

  lemma FinishKeepsAccounts(s: State, t: Tid)
    requires Inv(s) && t < |s.core.consumers| && t < |s.ranges| && s.core.consumers[t].Got?
    ensures var s' := FinishStep(s, t); |s'.ranges| == |s'.core.consumers| && Accounts(s')
  {
    hide Inv, FinishStep, End, Full, CountsOk, RangeOk, Places, Formed, CL.Formed, CL.Inv, CL.Onward;
    Parts(s);
    FinishFrame(s, t);
    var s', k := FinishStep(s, t), s.core.consumers[t].k;
    FinishKeepsCounts(s, t);
    forall u | 0 <= u < |s.ranges| ensures |s'.ranges| == |s.ranges| == |s'.core.consumers| && RangeOk(s', u) {
      if u == t { FinishKeepsRange(s, t); } else { FinishKeepsRanges(s, t, u); }
    }
    PlacesAfterReturn(s.core.held, s.free, s.made, k);
    HeldIsMade(s.core.held, s.free, s.made, k);
  }

  lemma HeldIsMade(held: Held, free: multiset<nat>, made: nat, k: nat)
    requires Places(held, free, made) && k in held
    ensures held[k] < made
  {
    assert held[k] in held.Values;
  }

  // ---------------------------------------------------------------- every step and every run

  lemma AskerKeepsAccounts(s: State, a: Action)
    requires Inv(s) && (a.Ask? || a.AskStep?) && !FindsFull(s, a)
    ensures |Step(s, a).ranges| == |Step(s, a).core.consumers| && Accounts(Step(s, a))
  {
    hide CL.Inv, Accounts, AskOnward, FindsFull, CL.Formed;
    var s' := Step(s, a);
    assert s'.core == s.core;
    AccountsStay(s, s');
  }

  lemma ConsumeIs(s: State, t: Tid)
    requires Formed(s) && t < |s.ranges|
    ensures s.core.consumers[t].Got? ==> Step(s, Consume(t)) == FinishStep(s, t)
  {
    hide FinishStep, CL.Formed;
  }

  lemma ConsumeKeepsAccounts(s: State, t: Tid)
    requires Inv(s) && Formed(s) && t < |s.ranges|
    ensures var s' := Step(s, Consume(t)); |s'.ranges| == |s'.core.consumers| && Accounts(s')
  {
    hide Inv, Accounts, FinishStep, Step, CL.Formed;
    if s.core.consumers[t].Got? {
      ConsumeIs(s, t);
      FinishKeepsAccounts(s, t);
    } else {
      LoadKeepsAccounts(s, t);
    }
  }

  lemma StepKeepsAccounts(s: State, a: Action)
    requires Inv(s) && !FindsFull(s, a)
    ensures |Step(s, a).ranges| == |Step(s, a).core.consumers| && Accounts(Step(s, a))
  {
    assert Formed(s) && |s.ranges| == |s.core.consumers| && Accounts(s);
    hide Inv, Formed, Accounts, CL.Step, AttachStep, TakeBackStep, FinishStep, AskerStep, FindsFull;
    match a
    case Insert(_, _) => ProducerKeepsAccounts(s, a);
    case StoreTail => ProducerKeepsAccounts(s, a);
    case GiveUp => ProducerKeepsAccounts(s, a);
    case Attach(block) => AttachedOrNot(s, block);
    case TakeBack => TakeBackKeepsAccounts(s);
    case Publish(tail) => PublishKeepsAccounts(s, tail);
    case Claim(t, m) =>
      if MayClaim(s, t, m) { ClaimKeepsAccounts(s, t, m); }
    case Consume(t) => if t < |s.ranges| { ConsumeKeepsAccounts(s, t); }
    case Ask(_) => AskerKeepsAccounts(s, a);
    case AskStep(_) => AskerKeepsAccounts(s, a);
  }

  lemma AttachedOrNot(s: State, block: nat)
    requires Inv(s)
    ensures |AttachStep(s, block).ranges| == |AttachStep(s, block).core.consumers| && Accounts(AttachStep(s, block))
  {
    if s.core.producer.TailStored? && (block in s.free || block == s.made) {
      AttachKeepsAccounts(s, block);
    } else {
      hide CL.Inv, Accounts;
    }
  }

  /** Headers are never removed, nor do they shrink. */
  predicate HeadersGrow(c: CL.State, c': CL.State) {
    |c.headers| <= |c'.headers| && forall i :: 0 <= i < |c.headers| ==> |c'.headers[i].slots| == |c.headers[i].slots|
  }

  lemma CoreStaysFormed(c: CL.State, b: CL.Action)
    requires CL.Formed(c)
    ensures CL.Formed(CL.Step(c, b)) && HeadersGrow(c, CL.Step(c, b)) && |CL.Step(c, b).consumers| == |c.consumers|
  {
    CL.StepStaysFormed(c, b);
    hide CL.PinnedByOther, CL.Onward, Free, Slot, CL.Found, CL.GrownSlots, CL.Formed;
  }

  lemma SetValueFormed(c: CL.State, e: nat, value: Option<nat>)
    requires CL.Formed(c) && e < |c.entries|
    ensures CL.Formed(CL.SetValue(c, e, value))
  {
    var c' := CL.SetValue(c, e, value);
    forall i | 0 <= i < |c'.headers| ensures CL.HeaderFormed(c'.headers[i], |c'.entries|) {
      assert CL.HeaderFormed(c.headers[i], |c.entries|);
    }
    CL.HeadersStayFormed(c, c');
  }

  lemma ConsumerMoved(c: CL.State, held: Held, t: Tid, d: CL.Consumer)
    requires CL.Formed(c) && t < |c.consumers| && CL.ConsumerFormed(c, d)
    ensures CL.Formed(c.(held := held, consumers := c.consumers[t := d]))
  {
    hide CL.HeaderFormed;
    var c' := c.(held := held, consumers := c.consumers[t := d]);
    forall u | 0 <= u < |c'.consumers| ensures CL.ConsumerFormed(c', c'.consumers[u]) {
      if u != t {
        assert CL.ConsumerFormed(c, c.consumers[u]);
      }
    }
  }

  lemma OnwardFormed(c: CL.State, t: Tid)
    requires CL.Formed(c) && t < |c.consumers|
    ensures CL.ConsumerFormed(c, c.consumers[t]) && CL.ConsumerFormed(c, CL.Onward(c, c.consumers[t]))
  {
    assert CL.ConsumerFormed(c, c.consumers[t]);
    HeadersAreFormed(c);
    hide CL.Formed;
  }

  lemma HeadersAreFormed(c: CL.State)
    requires CL.Formed(c)
    ensures c.headers != [] && c.b >= 2
    ensures forall i :: 0 <= i < |c.headers| ==> CL.HeaderFormed(c.headers[i], |c.entries|)
  {
  }

  lemma FinishStaysFormed(s: State, t: Tid)
    requires Formed(s) && t < |s.ranges|
    ensures var c' := FinishStep(s, t).core;
      CL.Formed(c') && HeadersGrow(s.core, c') && |c'.consumers| == |s.core.consumers|
  {
    var c := s.core.consumers[t];
    OnwardFormed(s.core, t);
    HeadersAreFormed(s.core);
    hide CL.Formed, CL.Onward, End, Formed;
    if c.Got? && c.block.Some? {
      var e := s.core.headers[c.h].slots[c.slot];
      SetValueFormed(s.core, e, None);
      ConsumerMoved(s.core, s.core.held, t, CL.Onward(s.core, c));
      ConsumerMoved(CL.SetValue(s.core, e, None), s.core.held - {c.k}, t, CL.Onward(s.core, c));
    }
  }

  lemma AskersStayFormed(s: State, s': State)
    requires Formed(s) && HeadersGrow(s.core, s'.core) && s'.askers == s.askers
    ensures forall t :: 0 <= t < |s'.askers| ==> AskerFormed(s', s'.askers[t])
  {
    hide CL.Formed;
    forall t | 0 <= t < |s'.askers| ensures AskerFormed(s', s'.askers[t]) {
      assert AskerFormed(s, s.askers[t]);
    }
  }

  lemma AskOnwardFormed(s: State, t: Tid)
    requires Formed(s) && t < |s.askers|
    ensures AskerFormed(s, s.askers[t]) && AskerFormed(s, AskOnward(s, s.askers[t]))
  {
    assert AskerFormed(s, s.askers[t]);
    HeadersAreFormed(s.core);
    hide CL.Formed;
  }

  lemma AskerStaysFormed(s: State, t: Tid)
    requires Formed(s) && t < |s.askers|
    ensures Formed(AskerStep(s, t))
  {
    var s' := AskerStep(s, t);
    AskOnwardFormed(s, t);
    HeadersAreFormed(s.core);
    if FindsFull(s, AskStep(t)) {
      SetValueFormed(s.core, s.core.headers[s.askers[t].h].slots[s.askers[t].slot], None);
    }
    hide CL.Formed, AskOnward;
    assert HeadersGrow(s.core, s'.core);
    forall u | 0 <= u < |s'.askers| ensures AskerFormed(s', s'.askers[u]) {
      assert AskerFormed(s, s.askers[u]);
    }
  }

  lemma ClaimStaysFormed(s: State, t: Tid, m: nat)
    requires Formed(s)
    ensures Formed(Step(s, Claim(t, m)))
  {
    hide CL.Formed;
    var s' := Step(s, Claim(t, m));
    if s' != s {
      ConsumerMoved(s.core, s.core.held, t, s'.core.consumers[t]);
    }
    AskersStayFormed(s, s');
  }

  lemma ConsumeStaysFormed(s: State, t: Tid)
    requires Formed(s)
    ensures Formed(Step(s, Consume(t)))
  {
    var s' := Step(s, Consume(t));
    if t < |s.ranges| {
      FinishStaysFormed(s, t);
      OnwardFormed(s.core, t);
      ConsumerMoved(s.core, s.core.held, t, CL.Onward(s.core, s.core.consumers[t]));
    }
    hide CL.Formed, CL.Onward, FinishStep;
    FinishLengths(s, t);
    AskersStayFormed(s, s');
  }

  lemma FinishLengths(s: State, t: Tid)
    requires Formed(s)
    ensures t < |s.ranges| ==> |FinishStep(s, t).ranges| == |s.ranges| && FinishStep(s, t).askers == s.askers
  {
    hide CL.Formed, CL.Onward, End;
  }

  lemma ProducerStaysFormed(s: State, a: Action)
    requires Formed(s) && !a.Claim? && !a.Consume? && !a.Ask? && !a.AskStep?
    ensures Formed(Step(s, a))
  {
    var s' := Step(s, a);
    PublishFormed(s.core);
    CoreStaysFormed(s.core, CL.TakeBack);
    if a.Insert? {
      CoreStaysFormed(s.core, CL.Insert(a.memory, a.junk));
    } else if a.StoreTail? || a.GiveUp? {
      CoreStaysFormed(s.core, if a.StoreTail? then CL.StoreTail else CL.GiveUp);
    } else if a.Attach? {
      CoreStaysFormed(s.core, CL.Attach(a.block));
    }
    TakeBackIs(s.core);
    hide CL.Formed, CL.Step, CL.TakeBackStep;
    AskersStayFormed(s, s');
  }

  lemma TakeBackIs(c: CL.State)
    requires CL.Formed(c)
    ensures CL.Step(c, CL.TakeBack) == CL.TakeBackStep(c)
  {
    hide CL.Formed, CL.TakeBackStep;
  }

  lemma PublishFormed(c: CL.State)
    requires CL.Formed(c)
    ensures CL.Formed(c.(pub := c.n)) && HeadersGrow(c, c.(pub := c.n))
  {
    hide CL.HeaderFormed;
    forall t | 0 <= t < |c.consumers| ensures CL.ConsumerFormed(c.(pub := c.n), c.consumers[t]) {
      assert CL.ConsumerFormed(c, c.consumers[t]);
    }
  }

  lemma StepStaysFormed(s: State, a: Action)
    requires Formed(s)
    ensures Formed(Step(s, a))
  {
    hide Formed, CL.Step;
    match a
    case Claim(t, m) => ClaimStaysFormed(s, t, m);
    case Consume(t) => ConsumeStaysFormed(s, t);
    case Ask(t) => AskStaysFormed(s, t);
    case AskStep(t) => if t < |s.askers| { AskerStaysFormed(s, t); }
    case _ => ProducerStaysFormed(s, a);
  }

  lemma AskStaysFormed(s: State, t: Tid)
    requires Formed(s)
    ensures Formed(Step(s, Ask(t)))
  {
    hide CL.Formed;
    var s' := Step(s, Ask(t));
    forall u | 0 <= u < |s'.askers| ensures AskerFormed(s', s'.askers[u]) {
      assert AskerFormed(s, s.askers[u]);
    }
  }

  function Run(b: nat, cap: nat, junk: Option<nat>, threads: nat, askers: nat, acts: seq<Action>): (s: State)
    requires b >= 2 && cap > 0
    ensures Formed(s)
  {
    if acts == [] then Init(b, cap, junk, threads, askers)
    else
      var s, a := Run(b, cap, junk, threads, askers, acts[..|acts| - 1]), acts[|acts| - 1];
      StepStaysFormed(s, a);
      Step(s, a)
  }

  lemma StepKeepsInv(s: State, a: Action)
    requires Inv(s) && !FindsFull(s, a)
    ensures Inv(Step(s, a))
  {
    assert Formed(s) && CL.Inv(s.core);
    hide Accounts, CL.Inv, CL.Step, Step, CoreAction;
    StepStaysFormed(s, a);
    StepKeepsAccounts(s, a);
    StepRefines(s, a);
    if CoreAction(s, a).Some? {
      CL.StepKeepsInv(s.core, CoreAction(s, a).value);
    }
  }

  lemma InitIsOk(b: nat, cap: nat, junk: Option<nat>, threads: nat, askers: nat)
    requires b >= 2 && cap > 0
    ensures Inv(Init(b, cap, junk, threads, askers))
  {
    CL.RunKeepsInv(b, cap, junk, threads, []);
    hide CL.Inv;
    assert CL.Run(b, cap, junk, threads, []) == CL.Init(b, cap, junk, threads);
  }

  /** An asker finds a full counter at step n. */
  ghost predicate FindsFullAt(b: nat, cap: nat, junk: Option<nat>, threads: nat, askers: nat, acts: seq<Action>, n: nat)
    requires b >= 2 && cap > 0 && n < |acts|
  {
    FindsFull(Run(b, cap, junk, threads, askers, acts[..n]), acts[n])
  }

  lemma {:induction false} RunKeepsInv(b: nat, cap: nat, junk: Option<nat>, threads: nat, askers: nat,
                                       acts: seq<Action>, n: nat)
    requires b >= 2 && cap > 0 && n <= |acts|
    requires forall m :: 0 <= m < n ==> !FindsFullAt(b, cap, junk, threads, askers, acts, m)
    ensures Inv(Run(b, cap, junk, threads, askers, acts[..n]))
  {
    hide Inv, FindsFull, Step;
    if n == 0 {
      InitIsOk(b, cap, junk, threads, askers);
    } else {
      RunKeepsInv(b, cap, junk, threads, askers, acts, n - 1);
      assert !FindsFullAt(b, cap, junk, threads, askers, acts, n - 1);
      assert acts[..n][..n - 1] == acts[..n - 1];
      StepKeepsInv(Run(b, cap, junk, threads, askers, acts[..n - 1]), acts[n - 1]);
    }
  }

  /** The block an asker finds full is in the pool already. */
  lemma FullIsTwice(s: State, a: Action)
    requires Inv(s) && FindsFull(s, a)
    ensures !GivenBackOnce(Step(s, a))
  {
    var id := s.askers[a.t].block.value;
    hide Formed, CL.Inv, RangeOk, Open, AskOnward;
    FullIsFree(s, id);
    assert Step(s, a).free[id] == 2;
  }

  lemma FullIsFree(s: State, id: nat)
    requires Inv(s) && id in s.counts && s.counts[id] == s.core.b
    ensures s.free[id] == 1
  {
    hide Formed, CL.Inv, RangeOk, Open;
    if id in s.core.held.Values {
      var k :| k in s.core.held && s.core.held[k] == id;
      OpenOf(s, k);
    }
  }

  /** Over every run: each block is given back once, and never while it is in use, at all times exactly if no
      bulk dequeue that asked for nothing finds the counter of the block it looked up full. */
  lemma GivenBackOnceExactly(b: nat, cap: nat, junk: Option<nat>, threads: nat, askers: nat, acts: seq<Action>)
    requires b >= 2 && cap > 0
    ensures (forall n :: 0 <= n <= |acts| ==> GivenBackOnce(Run(b, cap, junk, threads, askers, acts[..n])))
       <==> (forall n :: 0 <= n < |acts| ==> !FindsFullAt(b, cap, junk, threads, askers, acts, n))
  {
    hide Inv, GivenBackOnce, Run;
    if n :| 0 <= n < |acts| && FindsFullAt(b, cap, junk, threads, askers, acts, n) {
      FirstFull(b, cap, junk, threads, askers, acts, n);
    } else {
      forall n | 0 <= n <= |acts| ensures GivenBackOnce(Run(b, cap, junk, threads, askers, acts[..n])) {
        RunKeepsInv(b, cap, junk, threads, askers, acts, n);
        InvMeansOnce(Run(b, cap, junk, threads, askers, acts[..n]));
      }
    }
  }

  lemma {:induction false} FirstFull(b: nat, cap: nat, junk: Option<nat>, threads: nat, askers: nat,
                                     acts: seq<Action>, n: nat)
    requires b >= 2 && cap > 0 && n < |acts| && FindsFullAt(b, cap, junk, threads, askers, acts, n)
    ensures exists m :: 0 <= m <= |acts| && !GivenBackOnce(Run(b, cap, junk, threads, askers, acts[..m]))
  {
    if m :| 0 <= m < n && FindsFullAt(b, cap, junk, threads, askers, acts, m) {
      hide Inv, GivenBackOnce, Run, FindsFullAt;
      FirstFull(b, cap, junk, threads, askers, acts, m);
    } else {
      hide Inv, GivenBackOnce, Step, FindsFull;
      RunKeepsInv(b, cap, junk, threads, askers, acts, n);
      FullIsTwice(Run(b, cap, junk, threads, askers, acts[..n]), acts[n]);
      assert acts[..n + 1][..n] == acts[..n];
    }
  }

  predicate NobodyAsksForNothing(acts: seq<Action>) {
    forall i :: 0 <= i < |acts| ==> !acts[i].Ask?
  }

  lemma {:induction false} AskersStayQuiet(b: nat, cap: nat, junk: Option<nat>, threads: nat, askers: nat,
                                           acts: seq<Action>)
    requires b >= 2 && cap > 0 && NobodyAsksForNothing(acts)
    ensures forall t :: 0 <= t < |Run(b, cap, junk, threads, askers, acts).askers| ==>
      Run(b, cap, junk, threads, askers, acts).askers[t].Quiet?
  {
    if acts != [] {
      AskersStayQuiet(b, cap, junk, threads, askers, acts[..|acts| - 1]);
      QuietStep(Run(b, cap, junk, threads, askers, acts[..|acts| - 1]), acts[|acts| - 1]);
    }
  }

  lemma QuietStep(s: State, a: Action)
    requires Formed(s) && !a.Ask? && forall t :: 0 <= t < |s.askers| ==> s.askers[t].Quiet?
    ensures forall t :: 0 <= t < |Step(s, a).askers| ==> Step(s, a).askers[t].Quiet?
  {
    hide CL.Formed, CL.Step, CL.TakeBackStep, CL.Onward, End;
  }

  /** If every bulk dequeue asks for something, each block is given back once in every interleaving, and every
      consumer finds its block: the runs are runs of the lookup machine with its guard. */
  lemma AskingForSomethingSuffices(b: nat, cap: nat, junk: Option<nat>, threads: nat, askers: nat, acts: seq<Action>)
    requires b >= 2 && cap > 0 && NobodyAsksForNothing(acts)
    ensures Inv(Run(b, cap, junk, threads, askers, acts)) && GivenBackOnce(Run(b, cap, junk, threads, askers, acts))
  {
    hide Inv, GivenBackOnce, Run;
    forall n | 0 <= n < |acts| ensures !FindsFullAt(b, cap, junk, threads, askers, acts, n) {
      AskersStayQuiet(b, cap, junk, threads, askers, acts[..n]);
    }
    RunKeepsInv(b, cap, junk, threads, askers, acts, |acts|);
    assert acts[..|acts|] == acts;
    InvMeansOnce(Run(b, cap, junk, threads, askers, acts));
  }

  // ---------------------------------------------------------------- a block given back twice

  /** Blocks of two elements.  A bulk dequeue that asks for nothing looks the first block up and waits; another one
      takes both elements and gives the block back; then the first adds 0 to the counter. */
  const TWICE: seq<Action> :=
    [Insert(true, None), StoreTail, Attach(0), Publish(2),
     Ask(0), AskStep(0), AskStep(0), AskStep(0), AskStep(0), AskStep(0),
     Claim(0, 2), Consume(0), Consume(0), Consume(0), Consume(0), Consume(0), Consume(0),
     AskStep(0)]

  function Twice(n: nat): State
    requires n <= |TWICE|
  {
    Run(2, 1, None, 1, 1, TWICE[..n])
  }

  lemma TwiceStep(n: nat)
    requires n < |TWICE|
    ensures Twice(n + 1) == Step(Twice(n), TWICE[n])
  {
    hide Step, Formed;
    assert TWICE[..n + 1][..n] == TWICE[..n];
  }

  /** The lookup machine with one block published. */
  function One(c: CL.Consumer): CL.State {
    CL.State(2, [Entry(0, Some(0))], [CL.Header([0], 0, 0, 1)], 1, 1, map[0 := 0], CL.Idle, [c])
  }

  function Asking(a: Asker): State {
    State(One(CL.Ready), 0, 2, map[0 := 0], [Range(0, 0)], multiset{}, 1, [a])
  }

  function Taking(c: CL.Consumer): State {
    State(One(c), 2, 2, map[0 := 0], [Range(0, 2)], multiset{}, 1, [Got(0, 0, Some(0))])
  }

  lemma TwiceInserted()
    ensures Twice(1).core == CL.Small(Entry(0, None), 1, 0, 0, map[], CL.KeyStored, CL.Ready)
    ensures Twice(1) == State(Twice(1).core, 0, 0, map[], [Range(0, 0)], multiset{}, 0, [Quiet])
  {
    TwiceInit();
    TwiceStep(0);
    hide Twice, Formed, CL.Formed, CL.TakeBackStep, CL.ConsumeStep, CL.Grow;
  }

  lemma TwiceStart()
    ensures Twice(2) == State(CL.Small(Entry(0, None), 1, 0, 0, map[], CL.TailStored, CL.Ready), 0, 0, map[],
                              [Range(0, 0)], multiset{}, 0, [Quiet])
  {
    TwiceInserted();
    TwiceStep(1);
    hide Twice, Formed, CL.Formed, CL.TakeBackStep, CL.ConsumeStep, CL.Grow;
  }

  lemma TwiceInit()
    ensures Twice(0) == State(CL.Small(Entry(INVALID, None), 0, 0, 0, map[], CL.Idle, CL.Ready), 0, 0, map[],
                              [Range(0, 0)], multiset{}, 0, [Quiet])
  {
    var s := Init(2, 1, None, 1, 1);
    assert TWICE[..0] == [] && s.core.entries == [Entry(INVALID, None)] && s.core.headers[0].slots == [0];
    assert s.core.consumers == [CL.Ready] && s.ranges == [Range(0, 0)] && s.askers == [Quiet];
  }

  lemma TwiceAttached()
    ensures Twice(3).core == CL.Small(Entry(0, Some(0)), 1, 1, 0, map[0 := 0], CL.Idle, CL.Ready)
    ensures Twice(3) == State(Twice(3).core, 0, 0, map[0 := 0], [Range(0, 0)], multiset{}, 1, [Quiet])
  {
    TwiceStart();
    TwiceStep(2);
    hide Twice, Formed, CL.Formed, CL.TakeBackStep, CL.ConsumeStep, CL.InsertStep;
  }

  lemma PublishIs(s: State, tail: nat)
    requires Formed(s) && s.core.producer.Idle? && s.tail <= tail <= s.core.n * s.core.b
    requires s.core.n > 0 && (s.core.n - 1) * s.core.b < tail
    ensures Step(s, Publish(tail)) == s.(core := s.core.(pub := s.core.n), tail := tail)
  {
    hide CL.Formed;
  }

  lemma FirstAskIs(s: State, t: Tid)
    requires Formed(s) && t < |s.askers| && s.askers[t].Quiet? && s.head < s.tail && s.core.b > 0
    ensures Step(s, Ask(t)) == s.(askers := s.askers[t := Asked(s.head / s.core.b)])
  {
    hide CL.Formed;
  }

  lemma TwiceOne()
    ensures Twice(4) == Asking(Quiet)
  {
    TwiceAttached();
    TwiceStep(3);
    hide Twice, Formed, Step;
    PublishIs(Twice(3), 2);
  }

  lemma TwicePublished()
    ensures Twice(5) == Asking(Asked(0))
  {
    TwiceOne();
    TwiceStep(4);
    hide Twice, Formed, Step;
    FirstAskIs(Twice(4), 0);
  }

  lemma AskIs(s: State, t: Tid)
    requires Formed(s) && t < |s.askers| && !s.askers[t].Got?
    ensures AskerFormed(s, s.askers[t])
    ensures Step(s, AskStep(t)) == s.(askers := s.askers[t := AskOnward(s, s.askers[t])])
  {
    hide CL.Formed, AskOnward;
  }

  lemma AskedStep(n: nat, a: Asker)
    requires 5 <= n < 10 && Twice(n) == Asking(a) && !a.Got?
    ensures AskerFormed(Asking(a), a) && Formed(Asking(a)) && Twice(n + 1) == Asking(AskOnward(Asking(a), a))
  {
    TwiceStep(n);
    hide Twice, Formed, Step, AskOnward;
    AskIs(Twice(n), 0);
  }

  lemma TwiceHeaded()
    ensures Twice(7) == Asking(Tailed(0, 0, 0))
  {
    TwicePublished();
    hide Twice, Formed, Step;
    AskedStep(5, Asked(0));
    AskedStep(6, Headed(0, 0));
  }

  lemma TwiceAsked()
    ensures Twice(10) == Asking(Got(0, 0, Some(0)))
  {
    TwiceHeaded();
    hide Twice, Formed, Step;
    AskedStep(7, Tailed(0, 0, 0));
    AskedStep(8, Keyed(0, 0, 0, 0));
    AskedStep(9, Located(0, 0));
  }

  lemma TwiceClaimed()
    ensures Twice(11) == Taking(CL.Claimed(0, 0))
  {
    TwiceAsked();
    TwiceStep(10);
    hide Twice, Formed, CL.Formed;
  }

  lemma LoadIs(s: State, t: Tid)
    requires Formed(s) && t < |s.ranges| && !s.core.consumers[t].Got?
    ensures CL.ConsumerFormed(s.core, s.core.consumers[t])
    ensures Step(s, Consume(t))
      == s.(core := s.core.(consumers := s.core.consumers[t := CL.Onward(s.core, s.core.consumers[t])]))
  {
    OnwardFormed(s.core, t);
    hide CL.Formed, CL.Onward;
  }

  lemma TakenStep(n: nat, c: CL.Consumer)
    requires 11 <= n < 16 && Twice(n) == Taking(c) && !c.Got?
    ensures Formed(Taking(c)) && CL.Formed(One(c)) && CL.ConsumerFormed(One(c), c)
    ensures Twice(n + 1) == Taking(CL.Onward(One(c), c))
  {
    TwiceStep(n);
    CoreOf(Twice(n));
    hide Twice, Formed, CL.Formed, Step, CL.Onward;
    LoadIs(Twice(n), 0);
  }

  lemma CoreOf(s: State)
    requires Formed(s)
    ensures CL.Formed(s.core)
  {
  }

  lemma TwiceLooked()
    ensures Twice(13) == Taking(CL.Tailed(0, 0, 0, 0))
  {
    TwiceClaimed();
    hide Twice, Formed, CL.Formed, Step;
    TakenStep(11, CL.Claimed(0, 0));
    TakenStep(12, CL.Headed(0, 0, 0));
  }

  lemma TwiceTaken()
    ensures Twice(16) == Taking(CL.Got(0, 0, 0, 0, Some(0)))
  {
    TwiceLooked();
    hide Twice, Formed, CL.Formed, Step;
    TakenStep(13, CL.Tailed(0, 0, 0, 0));
    TakenStep(14, CL.Keyed(0, 0, 0, 0, 0));
    TakenStep(15, CL.Located(0, 0, 0, 0));
  }

  lemma LastCount(s: State)
    requires Formed(s) && s == Taking(CL.Got(0, 0, 0, 0, Some(0)))
    ensures var s' := FinishStep(s, 0); s'.counts == map[0 := 2] && s'.askers == s.askers && s'.core.b == 2
  {
    hide CL.Formed, CL.Onward;
  }

  lemma TwiceFull()
    ensures Twice(17).counts == map[0 := 2] && Twice(17).askers == [Got(0, 0, Some(0))] && Twice(17).core.b == 2
  {
    TwiceTaken();
    TwiceStep(16);
    hide Twice, Formed, Step, FinishStep;
    ConsumeIs(Twice(16), 0);
    LastCount(Twice(16));
  }

  /** So the block is in the pool twice. */
  lemma AskingForNothingGivesBackTwice()
    ensures FindsFullAt(2, 1, None, 1, 1, TWICE, 17)
    ensures exists n :: 0 <= n <= |TWICE| && !GivenBackOnce(Twice(n))
  {
    TwiceFull();
    hide Run, GivenBackOnce;
    FirstFull(2, 1, None, 1, 1, TWICE, 17);
    var n :| 0 <= n <= |TWICE| && !GivenBackOnce(Run(2, 1, None, 1, 1, TWICE[..n]));
    assert !GivenBackOnce(Twice(n));
  }
}
