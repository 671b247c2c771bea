/** The lookup of a consumer against the producer's updates of the block index, load by load and store by
    store (src/util/concurrentqueue.h:2498-2535, 2654-2700, 2902-3009).

    The producer inserts an entry by storing its key, then the header's tail, then the block; takes it
    back if there is no block; publishes the blocks with `tailIndex`; takes the unpublished ones back,
    oldest first; and replaces the header by one of twice the size that shares the old entries.  A
    consumer loads the header, its tail, the key there and the block, one step each, with any steps of
    the others in between, and goes on to the following entries of the same header in a bulk dequeue.
    Block number k has the base k*b.  A block leaves the index with the last of its tickets, so
    not while another consumer works in it; BlockCounts derives this guard from the blocks' counters. */
module ConcurrentLookup {
  import opened Bits
  import opened BlockIndexes
  import opened Wrappers

  type Tid = nat

  /** `slots` are the pointers to the entries.  `origin` and `high` are history: where the blocks belong
      and how many block numbers ever got a key while this was the header. */
  datatype Header = Header(slots: seq<nat>, tail: int, origin: int, high: nat)

  datatype Producer =
    | Idle
    | KeyStored                 // 2913
    | TailStored                // 2914
    | Failing(e: nat)           // 2511
    | Clearing(r: nat)          // 2678
    | Rewinding(r: nat)         // 2679

  /** A consumer with tickets of the blocks k to `last`. */
  datatype Consumer =
    | Ready
    | Claimed(k: nat, last: nat)                             // 2954
    | Headed(k: nat, last: nat, h: nat)                      // 2955
    | Tailed(k: nat, last: nat, h: nat, tail: int)           // 2956
    | Keyed(k: nat, last: nat, h: nat, tail: int, key: nat)  // 2961
    | Located(k: nat, last: nat, h: nat, slot: int)          // 2570, 2812
    | Got(k: nat, last: nat, h: nat, slot: int, block: Option<nat>)

  /** `n` blocks are registered, `pub` of them published, and `held` are those in use. */
  datatype State = State(
    b: nat, entries: seq<Entry>, headers: seq<Header>, n: nat, pub: nat, held: Held,
    producer: Producer, consumers: seq<Consumer>)

  datatype Action =
    | Insert(memory: bool, junk: Option<nat>)
    | StoreTail
    | Attach(block: nat)
    | GiveUp
    | Publish
    | TakeBack
    | Claim(t: Tid, first: nat, last: nat)
    | Consume(t: Tid, gone: bool)

  // ---------------------------------------------------------------- the steps

  predicate HeaderFormed(h: Header, count: nat) {
    0 <= h.tail < |h.slots| && forall x :: 0 <= x < |h.slots| ==> h.slots[x] < count
  }

  predicate ConsumerFormed(s: State, c: Consumer) {
    match c
    case Headed(_, _, h) => h < |s.headers|
    case Tailed(_, _, h, tail) => h < |s.headers| && 0 <= tail < |s.headers[h].slots|
    case Keyed(_, _, h, tail, _) => h < |s.headers| && 0 <= tail < |s.headers[h].slots|
    case Located(_, _, h, slot) => h < |s.headers| && 0 <= slot < |s.headers[h].slots|
    case Got(_, _, h, slot, _) => h < |s.headers| && 0 <= slot < |s.headers[h].slots|
    case _ => true
  }

  /** Indices and pointers are in range. */
  predicate Formed(s: State) {
    && s.b >= 2 && s.headers != []
    && (forall i :: 0 <= i < |s.headers| ==> HeaderFormed(s.headers[i], |s.entries|))
    && (s.producer.Failing? ==> s.producer.e < |s.entries|)
    && (forall t :: 0 <= t < |s.consumers| ==> ConsumerFormed(s, s.consumers[t]))
  }

  function Cur(s: State): Header
    requires s.headers != []
  {
    s.headers[|s.headers| - 1]
  }

  function WithCur(s: State, h: Header): State
    requires s.headers != []
  {
    s.(headers := s.headers[|s.headers| - 1 := h])
  }

  function SetKey(s: State, e: nat, key: nat): State
    requires e < |s.entries|
  {
    s.(entries := s.entries[e := s.entries[e].(key := key)])
  }

  function SetValue(s: State, e: nat, value: Option<nat>): State
    requires e < |s.entries|
  {
    s.(entries := s.entries[e := s.entries[e].(value := value)])
  }

  function NextTail(h: Header): int
    requires h.slots != []
  {
    (h.tail + 1) % |h.slots|
  }

  function PrevTail(h: Header): int
    requires h.slots != []
  {
    (h.tail - 1) % |h.slots|
  }

  /** new_block_index: the old pointers, oldest first, and as many new entries. */
  function GrownSlots(h: Header, count: nat): seq<nat>
    requires 0 <= h.tail < |h.slots|
  {
    h.slots[h.tail + 1..] + h.slots[..h.tail + 1] + seq(|h.slots|, i requires 0 <= i => count + i)
  }

  function Grow(s: State, junk: Option<nat>): State
    requires Formed(s)
  {
    var h := Cur(s);
    var cap := |h.slots|;
    s.(entries := s.entries + seq(cap, _ => Entry(INVALID, junk)),
       headers := s.headers + [Header(GrownSlots(h, |s.entries|), cap - 1, s.n - cap, s.n)])
  }

  /** insert_block_index_entry up to the store of the key, or the growth before it. */
  function InsertStep(s: State, memory: bool, junk: Option<nat>): State
    requires Formed(s)
  {
    var h := Cur(s);
    var e := h.slots[NextTail(h)];
    if Free(s.entries[e]) then
      WithCur(SetKey(s, e, s.n * s.b), h.(high := if h.high > s.n then h.high else s.n + 1)).(producer := KeyStored)
    else if memory then Grow(s, junk) else s
  }

  /** The slot computed from the tail and its key (2961-2962). */
  function Found(s: State, h: nat, tail: int, key: nat, k: nat): int
    requires h < |s.headers| && s.headers[h].slots != [] && s.b > 0
  {
    (tail + (k * s.b - key) / s.b) % |s.headers[h].slots|
  }

  /** The producer's own lookup, while it takes back the blocks it could not use. */
  function OwnSlot(s: State, k: nat): int
    requires Formed(s)
  {
    var h := Cur(s);
    Found(s, |s.headers| - 1, h.tail, s.entries[h.slots[h.tail]].key, k)
  }

  function TakeBackStep(s: State): State
    requires Formed(s)
  {
    match s.producer
    case Idle => if s.pub < s.n then s.(producer := Clearing(0)) else s
    case Failing(e) => SetValue(s, e, None).(producer := Idle)
    case Clearing(r) =>
      SetValue(s, Cur(s).slots[OwnSlot(s, s.pub + r)], None).(producer := Rewinding(r), held := s.held - {s.pub + r})
    case Rewinding(r) =>
      var s1 := WithCur(s, Cur(s).(tail := PrevTail(Cur(s))));
      if s.pub + r + 1 < s.n then s1.(producer := Clearing(r + 1)) else s1.(producer := Idle, n := s.pub)
    case _ => s
  }

  function Load(s: State, h: nat, slot: int): Entry
    requires Formed(s) && h < |s.headers| && 0 <= slot < |s.headers[h].slots|
  {
    s.entries[s.headers[h].slots[slot]]
  }

  /** The consumer works in block k. */
  predicate Pins(c: Consumer, k: nat) {
    !c.Ready? && c.k <= k <= c.last
  }

  predicate PinnedByOther(s: State, t: Tid, k: nat) {
    exists u :: 0 <= u < |s.consumers| && u != t && Pins(s.consumers[u], k)
  }

  function Onward(s: State, c: Consumer): Consumer
    requires Formed(s) && ConsumerFormed(s, c)
  {
    match c
    case Ready => Ready
    case Claimed(k, last) => Headed(k, last, |s.headers| - 1)
    case Headed(k, last, h) => Tailed(k, last, h, s.headers[h].tail)
    case Tailed(k, last, h, tail) => Keyed(k, last, h, tail, Load(s, h, tail).key)
    case Keyed(k, last, h, tail, key) => Located(k, last, h, Found(s, h, tail, key, k))
    case Located(k, last, h, slot) => Got(k, last, h, slot, Load(s, h, slot).value)
    case Got(k, last, h, slot, _) =>
      if k < last then Located(k + 1, last, h, (slot + 1) % |s.headers[h].slots|) else Ready
  }

  /** `gone`: it was the last ticket of the block. */
  function ConsumeStep(s: State, t: Tid, gone: bool): State
    requires Formed(s) && t < |s.consumers|
  {
    var c := s.consumers[t];
    var s1 :=
      if c.Got? && gone && !PinnedByOther(s, t, c.k)
      then SetValue(s, s.headers[c.h].slots[c.slot], None).(held := s.held - {c.k}) else s;
    s1.(consumers := s.consumers[t := Onward(s, c)])
  }

  function Step(s: State, a: Action): State
    requires Formed(s)
  {
    match a
    case Insert(memory, junk) => if s.producer.Idle? then InsertStep(s, memory, junk) else s
    case StoreTail =>
      if s.producer.KeyStored? then WithCur(s, Cur(s).(tail := NextTail(Cur(s)))).(producer := TailStored) else s
    case Attach(block) =>
      if s.producer.TailStored?
      then SetValue(s, Cur(s).slots[Cur(s).tail], Some(block))
             .(held := s.held[s.n := block], n := s.n + 1, producer := Idle)
      else s
    case GiveUp =>
      if s.producer.TailStored?
      then WithCur(s, Cur(s).(tail := PrevTail(Cur(s)))).(producer := Failing(Cur(s).slots[Cur(s).tail])) else s
    case Publish => if s.producer.Idle? then s.(pub := s.n) else s
    case TakeBack => TakeBackStep(s)
    case Claim(t, k, last) =>
      if t < |s.consumers| && s.consumers[t].Ready? && k <= last < s.pub && (forall j :: k <= j <= last ==> j in s.held)
      then s.(consumers := s.consumers[t := Claimed(k, last)]) else s
    case Consume(t, gone) => if t < |s.consumers| then ConsumeStep(s, t, gone) else s
  }

  function Init(b: nat, cap: nat, junk: Option<nat>, threads: nat): State
    requires cap > 0
  {
    var header := Header(seq(cap, i requires 0 <= i => i), cap - 1, 0, 0);
    State(b, seq(cap, _ => Entry(INVALID, junk)), [header], 0, 0, map[], Idle, seq(threads, _ => Ready))
  }

  function Run(b: nat, cap: nat, junk: Option<nat>, threads: nat, acts: seq<Action>): (s: State)
    requires b >= 2 && cap > 0
    ensures Formed(s)
  {
    if acts == [] then
      Init(b, cap, junk, threads)
    else
      var s, a := Run(b, cap, junk, threads, acts[..|acts| - 1]), acts[|acts| - 1];
      StepStaysFormed(s, a);
      Step(s, a)
  }

  // ---------------------------------------------------------------- the invariant

  /** The entry of block number j, according to one header. */
  function At(h: Header, j: int): nat
    requires h.slots != []
  {
    h.slots[Slot(|h.slots|, h.origin, j)]
  }

  /** Block numbers whose keys some lookup may still need. */
  ghost predicate Live(pub: nat, held: Held, j: int) {
    j >= pub || exists k <- held :: k <= j
  }

  /** The blocks already taken back. */
  function Back(p: Producer): nat {
    match p
    case Clearing(r) => r
    case Rewinding(r) => r + 1
    case _ => 0
  }

  /** The block being inserted has its key. */
  function Busy(p: Producer): nat {
    if p.KeyStored? || p.TailStored? || p.Failing? then 1 else 0
  }

  /** The block number at the tail. */
  function TailNumber(n: int, p: Producer): int {
    match p
    case TailStored => n
    case Clearing(r) => n - 1 - r
    case Rewinding(r) => n - 1 - r
    case _ => n - 1
  }

  predicate Distinct(xs: seq<nat>) {
    forall x, y :: 0 <= x < y < |xs| ==> xs[x] != xs[y]
  }

  predicate Counts(h: Header, n: nat, pub: nat, p: Producer) {
    && h.slots != [] && Distinct(h.slots)
    && pub <= n && n + Busy(p) <= h.high <= pub + |h.slots|
    && h.tail == Slot(|h.slots|, h.origin, TailNumber(n, p))
    && (p.Failing? ==> p.e == At(h, n))
    && (p.Clearing? || p.Rewinding? ==> pub + p.r < n)
  }

  predicate Pointers(h: Header, entries: seq<Entry>) {
    h.slots != [] && forall x :: 0 <= x < |h.slots| ==> h.slots[x] < |entries|
  }

  /** The blocks in use are in their entries, and the unpublished ones are in use. */
  ghost predicate HeldInv(h: Header, entries: seq<Entry>, n: nat, pub: nat, back: nat, held: Held)
    requires Pointers(h, entries)
  {
    && (forall k <- held :: h.high - |h.slots| <= k < n && !(pub <= k < pub + back))
    && (forall k <- held :: entries[At(h, k)].value == Some(held[k]))
    && (forall j: nat :: pub + back <= j < n ==> j in held)
  }

  ghost predicate KeysInv(h: Header, entries: seq<Entry>, b: nat, pub: nat, held: Held)
    requires Pointers(h, entries)
  {
    forall j: nat :: j < h.high && Live(pub, held, j) ==> entries[At(h, j)].key == j * b
  }

  /** Entries that have a key and no block are free. */
  ghost predicate AheadInv(h: Header, entries: seq<Entry>, n: nat, busy: nat, pub: nat, back: nat)
    requires Pointers(h, entries)
  {
    forall j: nat :: n + busy <= j < h.high || pub <= j < pub + back ==> entries[At(h, j)].value == None
  }

  /** What an older header still knows is what the current one knows. */
  ghost predicate SharedInv(old_: Header, h: Header, pub: nat, held: Held)
    requires old_.slots != [] && h.slots != []
  {
    old_.high <= h.high && forall j: nat :: j < old_.high && Live(pub, held, j) ==> At(old_, j) == At(h, j)
  }

  ghost predicate ConsumerInv(s: State, c: Consumer)
    requires Formed(s) && ConsumerFormed(s, c)
  {
    && (!c.Ready? ==> c.k <= c.last < s.pub && forall j :: c.k <= j <= c.last ==> j in s.held)
    && (match c
        case Headed(_, last, h) => last < s.headers[h].high
        case Tailed(k, last, h, tail) => last < s.headers[h].high && Marks(s.headers[h], k, tail)
        case Keyed(k, last, h, tail, key) => last < s.headers[h].high && MarksKey(s.headers[h], k, tail, key, s.b)
        case Located(k, last, h, slot) => last < s.headers[h].high && slot == PlaceOf(s.headers[h], k)
        case Got(k, last, h, slot, block) =>
          last < s.headers[h].high && slot == PlaceOf(s.headers[h], k) && block == Some(s.held[k])
        case _ => true)
  }

  function PlaceOf(h: Header, j: int): int
    requires h.slots != []
  {
    Slot(|h.slots|, h.origin, j)
  }

  /** The tail is that of a block from k on. */
  ghost predicate Marks(h: Header, k: nat, tail: int)
    requires h.slots != []
  {
    exists j: nat :: k <= j < h.high && tail == PlaceOf(h, j)
  }

  ghost predicate MarksKey(h: Header, k: nat, tail: int, key: nat, b: nat)
    requires h.slots != []
  {
    exists j: nat :: k <= j < h.high && tail == PlaceOf(h, j) && key == j * b
  }

  ghost predicate CurInv(s: State)
    requires Formed(s)
  {
    var h, p := Cur(s), s.producer;
    && Counts(h, s.n, s.pub, p)
    && HeldInv(h, s.entries, s.n, s.pub, Back(p), s.held)
    && KeysInv(h, s.entries, s.b, s.pub, s.held)
    && AheadInv(h, s.entries, s.n, Busy(p), s.pub, Back(p))
  }

  ghost predicate OldInv(s: State, i: nat)
    requires Formed(s) && i < |s.headers|
  {
    var h := s.headers[i];
    && SharedInv(h, Cur(s), s.pub, s.held)
    && (i < |s.headers| - 1 ==> h.tail == PlaceOf(h, h.high - 1))
  }

  ghost predicate Inv(s: State) {
    && Formed(s) && CurInv(s)
    && (forall i :: 0 <= i < |s.headers| ==> OldInv(s, i))
    && (forall t :: 0 <= t < |s.consumers| ==> ConsumerInv(s, s.consumers[t]))
  }

  // ---------------------------------------------------------------- staying in range

  lemma HeadersStayFormed(s: State, s': State)
    requires Formed(s) && |s.headers| <= |s'.headers| && |s.entries| <= |s'.entries|
    requires forall i :: 0 <= i < |s.headers| ==> |s'.headers[i].slots| == |s.headers[i].slots|
    requires forall i :: 0 <= i < |s'.headers| ==> HeaderFormed(s'.headers[i], |s'.entries|)
    requires s'.b == s.b && s'.consumers == s.consumers && (s'.producer.Failing? ==> s'.producer.e < |s'.entries|)
    ensures Formed(s')
  {
    forall t | 0 <= t < |s'.consumers| ensures ConsumerFormed(s', s'.consumers[t]) {
      assert ConsumerFormed(s, s.consumers[t]);
    }
  }

  lemma CurStaysFormed(s: State, s': State, h: Header)
    requires Formed(s) && s'.headers == s.headers[|s.headers| - 1 := h] && |s.entries| == |s'.entries|
    requires h.slots == Cur(s).slots && 0 <= h.tail < |h.slots|
    requires s'.b == s.b && s'.consumers == s.consumers && (s'.producer.Failing? ==> s'.producer.e < |s'.entries|)
    ensures Formed(s')
  {
    hide ConsumerFormed;
    forall i | 0 <= i < |s'.headers| ensures HeaderFormed(s'.headers[i], |s'.entries|) {
      assert HeaderFormed(s.headers[i], |s.entries|);
    }
    HeadersStayFormed(s, s');
  }

  lemma GrowStaysFormed(s: State, junk: Option<nat>)
    requires Formed(s)
    ensures Formed(Grow(s, junk))
  {
    hide ConsumerFormed;
    var s' := Grow(s, junk);
    assert HeaderFormed(Cur(s), |s.entries|);
    forall i | 0 <= i < |s'.headers| ensures HeaderFormed(s'.headers[i], |s'.entries|) {
      if i < |s.headers| {
        assert HeaderFormed(s.headers[i], |s.entries|);
      }
    }
    HeadersStayFormed(s, s');
  }

  lemma ConsumeStaysFormed(s: State, t: Tid, gone: bool)
    requires Formed(s) && t < |s.consumers|
    ensures Formed(ConsumeStep(s, t, gone))
  {
    assert ConsumerFormed(s, s.consumers[t]);
    var s' := ConsumeStep(s, t, gone);
    forall i | 0 <= i < |s'.headers| ensures HeaderFormed(s'.headers[i], |s'.entries|) {
      assert HeaderFormed(s.headers[i], |s.entries|);
    }
    forall u | 0 <= u < |s'.consumers| ensures ConsumerFormed(s', s'.consumers[u]) {
      assert ConsumerFormed(s, s.consumers[u]);
    }
  }

  lemma ProducerStaysFormed(s: State, a: Action)
    requires Formed(s) && !a.Claim? && !a.Consume?
    ensures Formed(Step(s, a))
  {
    hide ConsumerFormed, Free;
    var s' := Step(s, a);
    assert HeaderFormed(Cur(s), |s.entries|);
    if a.Insert? && s.producer.Idle? && !Free(s.entries[Cur(s).slots[NextTail(Cur(s))]]) {
      GrowStaysFormed(s, a.junk);
    } else {
      assert s.headers[|s.headers| - 1 := Cur(s)] == s.headers;
      CurStaysFormed(s, s', Cur(s'));
    }
  }

  lemma StepStaysFormed(s: State, a: Action)
    requires Formed(s)
    ensures Formed(Step(s, a))
  {
    hide HeaderFormed;
    if a.Consume? && a.t < |s.consumers| {
      ConsumeStaysFormed(s, a.t, a.gone);
    } else if !a.Claim? && !a.Consume? {
      ProducerStaysFormed(s, a);
    }
  }

  // ---------------------------------------------------------------- the producer's steps

  lemma AtDiffers(h: Header, i: int, j: int)
    requires h.slots != [] && Distinct(h.slots) && i != j && -|h.slots| < i - j < |h.slots|
    ensures At(h, i) != At(h, j)
  {
    hide Slot;
    if i < j {
      SlotsDiffer(|h.slots|, h.origin, i, j);
    } else {
      SlotsDiffer(|h.slots|, h.origin, j, i);
    }
  }

  lemma LiveInWindow(h: Header, entries: seq<Entry>, n: nat, pub: nat, back: nat, held: Held, j: int)
    requires Pointers(h, entries) && HeldInv(h, entries, n, pub, back, held)
    requires h.high <= pub + |h.slots| && Live(pub, held, j)
    ensures h.high - |h.slots| <= j
  {
    hide Slot;
  }

  /** A free entry is not that of a block in use, so there is room. */
  lemma RoomForKey(h: Header, entries: seq<Entry>, b: nat, n: nat, pub: nat, held: Held)
    requires b >= 2 && Pointers(h, entries) && Counts(h, n, pub, Idle) && HeldInv(h, entries, n, pub, 0, held)
    requires KeysInv(h, entries, b, pub, held) && Free(entries[At(h, n)])
    ensures n < pub + |h.slots| && forall k <- held :: n < k + |h.slots|
  {
    hide Slot;
    forall k <- held ensures n < k + |h.slots| {
      if n == k + |h.slots| {
        SameSlot(h, k);
        assert Live(pub, held, k);
        assert entries[At(h, k)].key == k * b && k * b != INVALID by {
          NotInvalid(k, b);
        }
        assert false;
      }
    }
    assert pub < n ==> pub in held;
  }

  lemma NotInvalid(k: nat, b: nat)
    requires b >= 2
    ensures k * b != INVALID
  {
    if k >= 1 {
      MulMonotone(1, k, b);
    }
  }

  lemma SameSlot(h: Header, k: int)
    requires h.slots != []
    ensures At(h, k + |h.slots|) == At(h, k)
  {
    var cap, x := |h.slots|, k - h.origin;
    Quotient(x + cap, x / cap + 1, x % cap, cap);
  }

  /** Storing the key of block number n. */
  lemma KeyKept(h: Header, entries: seq<Entry>, b: nat, n: nat, pub: nat, held: Held)
    requires b >= 2 && Pointers(h, entries) && Counts(h, n, pub, Idle) && HeldInv(h, entries, n, pub, 0, held)
    requires KeysInv(h, entries, b, pub, held) && AheadInv(h, entries, n, 0, pub, 0) && Free(entries[At(h, n)])
    ensures var e := At(h, n);
      var h', entries' := h.(high := if h.high > n then h.high else n + 1), entries[e := entries[e].(key := n * b)];
      && Counts(h', n, pub, KeyStored) && Pointers(h', entries') && HeldInv(h', entries', n, pub, 0, held)
      && KeysInv(h', entries', b, pub, held) && AheadInv(h', entries', n, 1, pub, 0)
  {
    hide Slot;
    RoomForKey(h, entries, b, n, pub, held);
    var e := At(h, n);
    var h', entries' := h.(high := if h.high > n then h.high else n + 1), entries[e := entries[e].(key := n * b)];
    assert HeldInv(h', entries', n, pub, 0, held);
    forall j: nat | j < h'.high && Live(pub, held, j) ensures entries'[At(h', j)].key == j * b {
      LiveInWindow(h', entries', n, pub, 0, held, j);
      if j != n {
        AtDiffers(h, j, n);
      }
    }
  }

  /** Storing the block of number n. */
  lemma AttachKept(h: Header, entries: seq<Entry>, b: nat, n: nat, pub: nat, held: Held, block: nat)
    requires Pointers(h, entries) && Counts(h, n, pub, TailStored) && HeldInv(h, entries, n, pub, 0, held)
    requires KeysInv(h, entries, b, pub, held) && AheadInv(h, entries, n, 1, pub, 0)
    ensures var e := At(h, n); var entries', held' := entries[e := entries[e].(value := Some(block))], held[n := block];
      && Counts(h, n + 1, pub, Idle) && Pointers(h, entries') && HeldInv(h, entries', n + 1, pub, 0, held')
      && KeysInv(h, entries', b, pub, held') && AheadInv(h, entries', n + 1, 0, pub, 0)
    ensures forall j :: Live(pub, held[n := block], j) <==> Live(pub, held, j)
  {
    hide Slot;
    var e := At(h, n);
    var entries', held' := entries[e := entries[e].(value := Some(block))], held[n := block];
    forall k <- held' ensures entries'[At(h, k)].value == Some(held'[k]) {
      if k != n {
        AtDiffers(h, k, n);
      }
    }
    forall j: nat | n + 1 <= j < h.high ensures entries'[At(h, j)].value == None {
      AtDiffers(h, j, n);
    }
    forall j ensures Live(pub, held', j) <==> Live(pub, held, j) {
      LiveAfterAttach(pub, held, n, block, j);
    }
  }

  lemma LiveAfterAttach(pub: nat, held: Held, n: nat, block: nat, j: int)
    requires pub <= n && n !in held
    ensures Live(pub, held[n := block], j) <==> Live(pub, held, j)
  {
    var held' := held[n := block];
    if k :| k in held && k <= j {
      assert k in held' && k <= j;
    }
    if Live(pub, held', j) && j < pub {
      var k :| k in held' && k <= j;
      assert k in held;
    }
  }

  /** Clearing an entry whose block is not in use. */
  lemma ClearKept(h: Header, entries: seq<Entry>, b: nat, n: nat, pub: nat, held: Held, p: Producer)
    requires Pointers(h, entries) && Counts(h, n, pub, p) && p.Failing? && HeldInv(h, entries, n, pub, 0, held)
    requires KeysInv(h, entries, b, pub, held) && AheadInv(h, entries, n, 1, pub, 0)
    ensures var e := At(h, n); var entries' := entries[e := entries[e].(value := None)];
      && Counts(h, n, pub, Idle) && Pointers(h, entries') && HeldInv(h, entries', n, pub, 0, held)
      && KeysInv(h, entries', b, pub, held) && AheadInv(h, entries', n, 0, pub, 0)
  {
    hide Slot;
    var e := At(h, n);
    var entries' := entries[e := entries[e].(value := None)];
    forall k <- held ensures entries'[At(h, k)].value == Some(held[k]) {
      AtDiffers(h, k, n);
    }
  }

  /** A block leaves its entry: one taken back, or one whose last ticket is done. */
  lemma RemoveKept(h: Header, entries: seq<Entry>, b: nat, n: nat, busy: nat, pub: nat, back: nat, held: Held,
                   k: nat, back': nat)
    requires Pointers(h, entries) && Distinct(h.slots) && HeldInv(h, entries, n, pub, back, held) && k in held
    requires h.high <= pub + |h.slots| && n <= h.high
    requires KeysInv(h, entries, b, pub, held) && AheadInv(h, entries, n, busy, pub, back)
    requires if k < pub then back' == back else k == pub + back && back' == back + 1
    ensures var e := At(h, k); var entries', held' := entries[e := entries[e].(value := None)], held - {k};
      && Pointers(h, entries') && HeldInv(h, entries', n, pub, back', held')
      && KeysInv(h, entries', b, pub, held') && AheadInv(h, entries', n, busy, pub, back')
    ensures forall j :: Live(pub, held - {k}, j) ==> Live(pub, held, j)
  {
    hide Slot;
    var e := At(h, k);
    var entries', held' := entries[e := entries[e].(value := None)], held - {k};
    forall j <- held' ensures entries'[At(h, j)].value == Some(held'[j]) {
      AtDiffers(h, j, k);
    }
    forall j | Live(pub, held', j) ensures Live(pub, held, j) {
      if j < pub {
        var i :| i in held' && i <= j;
        assert i in held;
      }
    }
  }

  lemma SlotsBack(cap: nat, origin: int, k: int, d: nat)
    requires d < cap
    ensures var t := Slot(cap, origin, k); Slot(cap, origin, k - d) == if d <= t then t - d else t - d + cap
  {
    SlotShift(cap, origin, k, 0 - d);
    var t := Slot(cap, origin, k);
    hide Slot;
    if d <= t {
      Quotient(t - d, 0, t - d, cap);
    } else {
      Quotient(t - d, -1, t - d + cap, cap);
    }
  }

  lemma SlotFromOrigin(cap: nat, origin: int, k: int)
    requires 0 <= k - origin < cap
    ensures Slot(cap, origin, k) == k - origin
  {
    Quotient(k - origin, 0, k - origin, cap);
  }

  /** The header of twice the size has the same entries for the same blocks. */
  lemma GrownAt(h: Header, n: nat, count: nat, high: nat, j: int)
    requires 0 <= h.tail < |h.slots| && h.tail == PlaceOf(h, n - 1) && n - |h.slots| <= j < n
    ensures GrownSlots(h, count) != []
    ensures var cap := |h.slots|; At(Header(GrownSlots(h, count), cap - 1, n - cap, high), j) == At(h, j)
  {
    hide Slot, GrownSlots;
    var cap, d := |h.slots|, n - 1 - j;
    GrownSlotsAt(h, count, cap - 1 - d);
    SlotFromOrigin(2 * cap, n - cap, j);
    SlotsBack(cap, h.origin, n - 1, d);
  }

  lemma GrownSlotsAt(h: Header, count: nat, x: nat)
    requires 0 <= h.tail < |h.slots| && x < 2 * |h.slots|
    ensures |GrownSlots(h, count)| == 2 * |h.slots|
    ensures var cap, rest := |h.slots|, |h.slots| - 1 - h.tail;
      GrownSlots(h, count)[x] ==
        (if x < rest then h.slots[h.tail + 1 + x] else if x < cap then h.slots[x - rest] else count + (x - cap))
  {
  }

  lemma GrownIsDistinct(h: Header, count: nat)
    requires 0 <= h.tail < |h.slots| && Distinct(h.slots) && forall x :: 0 <= x < |h.slots| ==> h.slots[x] < count
    ensures Distinct(GrownSlots(h, count))
  {
    GrownSlotsAt(h, count, 0);
    var slots := GrownSlots(h, count);
    forall x, y | 0 <= x < y < |slots| ensures slots[x] != slots[y] {
      GrownSlotsAt(h, count, x);
      GrownSlotsAt(h, count, y);
    }
  }

  /** Growth happens only where every key has its block, and keeps what is live. */
  lemma GrowKept(h: Header, entries: seq<Entry>, b: nat, n: nat, pub: nat, held: Held, junk: Option<nat>)
    requires Pointers(h, entries) && Counts(h, n, pub, Idle) && HeldInv(h, entries, n, pub, 0, held)
    requires KeysInv(h, entries, b, pub, held) && AheadInv(h, entries, n, 0, pub, 0) && !Free(entries[At(h, n)])
    ensures var cap := |h.slots|;
      var h', entries' := Header(GrownSlots(h, |entries|), cap - 1, n - cap, n),
        entries + seq(cap, _ => Entry(INVALID, junk));
      && h.high == n
      && Counts(h', n, pub, Idle) && Pointers(h', entries') && HeldInv(h', entries', n, pub, 0, held)
      && KeysInv(h', entries', b, pub, held) && AheadInv(h', entries', n, 0, pub, 0) && SharedInv(h, h', pub, held)
  {
    hide Slot, GrownSlots;
    GrownSlotsAt(h, |entries|, 0);
    var cap := |h.slots|;
    var h', entries' := Header(GrownSlots(h, |entries|), cap - 1, n - cap, n),
      entries + seq(cap, _ => Entry(INVALID, junk));
    assert h.high == n;
    GrownIsDistinct(h, |entries|);
    SlotFromOrigin(2 * cap, n - cap, n - 1);
    forall k <- held ensures At(h', k) == At(h, k) {
      GrownAt(h, n, |entries|, n, k);
    }
    forall j: nat | j < n && Live(pub, held, j) ensures At(h', j) == At(h, j) {
      LiveInWindow(h, entries, n, pub, 0, held, j);
      GrownAt(h, n, |entries|, n, j);
    }
    assert Pointers(h', entries') by {
      GrownPointers(h, entries);
    }
  }

  lemma GrownPointers(h: Header, entries: seq<Entry>)
    requires Pointers(h, entries) && 0 <= h.tail < |h.slots|
    ensures var slots := GrownSlots(h, |entries|);
      slots != [] && forall x :: 0 <= x < |slots| ==> slots[x] < |entries| + |h.slots|
  {
  }

  // ---------------------------------------------------------------- every step

  lemma MarksKept(h: Header, h': Header, k: nat, tail: int)
    requires h.slots != [] && h'.slots == h.slots && h'.origin == h.origin && h.high <= h'.high && Marks(h, k, tail)
    ensures Marks(h', k, tail)
  {
    hide Slot;
    var j: nat :| k <= j < h.high && tail == PlaceOf(h, j);
    assert tail == PlaceOf(h', j);
  }

  lemma MarksKeyKept(h: Header, h': Header, k: nat, tail: int, key: nat, b: nat)
    requires h.slots != [] && h'.slots == h.slots && h'.origin == h.origin
    requires h.high <= h'.high && MarksKey(h, k, tail, key, b)
    ensures MarksKey(h', k, tail, key, b)
  {
    hide Slot;
    var j: nat :| k <= j < h.high && tail == PlaceOf(h, j) && key == j * b;
    assert tail == PlaceOf(h', j);
  }

  /** A consumer relies on the blocks it works in and on headers that only learn more. */
  lemma ConsumerKept(s: State, s': State, c: Consumer)
    requires Formed(s) && Formed(s') && ConsumerFormed(s, c) && ConsumerInv(s, c) && s'.b == s.b && s.pub <= s'.pub
    requires |s.headers| <= |s'.headers|
    requires forall i :: 0 <= i < |s.headers| ==>
      s'.headers[i].slots == s.headers[i].slots && s'.headers[i].origin == s.headers[i].origin &&
        s.headers[i].high <= s'.headers[i].high
    requires forall k: nat :: Pins(c, k) ==> k in s'.held && s'.held[k] == s.held[k]
    ensures ConsumerFormed(s', c) && ConsumerInv(s', c)
  {
    hide Formed, Slot, Marks, MarksKey;
    if !c.Ready? {
      assert Pins(c, c.k);
      forall j | c.k <= j <= c.last ensures j in s'.held {
        assert Pins(c, j);
      }
    }
    match c
    case Tailed(k, last, h, tail) => MarksKept(s.headers[h], s'.headers[h], k, tail);
    case Keyed(k, last, h, tail, key) => MarksKeyKept(s.headers[h], s'.headers[h], k, tail, key, s.b);
    case _ =>
  }

  /** A step that replaces the current header by one with the same pointers. */
  ghost predicate SamePointers(s: State, s': State)
    requires s.headers != []
  {
    && |s'.headers| == |s.headers| && s'.headers == s.headers[|s.headers| - 1 := Cur(s')]
    && Cur(s').slots == Cur(s).slots && Cur(s').origin == Cur(s).origin && Cur(s).high <= Cur(s').high
  }

  lemma HasSlots(s: State, i: nat)
    requires Formed(s) && i < |s.headers|
    ensures s.headers[i].slots != []
  {
  }

  lemma OldKept(s: State, s': State, i: nat)
    requires Formed(s) && Formed(s') && SamePointers(s, s') && i < |s.headers| && OldInv(s, i)
    requires forall j :: Live(s'.pub, s'.held, j) ==> Live(s.pub, s.held, j)
    ensures OldInv(s', i)
  {
    HasSlots(s, i);
    HasSlots(s, |s.headers| - 1);
    hide Formed, Live, Slot;
    assert s'.headers[i].slots == s.headers[i].slots && s'.headers[i].origin == s.headers[i].origin;
  }

  /** What is left to show of a producer's step. */
  lemma ProducerStepKept(s: State, s': State)
    requires Inv(s) && Formed(s') && SamePointers(s, s') && CurInv(s') && s'.b == s.b && s'.consumers == s.consumers
    requires s.pub <= s'.pub && forall k :: k in s.held && k < s.pub ==> k in s'.held && s'.held[k] == s.held[k]
    requires forall j :: Live(s'.pub, s'.held, j) ==> Live(s.pub, s.held, j)
    ensures Inv(s')
  {
    hide Formed, CurInv, OldInv, Live, ConsumerFormed, ConsumerInv;
    forall i | 0 <= i < |s'.headers| ensures OldInv(s', i) {
      assert OldInv(s, i);
      OldKept(s, s', i);
    }
    ConsumersKept(s, s');
  }

  lemma ConsumersKept(s: State, s': State)
    requires Inv(s) && Formed(s') && s'.b == s.b && s'.consumers == s.consumers && s.pub <= s'.pub
    requires |s.headers| <= |s'.headers|
    requires forall i :: 0 <= i < |s.headers| ==>
      s'.headers[i].slots == s.headers[i].slots && s'.headers[i].origin == s.headers[i].origin &&
        s.headers[i].high <= s'.headers[i].high
    requires forall k :: k in s.held && k < s.pub ==> k in s'.held && s'.held[k] == s.held[k]
    ensures forall t :: 0 <= t < |s'.consumers| ==>
      ConsumerFormed(s', s'.consumers[t]) && ConsumerInv(s', s'.consumers[t])
  {
    hide CurInv, OldInv;
    forall t | 0 <= t < |s'.consumers| ensures ConsumerFormed(s', s'.consumers[t]) && ConsumerInv(s', s'.consumers[t]) {
      var c := s.consumers[t];
      assert ConsumerFormed(s, c) && ConsumerInv(s, c);
      PinsArePublished(s, c);
      ConsumerKept(s, s', c);
    }
  }

  lemma PinsArePublished(s: State, c: Consumer)
    requires Formed(s) && ConsumerFormed(s, c) && ConsumerInv(s, c)
    ensures forall k: nat :: Pins(c, k) ==> k in s.held && k < s.pub
  {
    hide Formed, ConsumerFormed, Marks, MarksKey, PlaceOf;
  }

  lemma CurPointers(s: State)
    requires Formed(s)
    ensures s.b >= 2 && s.headers != [] && Pointers(Cur(s), s.entries)
    ensures s.headers[|s.headers| - 1 := Cur(s)] == s.headers
  {
    assert HeaderFormed(Cur(s), |s.entries|);
  }

  lemma TailMoves(h: Header, j: int)
    requires h.slots != [] && h.tail == PlaceOf(h, j)
    ensures NextTail(h) == PlaceOf(h, j + 1) && PrevTail(h) == PlaceOf(h, j - 1)
  {
    hide Slot;
    SlotShift(|h.slots|, h.origin, j, 1);
    SlotShift(|h.slots|, h.origin, j, -1);
  }

  lemma KeyKeepsInv(s: State, memory: bool, junk: Option<nat>)
    requires Inv(s) && s.producer.Idle? && Free(s.entries[At(Cur(s), s.n)]) && Formed(InsertStep(s, memory, junk))
    ensures Inv(InsertStep(s, memory, junk))
  {
    hide Formed, HeldInv, KeysInv, AheadInv, OldInv, ConsumerFormed, ConsumerInv, Slot, Distinct, Free, Live, Grow;
    CurPointers(s);
    TailMoves(Cur(s), s.n - 1);
    KeyKept(Cur(s), s.entries, s.b, s.n, s.pub, s.held);
    ProducerStepKept(s, InsertStep(s, memory, junk));
  }

  lemma InsertKeepsInv(s: State, memory: bool, junk: Option<nat>)
    requires Inv(s) && s.producer.Idle?
    ensures Formed(InsertStep(s, memory, junk)) && Inv(InsertStep(s, memory, junk))
  {
    StepStaysFormed(s, Insert(memory, junk));
    hide HeldInv, KeysInv, AheadInv, OldInv, ConsumerFormed, ConsumerInv, Slot, Distinct, Free, Live, Grow, SetKey;
    CurPointers(s);
    TailMoves(Cur(s), s.n - 1);
    if Free(s.entries[At(Cur(s), s.n)]) {
      KeyKeepsInv(s, memory, junk);
    } else if memory {
      GrowKeepsInv(s, junk);
    }
  }

  lemma GrowKeepsInv(s: State, junk: Option<nat>)
    requires Inv(s) && s.producer.Idle? && !Free(s.entries[At(Cur(s), s.n)])
    ensures Formed(Grow(s, junk)) && Inv(Grow(s, junk))
  {
    hide HeldInv, KeysInv, AheadInv, ConsumerFormed, ConsumerInv, Slot;
    hide SharedInv, Distinct, Free, Live, GrownSlots, HeaderFormed;
    GrowStaysFormed(s, junk);
    var s' := Grow(s, junk);
    CurPointers(s);
    GrowKept(Cur(s), s.entries, s.b, s.n, s.pub, s.held, junk);
    forall i | 0 <= i < |s'.headers| ensures OldInv(s', i) {
      if i < |s.headers| {
        assert OldInv(s, i);
        SharedTwice(s.headers[i], Cur(s), Cur(s'), s.pub, s.held);
      } else {
        SharedSame(Cur(s'), s.pub, s.held);
      }
    }
    ConsumersKept(s, s');
  }

  lemma SharedTwice(a: Header, h: Header, h': Header, pub: nat, held: Held)
    requires a.slots != [] && h.slots != [] && h'.slots != []
    requires SharedInv(a, h, pub, held) && SharedInv(h, h', pub, held)
    ensures SharedInv(a, h', pub, held)
  {
    hide At, Live;
  }

  lemma SharedSame(h: Header, pub: nat, held: Held)
    requires h.slots != []
    ensures SharedInv(h, h, pub, held)
  {
  }

  /** The tail matters to none of these. */
  lemma TailIsFree(h: Header, h': Header, entries: seq<Entry>, b: nat, n: nat, busy: nat, pub: nat, back: nat,
                   held: Held)
    requires Pointers(h, entries) && h' == h.(tail := h'.tail)
    requires HeldInv(h, entries, n, pub, back, held) && KeysInv(h, entries, b, pub, held)
    requires AheadInv(h, entries, n, busy, pub, back)
    ensures HeldInv(h', entries, n, pub, back, held) && KeysInv(h', entries, b, pub, held)
    ensures AheadInv(h', entries, n, busy, pub, back)
  {
    hide Slot, Live;
    assert forall j :: At(h', j) == At(h, j);
  }

  lemma StoreTailKeepsInv(s: State)
    requires Inv(s) && s.producer.KeyStored?
    ensures Inv(Step(s, StoreTail))
  {
    StepStaysFormed(s, StoreTail);
    hide Formed, InsertStep, TakeBackStep, ConsumeStep, OldInv, ConsumerFormed;
    hide ConsumerInv, Slot, Distinct, HeldInv, KeysInv, AheadInv, Live;
    var s' := Step(s, StoreTail);
    CurPointers(s);
    TailMoves(Cur(s), s.n - 1);
    TailIsFree(Cur(s), Cur(s'), s.entries, s.b, s.n, 1, s.pub, 0, s.held);
    ProducerStepKept(s, s');
  }

  lemma GiveUpKeepsInv(s: State)
    requires Inv(s) && s.producer.TailStored?
    ensures Inv(Step(s, GiveUp))
  {
    StepStaysFormed(s, GiveUp);
    hide Formed, InsertStep, TakeBackStep, ConsumeStep, OldInv, ConsumerFormed;
    hide ConsumerInv, Slot, Distinct, HeldInv, KeysInv, AheadInv, Live;
    var s' := Step(s, GiveUp);
    CurPointers(s);
    TailMoves(Cur(s), s.n);
    TailIsFree(Cur(s), Cur(s'), s.entries, s.b, s.n, 1, s.pub, 0, s.held);
    ProducerStepKept(s, s');
  }

  lemma AttachStep(s: State, block: nat)
    requires Inv(s) && s.producer.TailStored?
    ensures s.headers != [] && Cur(s).slots != [] && At(Cur(s), s.n) < |s.entries|
    ensures Step(s, Attach(block))
      == SetValue(s, At(Cur(s), s.n), Some(block)).(held := s.held[s.n := block], n := s.n + 1, producer := Idle)
  {
    CurPointers(s);
    hide OldInv, ConsumerFormed, ConsumerInv, Slot, Distinct, HeldInv, KeysInv, AheadInv;
  }

  lemma AttachKeepsInv(s: State, block: nat)
    requires Inv(s) && s.producer.TailStored?
    ensures Inv(Step(s, Attach(block)))
  {
    StepStaysFormed(s, Attach(block));
    AttachStep(s, block);
    hide Formed, Step, OldInv, ConsumerFormed, ConsumerInv, Slot, At, Distinct, HeldInv, KeysInv, AheadInv, Live;
    CurPointers(s);
    AttachKept(Cur(s), s.entries, s.b, s.n, s.pub, s.held, block);
    ProducerStepKept(s, Step(s, Attach(block)));
  }

  lemma PublishKeepsInv(s: State)
    requires Inv(s) && s.producer.Idle?
    ensures Inv(Step(s, Publish))
  {
    StepStaysFormed(s, Publish);
    hide Formed, InsertStep, TakeBackStep, ConsumeStep, OldInv, ConsumerFormed, ConsumerInv, Slot, Distinct;
    CurPointers(s);
    ProducerStepKept(s, Step(s, Publish));
  }

  /** From the key of any later block the lookup computes the place of block k. */
  lemma FoundIs(s: State, h: nat, tail: int, key: nat, k: nat, j: nat)
    requires h < |s.headers| && s.headers[h].slots != [] && s.b > 0
    requires tail == PlaceOf(s.headers[h], j) && key == j * s.b
    ensures Found(s, h, tail, key, k) == PlaceOf(s.headers[h], k)
  {
    hide Slot;
    assert k * s.b - j * s.b == (k - j) * s.b;
    Quotient((k - j) * s.b, k - j, 0, s.b);
    SlotShift(|s.headers[h].slots|, s.headers[h].origin, j, k - j);
  }

  lemma OwnLookup(s: State)
    requires Inv(s) && s.producer.Clearing?
    ensures OwnSlot(s, s.pub + s.producer.r) == PlaceOf(Cur(s), s.pub + s.producer.r)
  {
    hide Slot, OldInv, ConsumerFormed, ConsumerInv, AheadInv, Distinct;
    CurPointers(s);
    var h, j := Cur(s), s.n - 1 - s.producer.r;
    assert Live(s.pub, s.held, j);
    assert s.entries[At(h, j)].key == j * s.b;
    FoundIs(s, |s.headers| - 1, h.tail, j * s.b, s.pub + s.producer.r, j);
  }

  lemma TakeBackKeepsInv(s: State)
    requires Inv(s)
    ensures Inv(Step(s, TakeBack))
  {
    StepStaysFormed(s, TakeBack);
    CurPointers(s);
    var s' := Step(s, TakeBack);
    match s.producer
    case Idle =>
      if s.pub < s.n {
        hide Formed, OldInv, ConsumerFormed, ConsumerInv, Slot, Distinct;
        ProducerStepKept(s, s');
      }
    case Failing(e) => FailingKeepsInv(s);
    case Clearing(r) => ClearingKeepsInv(s);
    case Rewinding(r) => RewindingKeepsInv(s);
    case _ =>
  }

  lemma FailingKeepsInv(s: State)
    requires Inv(s) && s.producer.Failing?
    ensures Inv(Step(s, TakeBack))
  {
    StepStaysFormed(s, TakeBack);
    hide Formed, OldInv, ConsumerFormed, ConsumerInv, Slot, Distinct, HeldInv, KeysInv, AheadInv, Live;
    CurPointers(s);
    ClearKept(Cur(s), s.entries, s.b, s.n, s.pub, s.held, s.producer);
    ProducerStepKept(s, Step(s, TakeBack));
  }

  lemma ClearingKeepsInv(s: State)
    requires Inv(s) && s.producer.Clearing?
    ensures Inv(Step(s, TakeBack))
  {
    hide Formed, OldInv, ConsumerFormed, ConsumerInv, Slot, Distinct, HeldInv, KeysInv, AheadInv, Live, OwnSlot;
    StepStaysFormed(s, TakeBack);
    CurPointers(s);
    OwnLookup(s);
    var k := s.pub + s.producer.r;
    NextToTakeBack(Cur(s), s.entries, s.n, s.pub, s.producer.r, s.held);
    RemoveKept(Cur(s), s.entries, s.b, s.n, 0, s.pub, s.producer.r, s.held, k, s.producer.r + 1);
    ProducerStepKept(s, Step(s, TakeBack));
  }

  lemma NextToTakeBack(h: Header, entries: seq<Entry>, n: nat, pub: nat, r: nat, held: Held)
    requires Pointers(h, entries) && HeldInv(h, entries, n, pub, r, held) && pub + r < n
    ensures pub + r in held
  {
  }

  lemma AllTakenBack(h: Header, entries: seq<Entry>, n: nat, pub: nat, back: nat, held: Held)
    requires Pointers(h, entries) && pub + back == n
    requires HeldInv(h, entries, n, pub, back, held) && AheadInv(h, entries, n, 0, pub, back)
    ensures HeldInv(h, entries, pub, pub, 0, held) && AheadInv(h, entries, pub, 0, pub, 0)
  {
    hide At;
  }

  lemma RewindingKeepsInv(s: State)
    requires Inv(s) && s.producer.Rewinding?
    ensures Inv(Step(s, TakeBack))
  {
    StepStaysFormed(s, TakeBack);
    hide Formed, OldInv, ConsumerFormed, ConsumerInv, Slot, Distinct, HeldInv, KeysInv, AheadInv, Live;
    var s', back := Step(s, TakeBack), s.producer.r + 1;
    CurPointers(s);
    TailMoves(Cur(s), s.n - 1 - s.producer.r);
    TailIsFree(Cur(s), Cur(s'), s.entries, s.b, s.n, 0, s.pub, back, s.held);
    if s.pub + back == s.n {
      AllTakenBack(Cur(s'), s.entries, s.n, s.pub, back, s.held);
    }
    ProducerStepKept(s, s');
  }

  // ---------------------------------------------------------------- the consumers' steps

  /** Any header's tail is that of a block at least as new as the published ones. */
  lemma TailMarks(s: State, h: nat, k: nat)
    requires Inv(s) && h < |s.headers| && k < s.pub && k < s.headers[h].high
    ensures Marks(s.headers[h], k, s.headers[h].tail)
  {
    hide Slot, ConsumerFormed, ConsumerInv, HeldInv, KeysInv, AheadInv, SharedInv, Distinct;
    CurPointers(s);
    assert OldInv(s, h);
    var header := s.headers[h];
    if h < |s.headers| - 1 {
      var j: nat := header.high - 1;
      assert header.tail == PlaceOf(header, j);
    } else {
      var j: nat := TailNumber(s.n, s.producer);
      assert header.tail == PlaceOf(header, j);
    }
  }

  /** What a header says of a block in use is so. */
  lemma LiveEntry(s: State, h: nat, j: nat)
    requires Inv(s) && h < |s.headers| && j < s.headers[h].high && Live(s.pub, s.held, j)
    ensures s.headers[h].slots != [] && At(s.headers[h], j) < |s.entries|
    ensures s.entries[At(s.headers[h], j)].key == j * s.b
    ensures j in s.held ==> s.entries[At(s.headers[h], j)].value == Some(s.held[j])
    ensures At(s.headers[h], j) == At(Cur(s), j)
  {
    hide Slot, ConsumerFormed, ConsumerInv, AheadInv, Distinct, Live;
    CurPointers(s);
    assert OldInv(s, h);
    assert HeaderFormed(s.headers[h], |s.entries|);
  }

  lemma HeldIsLive(pub: nat, held: Held, k: nat, j: nat)
    requires k in held && k <= j
    ensures Live(pub, held, j)
  {
  }

  lemma KeyLoaded(s: State, k: nat, h: nat, tail: int)
    requires Inv(s) && h < |s.headers| && s.headers[h].slots != [] && Marks(s.headers[h], k, tail) && k in s.held
    ensures 0 <= tail < |s.headers[h].slots| && MarksKey(s.headers[h], k, tail, Load(s, h, tail).key, s.b)
  {
    hide CurInv, OldInv, ConsumerFormed, ConsumerInv, Slot, Live;
    var j: nat :| k <= j < s.headers[h].high && tail == PlaceOf(s.headers[h], j);
    HeldIsLive(s.pub, s.held, k, j);
    LiveEntry(s, h, j);
  }

  lemma SlotFound(s: State, k: nat, h: nat, tail: int, key: nat)
    requires h < |s.headers| && s.headers[h].slots != [] && s.b > 0 && MarksKey(s.headers[h], k, tail, key, s.b)
    ensures Found(s, h, tail, key, k) == PlaceOf(s.headers[h], k)
  {
    hide Slot, Found;
    var j: nat :| k <= j < s.headers[h].high && tail == PlaceOf(s.headers[h], j) && key == j * s.b;
    FoundIs(s, h, tail, key, k, j);
  }

  /** The loads of the lookup, each at any later time. */
  lemma OnwardKept(s: State, t: Tid)
    requires Inv(s) && t < |s.consumers| && !s.consumers[t].Got?
    ensures var c := Onward(s, s.consumers[t]); ConsumerFormed(s, c) && ConsumerInv(s, c)
  {
    ThreadOf(s, t);
    hide CurInv, OldInv, Slot, Marks, MarksKey, Found;
    match s.consumers[t]
    case Ready =>
    case Claimed(k, last) => HighIsEnough(s);
    case Headed(k, last, h) => TailMarks(s, h, k);
    case Tailed(k, last, h, tail) => KeyLoaded(s, k, h, tail);
    case Keyed(k, last, h, tail, key) => SlotFound(s, k, h, tail, key);
    case Located(k, last, h, slot) =>
      HeldIsLive(s.pub, s.held, k, k);
      LiveEntry(s, h, k);
  }

  lemma ThreadOf(s: State, t: Tid)
    requires Inv(s) && t < |s.consumers|
    ensures ConsumerFormed(s, s.consumers[t]) && ConsumerInv(s, s.consumers[t])
  {
    hide CurInv, OldInv, Slot, Marks, MarksKey;
  }

  lemma HighIsEnough(s: State)
    requires Inv(s)
    ensures s.pub <= Cur(s).high
  {
    hide Slot, ConsumerFormed, ConsumerInv, HeldInv, KeysInv, AheadInv, OldInv, Distinct;
  }

  /** In a bulk dequeue the next block is at the next slot of the same header (2812-2830). */
  lemma NextBlockKept(s: State, t: Tid)
    requires Inv(s) && t < |s.consumers| && s.consumers[t].Got?
    ensures var c := Onward(s, s.consumers[t]); ConsumerFormed(s, c) && ConsumerInv(s, c)
  {
    ThreadOf(s, t);
    hide CurInv, OldInv, Slot;
    var c := s.consumers[t];
    SlotShift(|s.headers[c.h].slots|, s.headers[c.h].origin, c.k, 1);
  }

  lemma LoadKeepsInv(s: State, t: Tid, gone: bool)
    requires Inv(s) && t < |s.consumers|
    requires !s.consumers[t].Got? || !gone || PinnedByOther(s, t, s.consumers[t].k)
    ensures Inv(ConsumeStep(s, t, gone))
  {
    StepStaysFormed(s, Consume(t, gone));
    if s.consumers[t].Got? { NextBlockKept(s, t); } else { OnwardKept(s, t); }
    hide PinnedByOther, Marks, MarksKey, Slot, Onward;
    var s' := ConsumeStep(s, t, gone);
    assert s'.headers == s.headers && s'.entries == s.entries;
    OnlyConsumers(s, s', t);
  }

  /** A step that changes one consumer and nothing else. */
  lemma OnlyConsumers(s: State, s': State, t: Tid)
    requires Inv(s) && Formed(s') && t < |s.consumers| && s' == s.(consumers := s'.consumers)
    requires |s'.consumers| == |s.consumers| && s'.consumers == s.consumers[t := s'.consumers[t]]
    requires ConsumerFormed(s, s'.consumers[t]) && ConsumerInv(s, s'.consumers[t])
    ensures Inv(s')
  {
    hide Formed, Pins;
    assert CurInv(s');
    hide CurInv;
    forall i | 0 <= i < |s'.headers| ensures OldInv(s', i) {
      assert OldInv(s, i);
    }
    hide OldInv;
    forall u | 0 <= u < |s'.consumers| ensures ConsumerFormed(s', s'.consumers[u]) && ConsumerInv(s', s'.consumers[u]) {
      if u != t { ThreadOf(s, u); }
      PinsArePublished(s, s'.consumers[u]);
      ConsumerKept(s, s', s'.consumers[u]);
    }
  }

  /** The last ticket of a block: the entry is cleared and the block leaves. */
  lemma RemoveKeepsInv(s: State, t: Tid)
    requires Inv(s) && t < |s.consumers| && s.consumers[t].Got? && !PinnedByOther(s, t, s.consumers[t].k)
    ensures Inv(ConsumeStep(s, t, true))
  {
    StepStaysFormed(s, Consume(t, true));
    var c, s' := s.consumers[t], ConsumeStep(s, t, true);
    ThreadOf(s, t);
    GotEntry(s, c);
    CurPointers(s);
    RemoveIsKept(s, c.k);
    var c' := Onward(s, c);
    NextBlockKept(s, t);
    hide CurInv, OldInv, Formed, Live, Onward, PinnedByOther;
    forall i | 0 <= i < |s'.headers| ensures OldInv(s', i) {
      assert OldInv(s, i);
      OldKept(s, s', i);
    }
    forall u | 0 <= u < |s'.consumers| ensures ConsumerFormed(s', s'.consumers[u]) && ConsumerInv(s', s'.consumers[u]) {
      if u == t {
        OwnPins(s, c);
        ConsumerKept(s, s', c');
      } else {
        ThreadOf(s, u);
        OtherPins(s, t, u);
        PinsArePublished(s, s.consumers[u]);
        ConsumerKept(s, s', s.consumers[u]);
      }
    }
  }

  lemma GotEntry(s: State, c: Consumer)
    requires Inv(s) && c.Got? && ConsumerFormed(s, c) && ConsumerInv(s, c)
    ensures c.k in s.held && c.k < s.pub && s.headers[c.h].slots[c.slot] == At(Cur(s), c.k)
  {
    hide CurInv, OldInv, Slot, Formed;
    HeldIsLive(s.pub, s.held, c.k, c.k);
    LiveEntry(s, c.h, c.k);
  }

  lemma RemoveIsKept(s: State, k: nat)
    requires Inv(s) && k in s.held && k < s.pub && At(Cur(s), k) < |s.entries|
    ensures var s' := SetValue(s, At(Cur(s), k), None).(held := s.held - {k});
      Formed(s') && CurInv(s') && forall j :: Live(s'.pub, s'.held, j) ==> Live(s.pub, s.held, j)
  {
    CurPointers(s);
    var s' := SetValue(s, At(Cur(s), k), None).(held := s.held - {k});
    assert Formed(s') by {
      forall i | 0 <= i < |s'.headers| ensures HeaderFormed(s'.headers[i], |s'.entries|) {
        assert HeaderFormed(s.headers[i], |s.entries|);
      }
      HeadersStayFormed(s, s');
    }
    hide Formed, OldInv, ConsumerFormed, ConsumerInv, Slot, Distinct, HeldInv, KeysInv, AheadInv, Live;
    RemoveKept(Cur(s), s.entries, s.b, s.n, Busy(s.producer), s.pub, Back(s.producer), s.held, k, Back(s.producer));
  }

  lemma OwnPins(s: State, c: Consumer)
    requires Formed(s) && c.Got? && ConsumerFormed(s, c) && ConsumerInv(s, c)
    ensures forall k: nat :: Pins(Onward(s, c), k) ==> k in s.held - {c.k}
  {
    hide Formed, Slot, Marks, MarksKey;
  }

  lemma OtherPins(s: State, t: Tid, u: Tid)
    requires t < |s.consumers| && u < |s.consumers| && u != t && s.consumers[t].Got?
    requires !PinnedByOther(s, t, s.consumers[t].k)
    ensures !Pins(s.consumers[u], s.consumers[t].k)
  {
  }

  lemma ClaimIsTaken(s: State, t: Tid, k: nat, last: nat)
    requires Formed(s) && t < |s.consumers| && s.consumers[t].Ready? && k <= last < s.pub
    requires forall j :: k <= j <= last ==> j in s.held
    ensures Step(s, Claim(t, k, last)) == s.(consumers := s.consumers[t := Claimed(k, last)])
  {
    hide Formed, InsertStep, TakeBackStep, ConsumeStep;
  }

  lemma ClaimKeepsInv(s: State, t: Tid, first: nat, last: nat)
    requires Inv(s)
    ensures Inv(Step(s, Claim(t, first, last)))
  {
    StepStaysFormed(s, Claim(t, first, last));
    var s' := Step(s, Claim(t, first, last));
    if s' != s {
      hide CurInv, OldInv, Marks, MarksKey, Slot;
      OnlyConsumers(s, s', t);
    }
  }

  lemma StepKeepsInv(s: State, a: Action)
    requires Inv(s)
    ensures Inv(Step(s, a))
  {
    hide Inv, Formed, InsertStep, TakeBackStep, ConsumeStep;
    assert Formed(s) by { InvIsFormed(s); }
    match a
    case Insert(memory, junk) => if s.producer.Idle? { InsertKeepsInv(s, memory, junk); }
    case StoreTail => if s.producer.KeyStored? { StoreTailKeepsInv(s); }
    case Attach(block) => if s.producer.TailStored? { AttachKeepsInv(s, block); }
    case GiveUp => if s.producer.TailStored? { GiveUpKeepsInv(s); }
    case Publish => if s.producer.Idle? { PublishKeepsInv(s); }
    case TakeBack => TakeBackKeepsInv(s);
    case Claim(t, k, last) => ClaimKeepsInv(s, t, k, last);
    case Consume(t, gone) =>
      if t < |s.consumers| {
        if s.consumers[t].Got? && gone && !PinnedByOther(s, t, s.consumers[t].k) {
          RemoveKeepsInv(s, t);
        } else {
          LoadKeepsInv(s, t, gone);
        }
      }
  }

  lemma InvIsFormed(s: State)
    requires Inv(s)
    ensures Formed(s)
  {
  }

  // ---------------------------------------------------------------- every run

  lemma {:induction false} RunKeepsInv(b: nat, cap: nat, junk: Option<nat>, threads: nat, acts: seq<Action>)
    requires b >= 2 && cap > 0
    ensures Inv(Run(b, cap, junk, threads, acts))
  {
    if acts == [] {
      Quotient(-1, -1, cap - 1, cap);
      SharedSame(Cur(Init(b, cap, junk, threads)), 0, map[]);
    } else {
      RunKeepsInv(b, cap, junk, threads, acts[..|acts| - 1]);
      StepKeepsInv(Run(b, cap, junk, threads, acts[..|acts| - 1]), acts[|acts| - 1]);
    }
  }

  /** Over every run and however the loads and stores interleave: what a consumer loads through the header
      it read is the block of its ticket, and the entry has that block's base. */
  lemma LookupFindsBlock(b: nat, cap: nat, junk: Option<nat>, threads: nat, acts: seq<Action>, t: Tid)
    requires b >= 2 && cap > 0
    requires var s := Run(b, cap, junk, threads, acts); t < |s.consumers| && s.consumers[t].Got?
    ensures var s := Run(b, cap, junk, threads, acts);
      var c := s.consumers[t];
      c.k in s.held && c.block == Some(s.held[c.k]) && ConsumerFormed(s, c) &&
        Load(s, c.h, c.slot) == Entry(c.k * b, c.block)
  {
    var s := Run(b, cap, junk, threads, acts);
    RunKeepsInv(b, cap, junk, threads, acts);
    ThreadOf(s, t);
    RunKeepsBlockSize(b, cap, junk, threads, acts);
    hide Formed, CurInv, OldInv, Slot, Run;
    HeldIsLive(s.pub, s.held, s.consumers[t].k, s.consumers[t].k);
    LiveEntry(s, s.consumers[t].h, s.consumers[t].k);
  }

  lemma StepKeepsBlockSize(s: State, a: Action)
    requires Formed(s)
    ensures Step(s, a).b == s.b
  {
    hide PinnedByOther, Free, Slot, Found;
  }

  lemma {:induction false} RunKeepsBlockSize(b: nat, cap: nat, junk: Option<nat>, threads: nat, acts: seq<Action>)
    requires b >= 2 && cap > 0
    ensures Run(b, cap, junk, threads, acts).b == b
  {
    hide Step, Formed;
    if acts != [] {
      RunKeepsBlockSize(b, cap, junk, threads, acts[..|acts| - 1]);
      StepKeepsBlockSize(Run(b, cap, junk, threads, acts[..|acts| - 1]), acts[|acts| - 1]);
    }
  }

  /** The key loaded at the tail is one of a block, never INVALID_BLOCK_BASE (2958), and of no block
      older than the consumer's. */
  lemma TailKeyIsValid(b: nat, cap: nat, junk: Option<nat>, threads: nat, acts: seq<Action>, t: Tid)
    requires b >= 2 && cap > 0
    requires var s := Run(b, cap, junk, threads, acts); t < |s.consumers| && s.consumers[t].Keyed?
    ensures var c := Run(b, cap, junk, threads, acts).consumers[t];
      c.key != INVALID && c.key % b == 0 && c.key >= c.k * b
  {
    var s := Run(b, cap, junk, threads, acts);
    RunKeepsInv(b, cap, junk, threads, acts);
    RunKeepsBlockSize(b, cap, junk, threads, acts);
    ThreadOf(s, t);
    hide Formed, CurInv, OldInv, Slot, Run;
    var c := s.consumers[t];
    var j: nat :| c.k <= j < s.headers[c.h].high && c.tail == PlaceOf(s.headers[c.h], j) && c.key == j * s.b;
    NotInvalid(j, b);
    Quotient(j * b, j, 0, b);
    MulMonotone(c.k, j, b);
  }

  // ---------------------------------------------------------------- a failed bulk enqueue

  /** The producer takes back what it could not use, while consumers stand still. */
  function TakingBack(s: State, n: nat): (s': State)
    requires Formed(s)
    ensures Formed(s')
  {
    if n == 0 then s
    else
      StepStaysFormed(TakingBack(s, n - 1), TakeBack);
      Step(TakingBack(s, n - 1), TakeBack)
  }

  /** The steps that takes. */
  function BackLeft(s: State): nat {
    var unpublished := if s.pub < s.n then s.n - s.pub else 0;
    match s.producer
    case Failing(_) => if unpublished > 0 then 2 * unpublished + 2 else 1
    case Clearing(r) => if r < unpublished then 2 * (unpublished - r) else 0
    case Rewinding(r) => if r < unpublished then 2 * (unpublished - r) - 1 else 0
    case _ => if unpublished > 0 then 2 * unpublished + 1 else 0
  }

  predicate Inserting(p: Producer) {
    p.KeyStored? || p.TailStored?
  }

  /** The published blocks stay in use. */
  ghost predicate PublishedStay(s: State, s': State) {
    && s'.pub == s.pub
    && forall k: nat :: k < s.pub ==> (k in s'.held <==> k in s.held) && (k in s.held ==> s'.held[k] == s.held[k])
  }

  lemma OneTakenBack(s: State)
    requires Formed(s) && CurInv(s) && !Inserting(s.producer) && BackLeft(s) > 0
    ensures var s' := Step(s, TakeBack);
      !Inserting(s'.producer) && BackLeft(s') == BackLeft(s) - 1 && PublishedStay(s, s')
  {
    hide OwnSlot, KeysInv, AheadInv, HeldInv;
  }

  lemma NothingLeftToTakeBack(s: State)
    requires Formed(s) && CurInv(s) && !Inserting(s.producer) && BackLeft(s) == 0
    ensures s.producer.Idle? && s.n == s.pub && forall k <- s.held :: k < s.pub
  {
    hide KeysInv, AheadInv;
  }

  /** From any state in which the producer is not inserting, its own steps take all unpublished blocks back,
      and leave the others. */
  lemma {:induction false} RollbackEnds(s: State)
    requires Inv(s) && !Inserting(s.producer)
    ensures Formed(s)
    ensures var s' := TakingBack(s, BackLeft(s));
      && Inv(s') && s'.producer.Idle? && s'.n == s'.pub
      && PublishedStay(s, s') && (forall k <- s'.held :: k < s.pub)
    decreases BackLeft(s)
  {
    hide Step, CurInv, OldInv, ConsumerInv, Formed;
    if BackLeft(s) == 0 {
      NothingLeftToTakeBack(s);
    } else {
      StepStaysFormed(s, TakeBack);
      var s1 := Step(s, TakeBack);
      OneTakenBack(s);
      StepKeepsInv(s, TakeBack);
      RollbackEnds(s1);
      FirstTakenBack(s, BackLeft(s1));
    }
  }

  lemma {:induction false} FirstTakenBack(s: State, n: nat)
    requires Formed(s)
    ensures Formed(Step(s, TakeBack)) && TakingBack(Step(s, TakeBack), n) == TakingBack(s, n + 1)
  {
    hide Step, Formed;
    StepStaysFormed(s, TakeBack);
    if n > 0 {
      FirstTakenBack(s, n - 1);
    }
  }

  // ---------------------------------------------------------------- through an old header

  /** A consumer loads the header; the producer replaces it by a larger one and registers another block;
      then the consumer goes on. */
  const LATE: seq<Action> :=
    [Insert(true, None), StoreTail, Attach(7), Publish, Claim(0, 0, 0), Consume(0, false),
     Insert(true, None), Insert(true, None), StoreTail, Attach(9),
     Consume(0, false), Consume(0, false), Consume(0, false), Consume(0, false)]

  function Late(n: nat): State
    requires n <= |LATE|
  {
    Run(2, 1, None, 1, LATE[..n])
  }

  lemma LateStep(n: nat)
    requires n < |LATE|
    ensures Late(n + 1) == Step(Late(n), LATE[n])
  {
    hide Step, Formed;
    assert LATE[..n + 1][..n] == LATE[..n];
  }

  /** The headers and entries before and after the growth. */
  const OLD: Header := Header([0], 0, 0, 1)

  function Small(entry: Entry, high: nat, n: nat, pub: nat, held: Held, p: Producer, c: Consumer): State {
    State(2, [entry], [OLD.(high := high)], n, pub, held, p, [c])
  }

  function Large(key: Entry, tail: int, high: nat, n: nat, held: Held, p: Producer, c: Consumer): State {
    State(2, [Entry(0, Some(7)), key], [OLD, Header([0, 1], tail, 0, high)], n, 1, held, p, [c])
  }

  lemma LateStart()
    ensures Late(0) == Small(Entry(INVALID, None), 0, 0, 0, map[], Idle, Ready)
  {
    var s := Init(2, 1, None, 1);
    assert LATE[..0] == [] && s.entries == [Entry(INVALID, None)] && s.headers[0].slots == [0] &&
      s.consumers == [Ready];
  }

  lemma FirstKey()
    ensures Late(2) == Small(Entry(0, None), 1, 0, 0, map[], TailStored, Ready)
  {
    LateStart();
    LateStep(0);
    LateStep(1);
    hide Late, Formed, TakeBackStep, ConsumeStep, Grow;
    assert Late(1) == Small(Entry(0, None), 1, 0, 0, map[], KeyStored, Ready);
  }

  lemma FirstBlock()
    ensures Late(4) == Small(Entry(0, Some(7)), 1, 1, 1, map[0 := 7], Idle, Ready)
  {
    FirstKey();
    LateStep(2);
    LateStep(3);
    hide Late, Formed, TakeBackStep, ConsumeStep, InsertStep;
    assert Late(3) == Small(Entry(0, Some(7)), 1, 1, 0, map[0 := 7], Idle, Ready);
  }

  lemma ConsumeIs(s: State, t: Tid)
    requires Formed(s) && t < |s.consumers|
    ensures ConsumerFormed(s, s.consumers[t])
    ensures Step(s, Consume(t, false)) == s.(consumers := s.consumers[t := Onward(s, s.consumers[t])])
  {
    hide Onward, InsertStep, TakeBackStep, PinnedByOther;
  }

  lemma ClaimIs(s: State, t: Tid, k: nat)
    requires Formed(s) && t < |s.consumers| && s.consumers[t].Ready? && k < s.pub && k in s.held
    ensures Step(s, Claim(t, k, k)) == s.(consumers := s.consumers[t := Claimed(k, k)])
  {
    hide Formed, InsertStep, TakeBackStep, ConsumeStep;
  }

  lemma TicketClaimed()
    ensures Late(5) == Small(Entry(0, Some(7)), 1, 1, 1, map[0 := 7], Idle, Claimed(0, 0))
  {
    FirstBlock();
    LateStep(4);
    hide Late, Formed, Step;
    ClaimIs(Late(4), 0, 0);
  }

  lemma HeaderLoaded()
    ensures Late(6) == Small(Entry(0, Some(7)), 1, 1, 1, map[0 := 7], Idle, Headed(0, 0, 0))
  {
    TicketClaimed();
    LateStep(5);
    hide Late, Formed, Step;
    ConsumeIs(Late(5), 0);
  }

  lemma IndexGrown()
    ensures Late(7) == Large(Entry(INVALID, None), 0, 1, 1, map[0 := 7], Idle, Headed(0, 0, 0))
  {
    HeaderLoaded();
    LateStep(6);
    hide Late, Formed, TakeBackStep, ConsumeStep;
    assert GrownSlots(OLD, 1) == [0, 1];
  }

  lemma SecondKey()
    ensures Late(8) == Large(Entry(2, None), 0, 2, 1, map[0 := 7], KeyStored, Headed(0, 0, 0))
  {
    IndexGrown();
    LateStep(7);
    hide Late, Formed, TakeBackStep, ConsumeStep, Grow;
  }

  lemma SecondTail()
    ensures Late(9) == Large(Entry(2, None), 1, 2, 1, map[0 := 7], TailStored, Headed(0, 0, 0))
  {
    SecondKey();
    LateStep(8);
    hide Late, Formed, TakeBackStep, ConsumeStep, InsertStep;
  }

  lemma SecondBlock()
    ensures Late(10) == Large(Entry(2, Some(9)), 1, 2, 2, map[0 := 7, 1 := 9], Idle, Headed(0, 0, 0))
  {
    SecondTail();
    LateStep(9);
    hide Late, Formed, TakeBackStep, ConsumeStep, InsertStep;
  }

  function WithConsumer(s: State, c: Consumer): State {
    s.(consumers := [c])
  }

  lemma TailLoaded()
    ensures Late(12) == WithConsumer(Late(10), Keyed(0, 0, 0, 0, 0))
  {
    SecondBlock();
    LateStep(10);
    LateStep(11);
    hide Late, Formed, Step;
    ConsumeIs(Late(10), 0);
    assert Late(11) == WithConsumer(Late(10), Tailed(0, 0, 0, 0));
    ConsumeIs(Late(11), 0);
  }

  /** The rest of the lookup goes through the header that was replaced, and gives the block. */
  lemma FoundThroughOldHeader()
    ensures var s := Late(14); |s.headers| == 2 && s.consumers == [Got(0, 0, 0, 0, Some(7))]
  {
    SecondBlock();
    TailLoaded();
    LateStep(12);
    LateStep(13);
    hide Late, Formed, Step;
    ConsumeIs(Late(12), 0);
    assert Late(13) == WithConsumer(Late(10), Located(0, 0, 0, 0));
    ConsumeIs(Late(13), 0);
  }
}
