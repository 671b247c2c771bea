/** AtomicQueueB2 of src/util/atomic_queue/atomic_queue.h with one producer and one consumer
    (SPSC, as src/util/queue_generator.h line 22 makes it): push, pop, try_push and try_pop (213-328)
    over 32-bit tickets and slot states.

    Every load or store of `head_`, `tail_`, a slot state or a slot's element is one step of one of
    the two threads.  `accepted` and `popped` are history: the values that got a ticket, and what pop
    returned, both in order. */
module SpscQueue {
  import opened Bits
  import opened SlotMap
  import opened Wrappers

  datatype SlotState = Empty | Stored

  datatype Producer<T> =
    | ReadyP
    | LoadHead(v: T, trying: bool)      // 267, 307
    | CheckTail(v: T, head: nat)        // 269
    | StoreHead(v: T, head: nat)        // 271, 308
    | AwaitEmpty(v: T, head: nat)       // 242
    | Write(v: T, head: nat)            // 245
    | Publish(head: nat)                // 246

  datatype Consumer<T> =
    | ReadyC
    | LoadTail(trying: bool)            // 286, 320
    | CheckHead(tail: nat)              // 288
    | StoreTail(tail: nat)              // 290, 321
    | AwaitStored(tail: nat)            // 216
    | Read(tail: nat)                   // 219
    | Release(tail: nat, v: Option<T>)  // 220

  /** `size_` is Pow2(k); `slot` gives the array index of a ticket. */
  datatype State<T> = State(
    bits: nat,
    k: nat,
    slot: nat -> nat,
    head: nat,
    tail: nat,
    states: seq<SlotState>,
    cells: seq<Option<T>>,
    p: Producer<T>,
    c: Consumer<T>,
    accepted: seq<T>,
    popped: seq<Option<T>>)

  datatype Action<T> = Produce(v: T, trying: bool) | Consume(trying: bool)

  function Init<T>(bits: nat, k: nat): State<T> {
    State(bits, k, Slots(bits, k), 0, 0, seq(Pow2(k), _ => Empty), seq(Pow2(k), _ => None), ReadyP, ReadyC, [], [])
  }

  function Slots(bits: nat, k: nat): nat -> nat {
    (ticket: nat) => Slot(bits, Pow2(k), ticket)
  }

  /** A 32-bit value read as a signed one. */
  function Signed(x: int): int {
    var u := x % UINT32;
    if u < 0x8000_0000 then u else u - UINT32
  }

  function Increment(ticket: nat): nat {
    (ticket + 1) % UINT32
  }

  function ProducerStep<T>(s: State<T>, v: T, trying: bool): State<T> {
    match s.p
    case ReadyP => s.(p := LoadHead(v, trying))
    case LoadHead(v, trying) => s.(p := if trying then CheckTail(v, s.head) else StoreHead(v, s.head))
    case CheckTail(v, head) =>
      s.(p := if Signed(head - s.tail) >= Signed(Pow2(s.k)) then ReadyP else StoreHead(v, head))
    case StoreHead(v, head) =>
      s.(p := AwaitEmpty(v, head), head := Increment(head), accepted := s.accepted + [v])
    case AwaitEmpty(v, head) =>
      if s.slot(head) < |s.states| && s.states[s.slot(head)] == Empty then s.(p := Write(v, head)) else s
    case Write(v, head) =>
      if s.slot(head) < |s.cells| then s.(p := Publish(head), cells := s.cells[s.slot(head) := Some(v)]) else s
    case Publish(head) =>
      if s.slot(head) < |s.states| then s.(p := ReadyP, states := s.states[s.slot(head) := Stored]) else s
  }

  function ConsumerStep<T>(s: State<T>, trying: bool): State<T> {
    match s.c
    case ReadyC => s.(c := LoadTail(trying))
    case LoadTail(trying) => s.(c := if trying then CheckHead(s.tail) else StoreTail(s.tail))
    case CheckHead(tail) => s.(c := if Signed(s.head - tail) <= 0 then ReadyC else StoreTail(tail))
    case StoreTail(tail) => s.(c := AwaitStored(tail), tail := Increment(tail))
    case AwaitStored(tail) =>
      if s.slot(tail) < |s.states| && s.states[s.slot(tail)] == Stored then s.(c := Read(tail)) else s
    case Read(tail) =>
      if s.slot(tail) < |s.cells|
      then s.(c := Release(tail, s.cells[s.slot(tail)]), cells := s.cells[s.slot(tail) := None]) else s
    case Release(tail, v) =>
      if s.slot(tail) < |s.states|
      then s.(c := ReadyC, states := s.states[s.slot(tail) := Empty], popped := s.popped + [v]) else s
  }

  function Step<T>(s: State<T>, a: Action<T>): State<T> {
    match a
    case Produce(v, trying) => ProducerStep(s, v, trying)
    case Consume(trying) => ConsumerStep(s, trying)
  }

  function Run<T>(bits: nat, k: nat, acts: seq<Action<T>>): State<T> {
    if acts == [] then Init(bits, k) else Step(Run(bits, k, acts[..|acts| - 1]), acts[|acts| - 1])
  }

  // ---------------------------------------------------------------- the invariant

  /** The producer has a ticket and has not published its element. */
  predicate Pushing<T>(p: Producer<T>) {
    p.AwaitEmpty? || p.Write? || p.Publish?
  }

  /** The consumer has a ticket and has not released its slot. */
  predicate Popping<T>(c: Consumer<T>) {
    c.AwaitStored? || c.Read? || c.Release?
  }

  /** Pushes published so far. */
  function Published<T>(s: State<T>): int {
    |s.accepted| - if Pushing(s.p) then 1 else 0
  }

  /** The slot of the i-th element. */
  function At<T>(s: State<T>, i: nat): nat {
    s.slot(i % UINT32)
  }

  /** Element i sits in its slot, unless the consumer just took it out. */
  ghost predicate Sits<T>(s: State<T>, i: nat) {
    && At(s, i) < |s.states| == |s.cells|
    && s.states[At(s, i)] == Stored
    && i < |s.accepted|
    && (s.cells[At(s, i)] == Some(s.accepted[i]) || (i == |s.popped| && s.c.Release?))
  }

  predicate Vacant<T>(s: State<T>, i: nat) {
    At(s, i) < |s.states| && s.states[At(s, i)] == Empty
  }

  /** A window of at most `size_` published elements; the slots of the next ones are empty. */
  ghost predicate Window<T>(s: State<T>) {
    && (forall i :: |s.popped| <= i < Published(s) ==> Sits(s, i))
    && (forall i :: 0 <= Published(s) <= i < |s.popped| + Pow2(s.k) ==> Vacant(s, i))
  }

  predicate Counters<T>(s: State<T>) {
    && |s.states| == |s.cells| == Pow2(s.k)
    && s.head == |s.accepted| % UINT32
    && s.tail == (|s.popped| + if Popping(s.c) then 1 else 0) % UINT32
    && |s.popped| <= Published(s) <= |s.popped| + Pow2(s.k)
  }

  /** What the i-th pop returned. */
  ghost predicate Returned<T>(s: State<T>, i: nat) {
    i < |s.popped| && i < |s.accepted| && s.popped[i] == Some(s.accepted[i])
  }

  ghost predicate History<T>(s: State<T>) {
    forall i :: 0 <= i < |s.popped| ==> Returned(s, i)
  }

  ghost predicate ProducerOk<T>(s: State<T>) {
    var n := |s.accepted|;
    match s.p
    case CheckTail(_, head) => head == n % UINT32
    case StoreHead(_, head) => head == n % UINT32
    case AwaitEmpty(v, head) => n > 0 && head == (n - 1) % UINT32 && v == s.accepted[n - 1]
    case Write(v, head) =>
      n > 0 && head == (n - 1) % UINT32 && v == s.accepted[n - 1] && n - 1 < |s.popped| + Pow2(s.k)
    case Publish(head) =>
      && n > 0 && head == (n - 1) % UINT32 && n - 1 < |s.popped| + Pow2(s.k)
      && At(s, n - 1) < |s.cells| && s.cells[At(s, n - 1)] == Some(s.accepted[n - 1])
    case _ => true
  }

  ghost predicate ConsumerOk<T>(s: State<T>) {
    var n := |s.popped|;
    match s.c
    case CheckHead(tail) => tail == n % UINT32
    case StoreTail(tail) => tail == n % UINT32
    case AwaitStored(tail) => tail == n % UINT32
    case Read(tail) => tail == n % UINT32 && n < Published(s)
    case Release(tail, v) => tail == n % UINT32 && n < Published(s) && v == Some(s.accepted[n])
    case _ => true
  }

  ghost predicate Inv<T>(s: State<T>) {
    && 2 * s.bits <= s.k <= 32 && s.slot == Slots(s.bits, s.k)
    && Counters(s)
    && Window(s)
    && History(s)
    && ProducerOk(s)
    && ConsumerOk(s)
  }

  /** Two elements of a window of `size_` never share a slot. */
  lemma Apart<T>(s: State<T>, i: nat, j: nat)
    requires Inv(s) && i != j && i < j + Pow2(s.k) && j < i + Pow2(s.k)
    ensures At(s, i) != At(s, j)
  {
    SlotsAreDistinct(s.bits, s.k, i, j);
    SlotsAreDistinct(s.bits, s.k, j, i);
  }

  lemma Inside<T>(s: State<T>, i: nat)
    requires Inv(s)
    ensures At(s, i) < Pow2(s.k) && At(s, i + Pow2(s.k)) == At(s, i)
  {
    SlotsAreDistinct(s.bits, s.k, i, i);
    SlotsComeRound(s.bits, s.k, i);
  }

  /** A step that changes neither slots nor the history of pops. */
  lemma QuietStep<T>(s: State<T>, s': State<T>)
    requires Window(s) && s.states == s'.states && s.cells == s'.cells && s.popped == s'.popped
    requires s.slot == s'.slot && s.k == s'.k && s.accepted <= s'.accepted && Published(s) == Published(s')
    requires s.c.Release? ==> s'.c.Release?
    ensures Window(s')
  {
    forall i | |s'.popped| <= i < Published(s') ensures Sits(s', i) {
      assert Sits(s, i);
    }
    forall i | 0 <= Published(s') <= i < |s'.popped| + Pow2(s'.k) ensures Vacant(s', i) {
      assert Vacant(s, i);
    }
  }

  /** The element goes into a slot no element of the window uses. */
  lemma WriteKept<T>(s: State<T>, a: Action<T>)
    requires Inv(s) && a.Produce? && s.p.Write?
    ensures Window(Step(s, a))
  {
    var s', n := Step(s, a), Published(s);
    Inside(s, n);
    forall i | |s'.popped| <= i < Published(s') ensures Sits(s', i) {
      assert Sits(s, i);
      Apart(s, i, n);
    }
    forall i | 0 <= Published(s') <= i < |s'.popped| + Pow2(s'.k) ensures Vacant(s', i) {
      assert Vacant(s, i);
    }
  }

  /** Publishing: the window grows by the element just written. */
  lemma PublishKept<T>(s: State<T>, a: Action<T>)
    requires Inv(s) && a.Produce? && s.p.Publish?
    ensures Window(Step(s, a))
  {
    var s', n := Step(s, a), Published(s);
    forall i | |s'.popped| <= i < Published(s') ensures Sits(s', i) {
      if i < n {
        assert Sits(s, i);
        Apart(s, i, n);
      }
    }
    forall i | 0 <= Published(s') <= i < |s'.popped| + Pow2(s'.k) ensures Vacant(s', i) {
      assert Vacant(s, i);
      Apart(s, i, n);
    }
  }

  /** Taking the first element of the window out of its slot. */
  lemma ReadKeepsWindow<T>(s: State<T>, a: Action<T>)
    requires Inv(s) && a.Consume? && s.c.Read?
    ensures Window(Step(s, a))
  {
    var s', n := Step(s, a), |s.popped|;
    assert Sits(s, n);
    forall i | |s'.popped| <= i < Published(s') ensures Sits(s', i) {
      assert Sits(s, i);
      if i != n {
        Apart(s, i, n);
      }
    }
    forall i | 0 <= Published(s') <= i < |s'.popped| + Pow2(s'.k) ensures Vacant(s', i) {
      assert Vacant(s, i);
    }
  }

  lemma ReadKeepsThreads<T>(s: State<T>, a: Action<T>)
    requires Inv(s) && a.Consume? && s.c.Read?
    ensures ConsumerOk(Step(s, a)) && ProducerOk(Step(s, a))
  {
    assert Sits(s, |s.popped|);
    if s.p.Publish? {
      Apart(s, |s.popped|, Published(s));
    }
  }

  /** Releasing the slot: the window loses its first element, ... */
  lemma ReleaseKeepsOthers<T>(s: State<T>, a: Action<T>, i: nat)
    requires Inv(s) && a.Consume? && s.c.Release? && |s.popped| < i < Published(s)
    ensures Sits(Step(s, a), i)
  {
    assert Sits(s, i);
    Apart(s, i, |s.popped|);
  }

  /** ... and its slot is that of the element `size_` later. */
  lemma ReleaseVacates<T>(s: State<T>, a: Action<T>, i: nat)
    requires Inv(s) && a.Consume? && s.c.Release? && Published(s) <= i <= |s.popped| + Pow2(s.k)
    ensures Vacant(Step(s, a), i)
  {
    var n := |s.popped|;
    Inside(s, n);
    if i < n + Pow2(s.k) {
      assert Vacant(s, i);
      Apart(s, i, n);
    }
  }

  lemma ReleaseKept<T>(s: State<T>, a: Action<T>)
    requires Inv(s) && a.Consume? && s.c.Release?
    ensures Window(Step(s, a))
  {
    var s' := Step(s, a);
    Inside(s, |s.popped|);
    forall i | |s'.popped| <= i < Published(s') ensures Sits(s', i) {
      ReleaseKeepsOthers(s, a, i);
    }
    forall i | 0 <= Published(s') <= i < |s'.popped| + Pow2(s'.k) ensures Vacant(s', i) {
      ReleaseVacates(s, a, i);
    }
  }

  /** The producer sees the slot empty only if the window has room. */
  lemma AwaitedRoom<T>(s: State<T>)
    requires Inv(s) && s.p.AwaitEmpty?
    ensures var n := Published(s);
      At(s, n) < |s.states| && (s.states[At(s, n)] == Empty <==> n < |s.popped| + Pow2(s.k))
    ensures s.slot(s.p.head) == At(s, Published(s))
  {
    var n := Published(s);
    Inside(s, n);
    if n == |s.popped| + Pow2(s.k) {
      Inside(s, |s.popped|);
      assert Sits(s, |s.popped|);
    } else {
      assert Vacant(s, n);
    }
  }

  /** The consumer sees the slot stored only if the window has an element. */
  lemma AwaitedElement<T>(s: State<T>)
    requires Inv(s) && s.c.AwaitStored?
    ensures var n := |s.popped|;
      At(s, n) < |s.states| && (s.states[At(s, n)] == Stored <==> n < Published(s))
    ensures s.slot(s.c.tail) == At(s, |s.popped|)
  {
    var n := |s.popped|;
    Inside(s, n);
    if n < Published(s) {
      assert Sits(s, n);
    } else {
      assert Vacant(s, n);
    }
  }

  lemma NextTicket(n: nat)
    ensures Increment(n % UINT32) == (n + 1) % UINT32
  {
  }

  /** Taking a ticket. */
  lemma TicketTaken<T>(s: State<T>, a: Action<T>)
    requires Counters(s) && ProducerOk(s) && ConsumerOk(s) && a.Produce? && s.p.StoreHead?
    ensures var s' := Step(s, a); Counters(s') && ProducerOk(s') && ConsumerOk(s') && Published(s') == Published(s)
  {
    hide Pow2, Signed, At, Increment;
    NextTicket(|s.accepted|);
  }

  lemma ProducerMoves<T>(s: State<T>, a: Action<T>)
    requires Counters(s) && ProducerOk(s) && ConsumerOk(s)
    requires a.Produce? && !s.p.Write? && !s.p.Publish? && !s.p.StoreHead?
    requires s.p.AwaitEmpty? && Vacant(s, Published(s)) ==> Published(s) < |s.popped| + Pow2(s.k)
    ensures var s' := Step(s, a); Counters(s') && ProducerOk(s') && ConsumerOk(s') && Published(s') == Published(s)
  {
  }

  lemma ProducerKept<T>(s: State<T>, a: Action<T>)
    requires Inv(s) && a.Produce? && !s.p.Write? && !s.p.Publish?
    ensures Inv(Step(s, a))
  {
    if s.p.AwaitEmpty? {
      AwaitedRoom(s);
    }
    if s.p.StoreHead? {
      TicketTaken(s, a);
    } else {
      ProducerMoves(s, a);
    }
    HistoryKept(s, a);
    QuietStep(s, Step(s, a));
  }

  lemma HistoryKept<T>(s: State<T>, a: Action<T>)
    requires Counters(s) && History(s) && ConsumerOk(s)
    ensures History(Step(s, a))
  {
    forall i | 0 <= i < |Step(s, a).popped| ensures Returned(Step(s, a), i) {
      if i < |s.popped| {
        assert Returned(s, i);
      }
    }
  }

  lemma StoreKeepsThreads<T>(s: State<T>, a: Action<T>)
    requires Counters(s) && ProducerOk(s) && ConsumerOk(s) && a.Produce? && (s.p.Write? || s.p.Publish?)
    requires At(s, Published(s)) < Pow2(s.k)
    ensures var s' := Step(s, a); Counters(s') && ProducerOk(s') && ConsumerOk(s')
  {
    hide Pow2, Signed;
  }

  lemma ProducerStores<T>(s: State<T>, a: Action<T>)
    requires Inv(s) && a.Produce? && (s.p.Write? || s.p.Publish?)
    ensures Inv(Step(s, a))
  {
    Inside(s, Published(s));
    HistoryKept(s, a);
    StoreKeepsThreads(s, a);
    if s.p.Write? {
      WriteKept(s, a);
    } else {
      PublishKept(s, a);
    }
  }

  /** What the producer relies on when a step leaves its part of the state. */
  lemma ProducerUndisturbed<T>(s: State<T>, s': State<T>)
    requires ProducerOk(s) && s'.p == s.p && s'.accepted == s.accepted && s'.popped == s.popped
    requires s'.k == s.k && s'.slot == s.slot && s'.cells == s.cells
    ensures ProducerOk(s')
  {
    hide Pow2;
  }

  lemma ConsumerMoves<T>(s: State<T>, a: Action<T>)
    requires Counters(s) && ProducerOk(s) && ConsumerOk(s)
    requires a.Consume? && !s.c.Read? && !s.c.Release?
    requires s.c.AwaitStored? ==>
      At(s, |s.popped|) < |s.states| && (s.states[At(s, |s.popped|)] == Stored ==> |s.popped| < Published(s))
    ensures var s' := Step(s, a); Counters(s') && ProducerOk(s') && ConsumerOk(s')
  {
    hide Pow2, Signed, Increment, ProducerOk;
    NextTicket(|s.popped|);
    ProducerUndisturbed(s, Step(s, a));
  }

  lemma ConsumerKept<T>(s: State<T>, a: Action<T>)
    requires Inv(s) && a.Consume? && !s.c.Read? && !s.c.Release?
    ensures Inv(Step(s, a))
  {
    if s.c.AwaitStored? {
      AwaitedElement(s);
    }
    ConsumerMoves(s, a);
    HistoryKept(s, a);
    QuietStep(s, Step(s, a));
  }

  lemma ReleaseKeepsThreads<T>(s: State<T>, a: Action<T>)
    requires Counters(s) && ProducerOk(s) && ConsumerOk(s) && a.Consume? && s.c.Release?
    requires At(s, |s.popped|) < Pow2(s.k)
    ensures var s' := Step(s, a); Counters(s') && ProducerOk(s') && ConsumerOk(s')
  {
  }

  lemma ConsumerTakes<T>(s: State<T>, a: Action<T>)
    requires Inv(s) && a.Consume? && (s.c.Read? || s.c.Release?)
    ensures Inv(Step(s, a))
  {
    Inside(s, |s.popped|);
    HistoryKept(s, a);
    if s.c.Read? {
      ReadKeepsWindow(s, a);
      ReadKeepsThreads(s, a);
    } else {
      ReleaseKept(s, a);
      ReleaseKeepsThreads(s, a);
    }
  }

  lemma StepKeepsInv<T>(s: State<T>, a: Action<T>)
    requires Inv(s)
    ensures Inv(Step(s, a)) && Step(s, a).bits == s.bits && Step(s, a).k == s.k
  {
    match a
    case Produce(_, _) =>
      if s.p.Write? || s.p.Publish? { ProducerStores(s, a); } else { ProducerKept(s, a); }
    case Consume(_) =>
      if s.c.Read? || s.c.Release? { ConsumerTakes(s, a); } else { ConsumerKept(s, a); }
  }

  // ---------------------------------------------------------------- every run

  /** The capacities a queue can have. */
  predicate Geometry(bits: nat, k: nat) {
    2 * bits <= k <= 31
  }

  lemma {:induction false} RunKeepsInv<T>(bits: nat, k: nat, acts: seq<Action<T>>)
    requires Geometry(bits, k)
    ensures var s := Run(bits, k, acts); Inv(s) && s.bits == bits && s.k == k
  {
    if acts == [] {
      var s := Init<T>(bits, k);
      forall i | 0 <= Published(s) <= i < |s.popped| + Pow2(s.k) ensures Vacant(s, i) {
        SlotsAreDistinct(bits, k, i, i);
      }
    } else {
      RunKeepsInv(bits, k, acts[..|acts| - 1]);
      StepKeepsInv(Run(bits, k, acts[..|acts| - 1]), acts[|acts| - 1]);
    }
  }

  /** Bounded FIFO over every run, however often the 32-bit tickets wrapped: what was popped is a
      prefix, in order, of what was pushed, and the elements pushed and not popped are at most the
      capacity, each in its own slot. */
  lemma BoundedFifo<T>(bits: nat, k: nat, acts: seq<Action<T>>, i: nat)
    requires Geometry(bits, k)
    ensures var s := Run(bits, k, acts);
      && |s.popped| <= Published(s) <= |s.popped| + Pow2(k)
      && Published(s) <= |s.accepted| <= Published(s) + 1
      && (i < |s.popped| ==> s.popped[i] == Some(s.accepted[i]))
      && (|s.popped| <= i < Published(s) ==> Sits(s, i))
      && (forall j :: |s.popped| <= i < j < Published(s) ==> At(s, i) != At(s, j))
  {
    RunKeepsInv(bits, k, acts);
    var s := Run(bits, k, acts);
    if i < |s.popped| {
      assert Returned(s, i);
    }
    forall j | |s.popped| <= i < j < Published(s) ensures At(s, i) != At(s, j) {
      Apart(s, i, j);
    }
  }

  /** Nobody waits for nothing: a push that has its ticket finds its slot empty exactly when there is
      room, ... */
  lemma PushWaitsForRoom<T>(bits: nat, k: nat, acts: seq<Action<T>>)
    requires Geometry(bits, k) && Run(bits, k, acts).p.AwaitEmpty?
    ensures var s := Run(bits, k, acts);
      && s.slot(s.p.head) < |s.states|
      && (s.states[s.slot(s.p.head)] == Empty <==> Published(s) < |s.popped| + Pow2(k))
  {
    RunKeepsInv(bits, k, acts);
    AwaitedRoom(Run(bits, k, acts));
  }

  /** ... and a pop finds its slot stored exactly when there is an element. */
  lemma PopWaitsForElement<T>(bits: nat, k: nat, acts: seq<Action<T>>)
    requires Geometry(bits, k) && Run(bits, k, acts).c.AwaitStored?
    ensures var s := Run(bits, k, acts);
      && s.slot(s.c.tail) < |s.states|
      && (s.states[s.slot(s.c.tail)] == Stored <==> |s.popped| < Published(s))
  {
    RunKeepsInv(bits, k, acts);
    AwaitedElement(Run(bits, k, acts));
  }

  lemma SignedDifference(a: nat, b: nat)
    ensures Signed(a % UINT32 - b % UINT32) == Signed(a - b)
  {
  }

  lemma SignedPower(k: nat)
    requires k <= 31
    ensures k < 31 ==> Signed(Pow2(k)) == Pow2(k) <= 0x4000_0000
    ensures k == 31 ==> Pow2(k) == 0x8000_0000
  {
    Pow2Of32();
    if k < 31 {
      Pow2Monotone(k, 30);
    }
  }

  lemma PushDecision(n: nat, taken: nat, k: nat)
    requires k <= 31 && -1 <= n - taken <= Pow2(k)
    ensures Signed(n % UINT32 - taken % UINT32) >= Signed(Pow2(k)) <==> (n - taken >= Pow2(k) || k == 31)
  {
    SignedDifference(n, taken);
    SignedPower(k);
  }

  lemma PopDecision(n: nat, taken: nat, k: nat)
    requires k <= 31 && 0 <= n - taken <= Pow2(k) + 1
    ensures Signed(n % UINT32 - taken % UINT32) <= 0 <==> (n == taken || n - taken >= 0x8000_0000)
  {
    hide Pow2;
    SignedDifference(n, taken);
    SignedPower(k);
  }

  /** When try_push refuses (269): exactly when the tickets out are the capacity, or always if the
      capacity is 2^31, which the signed comparison takes for negative. */
  lemma TryPushRefuses<T>(bits: nat, k: nat, acts: seq<Action<T>>, v: T)
    requires Geometry(bits, k) && Run(bits, k, acts).p.CheckTail?
    ensures var s := Run(bits, k, acts);
      var taken := |s.popped| + if Popping(s.c) then 1 else 0;
      Step(s, Produce(v, true)).p.ReadyP? <==> (|s.accepted| - taken >= Pow2(k) || k == 31)
  {
    RunKeepsInv(bits, k, acts);
    TryPushStep(Run(bits, k, acts), v);
  }

  lemma TryPushStep<T>(s: State<T>, v: T)
    requires Counters(s) && ProducerOk(s) && s.k <= 31 && s.p.CheckTail?
    ensures var taken := |s.popped| + if Popping(s.c) then 1 else 0;
      Step(s, Produce(v, true)).p.ReadyP? <==> (|s.accepted| - taken >= Pow2(s.k) || s.k == 31)
  {
    PushDecision(|s.accepted|, |s.popped| + if Popping(s.c) then 1 else 0, s.k);
  }

  /** A try_push into an empty queue of capacity 2^31, up to its comparison: it refuses. */
  lemma LargestQueueRefusesWhileEmpty<T>(v: T)
    ensures var s := Run(0, 31, [Produce(v, true), Produce(v, true)]);
      && s.p == CheckTail(v, 0) && s.accepted == [] && s.popped == [] && |s.states| == 0x8000_0000
      && Step(s, Produce(v, true)).p.ReadyP?
  {
    var a := Produce(v, true);
    assert [a, a][..1] == [a] && [a][..0] == [];
    var s := Run(0, 31, [a, a]);
    assert s == Init<T>(0, 31).(p := CheckTail(v, 0)) by {
      assert Run(0, 31, [a]) == Init<T>(0, 31).(p := LoadHead(v, true));
    }
    SignedPower(31);
    RunKeepsInv(0, 31, [a, a]);
    TryPushStep(s, v);
  }

  /** When try_pop refuses (288): exactly when no ticket is out that it could wait for, or when there
      are 2^31 of them or more. */
  lemma TryPopRefuses<T>(bits: nat, k: nat, acts: seq<Action<T>>)
    requires Geometry(bits, k) && Run(bits, k, acts).c.CheckHead?
    ensures var s := Run(bits, k, acts);
      Step<T>(s, Consume(true)).c.ReadyC? <==> (|s.accepted| == |s.popped| || |s.accepted| - |s.popped| >= 0x8000_0000)
  {
    RunKeepsInv(bits, k, acts);
    TryPopStep(Run(bits, k, acts));
  }

  lemma TryPopStep<T>(s: State<T>)
    requires Counters(s) && ConsumerOk(s) && s.k <= 31 && s.c.CheckHead?
    ensures Step<T>(s, Consume(true)).c.ReadyC?
      <==> (|s.accepted| == |s.popped| || |s.accepted| - |s.popped| >= 0x8000_0000)
  {
    PopDecision(|s.accepted|, |s.popped|, s.k);
  }

  // ---------------------------------------------------------------- one side alone

  /** One side makes n steps while the other stands still. */
  function Alone<T>(s: State<T>, a: Action<T>, n: nat): State<T> {
    if n == 0 then s else Step(Alone(s, a, n - 1), a)
  }

  function Steps<T>(a: Action<T>, n: nat): seq<Action<T>> {
    seq(n, _ => a)
  }

  lemma AloneOneMore<T>(s: State<T>, a: Action<T>, n: nat)
    ensures Alone(s, a, 0) == s && Alone(s, a, n + 1) == Step(Alone(s, a, n), a)
  {
    hide Step;
  }

  lemma {:induction false} AloneIsRun<T>(bits: nat, k: nat, acts: seq<Action<T>>, a: Action<T>, n: nat)
    ensures Run(bits, k, acts + Steps(a, n)) == Alone(Run(bits, k, acts), a, n)
  {
    hide Step;
    if n == 0 {
      assert acts + Steps(a, 0) == acts;
    } else {
      AloneIsRun(bits, k, acts, a, n - 1);
      var all := acts + Steps(a, n);
      assert all[..|all| - 1] == acts + Steps(a, n - 1);
    }
  }

  lemma {:induction false} AloneAdds<T>(s: State<T>, a: Action<T>, m: nat, n: nat)
    ensures Alone(Alone(s, a, m), a, n) == Alone(s, a, m + n)
  {
    hide Alone, Step;
    AloneOneMore(s, a, m);
    AloneOneMore(Alone(s, a, m), a, n);
    if n > 0 {
      AloneOneMore(s, a, m + n - 1);
      AloneOneMore(Alone(s, a, m), a, n - 1);
      AloneAdds(s, a, m, n - 1);
    }
  }

  lemma ThreeSteps<T>(s: State<T>, a: Action<T>)
    ensures Alone(s, a, 3) == Step(Step(Step(s, a), a), a)
  {
    hide Alone, Step;
    AloneOneMore(s, a, 0);
    AloneOneMore(s, a, 1);
    AloneOneMore(s, a, 2);
  }

  lemma TicketAlone<T>(s: State<T>, v: T)
    requires s.p.ReadyP?
    ensures Alone(s, Produce(v, false), 3)
      == s.(p := AwaitEmpty(v, s.head), head := Increment(s.head), accepted := s.accepted + [v])
  {
    hide Alone, Increment;
    ThreeSteps(s, Produce(v, false));
  }

  lemma StoreAlone<T>(s: State<T>, a: Action<T>)
    requires s.p.AwaitEmpty? && a.Produce? && s.slot(s.p.head) < |s.states| == |s.cells|
    requires s.states[s.slot(s.p.head)] == Empty
    ensures var x := s.slot(s.p.head);
      Alone(s, a, 3) == s.(p := ReadyP, cells := s.cells[x := Some(s.p.v)], states := s.states[x := Stored])
  {
    hide Alone, Increment;
    ThreeSteps(s, a);
  }

  lemma RoomIsVacant<T>(s: State<T>)
    requires Inv(s) && !Pushing(s.p) && |s.accepted| < |s.popped| + Pow2(s.k)
    ensures s.slot(s.head) < |s.states| == |s.cells| && s.states[s.slot(s.head)] == Empty
  {
    assert Vacant(s, |s.accepted|);
  }

  /** From any state of any run: a push into a queue with room that runs alone puts its element there and
      returns. */
  lemma SoloPushStores<T>(bits: nat, k: nat, acts: seq<Action<T>>, v: T)
    requires Geometry(bits, k)
    requires var s := Run(bits, k, acts); s.p.ReadyP? && |s.accepted| < |s.popped| + Pow2(k)
    ensures var s, s' := Run(bits, k, acts), Run(bits, k, acts + Steps(Produce(v, false), 6));
      var x := s.slot(s.head);
      && s'.p.ReadyP? && s'.c == s.c && s'.accepted == s.accepted + [v] && s'.popped == s.popped
      && x < |s.states| == |s.cells|
      && s'.states == s.states[x := Stored] && s'.cells == s.cells[x := Some(v)]
  {
    hide Alone, Run, Inv, Increment, Step, Pow2;
    var s, a := Run(bits, k, acts), Produce(v, false);
    RunKeepsInv(bits, k, acts);
    RoomIsVacant(s);
    TicketAlone(s, v);
    StoreAlone(Alone(s, a, 3), a);
    AloneAdds(s, a, 3, 3);
    AloneIsRun(bits, k, acts, a, 6);
  }

  lemma TailAlone<T>(s: State<T>)
    requires s.c.ReadyC?
    ensures Alone(s, Consume(false), 3) == s.(c := AwaitStored(s.tail), tail := Increment(s.tail))
  {
    hide Alone, Increment;
    ThreeSteps<T>(s, Consume(false));
  }

  lemma TakeAlone<T>(s: State<T>, a: Action<T>)
    requires s.c.AwaitStored? && a.Consume? && s.slot(s.c.tail) < |s.states| == |s.cells|
    requires s.states[s.slot(s.c.tail)] == Stored
    ensures var x := s.slot(s.c.tail);
      Alone(s, a, 3)
        == s.(c := ReadyC, cells := s.cells[x := None], states := s.states[x := Empty],
              popped := s.popped + [s.cells[x]])
  {
    hide Alone, Increment;
    ThreeSteps(s, a);
  }

  lemma ElementIsStored<T>(s: State<T>)
    requires Inv(s) && !Popping(s.c) && |s.popped| < Published(s)
    ensures s.slot(s.tail) < |s.states| == |s.cells| && s.states[s.slot(s.tail)] == Stored
    ensures |s.popped| < |s.accepted| && s.cells[s.slot(s.tail)] == Some(s.accepted[|s.popped|])
  {
    assert Sits(s, |s.popped|);
  }

  /** From any state of any run: a pop from a queue with a published element that runs alone takes the
      oldest one and returns. */
  lemma SoloPopTakes<T>(bits: nat, k: nat, acts: seq<Action<T>>)
    requires Geometry(bits, k)
    requires var s := Run(bits, k, acts); s.c.ReadyC? && |s.popped| < Published(s)
    ensures var s, s' := Run(bits, k, acts), Run(bits, k, acts + Steps(Consume(false), 6));
      var x := s.slot(s.tail);
      && s'.c.ReadyC? && s'.p == s.p && |s.popped| < |s.accepted|
      && s'.popped == s.popped + [Some(s.accepted[|s.popped|])] && s'.accepted == s.accepted
      && x < |s.states| == |s.cells| && s'.states == s.states[x := Empty]
  {
    hide Alone, Run, Inv, Increment, Step, Pow2;
    var s := Run(bits, k, acts);
    var a: Action<T> := Consume(false);
    RunKeepsInv(bits, k, acts);
    ElementIsStored(s);
    TailAlone(s);
    TakeAlone(Alone(s, a, 3), a);
    AloneAdds(s, a, 3, 3);
    AloneIsRun(bits, k, acts, a, 6);
  }

  /** The queues of the stages: src/util/queue_generator.h asks for 1024 elements, and with 64 slot
      states a cache line every size up to 4096 gets 4096. */
  lemma StageQueueCapacity(size: nat)
    requires 1 <= size <= 4096
    ensures Geometry(6, 12) && Capacity(6, size) == Pow2(12) == 4096
  {
    Pow2Adds(6, 6);
    assert Pow2(6) == 64;
    SmallSizeGetsMinimum(6, size);
  }
}
