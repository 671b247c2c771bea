/** AtomicQueueB2 of src/util/atomic_queue/atomic_queue.h with any number of producers and consumers
    (the branches for `spsc_ == false`, 223-336).

    Every atomic access of `head_`, `tail_` or a slot state and every move of an element is one step.
    Slots are not FIFO here: a producer one lap ahead may win a slot (LaterPushOvertakes).  What always
    holds is that a slot has at most one thread working in it and that no element is lost or duplicated;
    MpmcOrder says when the pops are in order.  `pushed` and `popped`
    are history: the values that got a ticket and what pops returned; `blanks` counts pops that found
    no element in their slot. */
module MpmcQueue {
  import opened Bits
  import opened SlotMap
  import opened Sums
  import opened Wrappers
  import Spsc = SpscQueue

  type Tid = nat

  datatype SlotState = Empty | Storing | Stored | Loading

  datatype Pc<T> =
    | Ready
    | FetchHead(v: T)                    // 312
    | LoadHead(v: T)                     // 267
    | CheckTail(v: T, ticket: nat)       // 275
    | CasHead(v: T, ticket: nat)         // 277
    | CasStoring(v: T, x: nat)           // 251
    | WriteCell(v: T, x: nat)            // 252
    | SetStored(x: nat)                  // 253
    | FetchTail                          // 325
    | LoadTail                           // 286
    | CheckHead(ticket: nat)             // 294
    | CasTail(ticket: nat)               // 296
    | CasLoading(x: nat)                 // 226
    | TakeCell(x: nat)                   // 227
    | SetEmpty(x: nat, out: Option<T>)   // 228

  datatype State<T> = State(
    k: nat,
    slot: nat -> nat,
    head: nat,
    tail: nat,
    states: seq<SlotState>,
    cells: seq<Option<T>>,
    pc: seq<Pc<T>>,
    pushed: multiset<T>,
    popped: multiset<T>,
    blanks: nat)

  datatype Call<T> = Push(v: T) | TryPush(v: T) | Pop | TryPop

  datatype Action<T> = Action(t: Tid, call: Call<T>)

  function Init<T>(bits: nat, k: nat, threads: nat): State<T> {
    State(k, Spsc.Slots(bits, k), 0, 0, seq(Pow2(k), _ => Empty), seq(Pow2(k), _ => None),
          seq(threads, _ => Ready), multiset{}, multiset{}, 0)
  }

  function Returned<T>(out: Option<T>): multiset<T> {
    if out.Some? then multiset{out.value} else multiset{}
  }

  function Move<T>(s: State<T>, pc: Pc<T>, call: Call<T>): Pc<T> {
    match pc
    case Ready =>
      (match call
       case Push(v) => FetchHead(v)
       case TryPush(v) => LoadHead(v)
       case Pop => FetchTail
       case TryPop => LoadTail)
    case FetchHead(v) => CasStoring(v, s.slot(s.head))
    case LoadHead(v) => CheckTail(v, s.head)
    case CheckTail(v, h) => if Spsc.Signed(h - s.tail) >= Spsc.Signed(Pow2(s.k)) then Ready else CasHead(v, h)
    case CasHead(v, h) => if s.head == h then CasStoring(v, s.slot(h)) else CheckTail(v, s.head)
    case CasStoring(v, x) => if x < |s.states| && s.states[x] == Empty then WriteCell(v, x) else pc
    case WriteCell(_, x) => SetStored(x)
    case SetStored(_) => Ready
    case FetchTail => CasLoading(s.slot(s.tail))
    case LoadTail => CheckHead(s.tail)
    case CheckHead(t) => if Spsc.Signed(s.head - t) <= 0 then Ready else CasTail(t)
    case CasTail(t) => if s.tail == t then CasLoading(s.slot(t)) else CheckHead(s.tail)
    case CasLoading(x) => if x < |s.states| && s.states[x] == Stored then TakeCell(x) else pc
    case TakeCell(x) => SetEmpty(x, if x < |s.cells| then s.cells[x] else None)
    case SetEmpty(_, _) => Ready
  }

  function SetState<T>(s: State<T>, x: nat, to: SlotState): State<T> {
    if x < |s.states| then s.(states := s.states[x := to]) else s
  }

  function SetCell<T>(s: State<T>, x: nat, v: Option<T>): State<T> {
    if x < |s.cells| then s.(cells := s.cells[x := v]) else s
  }

  function Effect<T>(s: State<T>, pc: Pc<T>): State<T> {
    match pc
    case FetchHead(v) => s.(head := Spsc.Increment(s.head), pushed := s.pushed + multiset{v})
    case CasHead(v, h) =>
      if s.head == h then s.(head := Spsc.Increment(h), pushed := s.pushed + multiset{v}) else s
    case CasStoring(_, x) => if x < |s.states| && s.states[x] == Empty then SetState(s, x, Storing) else s
    case WriteCell(v, x) => SetCell(s, x, Some(v))
    case SetStored(x) => SetState(s, x, Stored)
    case FetchTail => s.(tail := Spsc.Increment(s.tail))
    case CasTail(t) => if s.tail == t then s.(tail := Spsc.Increment(t)) else s
    case CasLoading(x) => if x < |s.states| && s.states[x] == Stored then SetState(s, x, Loading) else s
    case TakeCell(x) => SetCell(s, x, None)
    case SetEmpty(x, out) => 
      SetState(s, x, Empty).(popped := s.popped + Returned(out), blanks := s.blanks + if out.None? then 1 else 0)
    case _ => s
  }

  function Step<T>(s: State<T>, a: Action<T>): (s': State<T>)
    ensures |s'.states| == |s.states| && |s'.cells| == |s.cells|
  {
    if a.t >= |s.pc| then s
    else Effect(s, s.pc[a.t]).(pc := s.pc[a.t := Move(s, s.pc[a.t], a.call)])
  }

  function Run<T>(bits: nat, k: nat, threads: nat, acts: seq<Action<T>>): (s: State<T>)
    ensures |s.pc| == threads
  {
    if acts == [] then Init(bits, k, threads)
    else Step(Run(bits, k, threads, acts[..|acts| - 1]), acts[|acts| - 1])
  }

  // ---------------------------------------------------------------- the invariant

  function StoringAt<T>(x: nat): Pc<T> -> nat {
    (pc: Pc<T>) => if (pc.WriteCell? || pc.SetStored?) && pc.x == x then 1 else 0
  }

  function LoadingAt<T>(x: nat): Pc<T> -> nat {
    (pc: Pc<T>) => if (pc.TakeCell? || pc.SetEmpty?) && pc.x == x then 1 else 0
  }

  /** A thread works in a slot exactly while the slot's state says so, and only one. */
  predicate SlotOk<T>(s: State<T>, x: nat)
    requires x < |s.states|
  {
    && Sum(s.pc, StoringAt(x)) == (if s.states[x] == Storing then 1 else 0)
    && Sum(s.pc, LoadingAt(x)) == (if s.states[x] == Loading then 1 else 0)
  }

  /** The slot's element is there exactly when it should be. */
  predicate CellOk<T>(s: State<T>, x: nat)
    requires x < |s.states| == |s.cells|
  {
    && (s.states[x] == Empty ==> s.cells[x].None?)
    && (s.states[x] == Stored ==> s.cells[x].Some?)
  }

  predicate ThreadOk<T>(s: State<T>, t: Tid)
    requires t < |s.pc|
  {
    match s.pc[t]
    case WriteCell(_, x) => x < |s.cells| && s.cells[x].None?
    case SetStored(x) => x < |s.cells| && s.cells[x].Some?
    case TakeCell(x) => x < |s.cells| && s.cells[x].Some?
    case SetEmpty(x, out) => x < |s.cells| && s.cells[x].None? && out.Some?
    case _ => true
  }

  /** How often a slot's element is `v`. */
  ghost function InCell<T>(v: T): Option<T> -> nat {
    (cell: Option<T>) => if cell == Some(v) then 1 else 0
  }

  /** How often a thread has `v` in hand. */
  ghost function InHand<T>(v: T): Pc<T> -> nat {
    (pc: Pc<T>) =>
      if ((pc.CasStoring? || pc.WriteCell?) && pc.v == v) || (pc.SetEmpty? && pc.out == Some(v)) then 1 else 0
  }

  /** Every value pushed is popped, in a slot, or in a thread's hands, as often as it was pushed. */
  ghost predicate Conserved<T>(s: State<T>, v: T) {
    s.pushed[v] == s.popped[v] + Sum(s.cells, InCell(v)) + Sum(s.pc, InHand(v))
  }

  ghost predicate Inv<T>(s: State<T>) {
    && |s.states| == |s.cells|
    && (forall x :: 0 <= x < |s.states| ==> SlotOk(s, x) && CellOk(s, x))
    && (forall t :: 0 <= t < |s.pc| ==> ThreadOk(s, t))
    && s.blanks == 0
  }

  /** The slot a thread is working in. */
  predicate WorksIn<T>(pc: Pc<T>, x: nat) {
    StoringAt(x)(pc) == 1 || LoadingAt(x)(pc) == 1
  }

  lemma Exclusive<T>(s: State<T>, t: Tid, u: Tid, x: nat)
    requires x < |s.states| && SlotOk(s, x) && t < |s.pc| && u < |s.pc| && t != u
    ensures !(WorksIn(s.pc[t], x) && WorksIn(s.pc[u], x))
  {
    TwoTerms(s.pc, t, u, StoringAt(x));
    TwoTerms(s.pc, t, u, LoadingAt(x));
  }

  /** The thread is in a push. */
  predicate Pushes<T>(pc: Pc<T>) {
    pc.FetchHead? || pc.LoadHead? || pc.CheckTail? || pc.CasHead? || pc.CasStoring? || pc.WriteCell? || pc.SetStored?
  }

  lemma PushKeepsSlot<T>(s: State<T>, a: Action<T>, x: nat)
    requires |s.states| == |s.cells| && x < |s.states| && a.t < |s.pc| && SlotOk(s, x) && Pushes(s.pc[a.t])
    ensures SlotOk(Step(s, a), x)
  {
    hide Sum;
    SumUpdate(s.pc, a.t, Move(s, s.pc[a.t], a.call), StoringAt(x));
    SumUpdate(s.pc, a.t, Move(s, s.pc[a.t], a.call), LoadingAt(x));
  }

  lemma PopKeepsSlot<T>(s: State<T>, a: Action<T>, x: nat)
    requires |s.states| == |s.cells| && x < |s.states| && a.t < |s.pc| && SlotOk(s, x) && !Pushes(s.pc[a.t])
    ensures SlotOk(Step(s, a), x)
  {
    hide Sum;
    SumUpdate(s.pc, a.t, Move(s, s.pc[a.t], a.call), StoringAt(x));
    SumUpdate(s.pc, a.t, Move(s, s.pc[a.t], a.call), LoadingAt(x));
  }

  lemma CellKept<T>(s: State<T>, a: Action<T>, x: nat)
    requires |s.states| == |s.cells| && x < |s.states| && a.t < |s.pc|
    requires SlotOk(s, x) && CellOk(s, x) && ThreadOk(s, a.t)
    ensures CellOk(Step(s, a), x)
  {
    hide Sum;
    SumUpdate(s.pc, a.t, s.pc[a.t], StoringAt(x));
    SumUpdate(s.pc, a.t, s.pc[a.t], LoadingAt(x));
  }

  lemma OwnThreadKept<T>(s: State<T>, a: Action<T>)
    requires |s.states| == |s.cells| && a.t < |s.pc| && ThreadOk(s, a.t)
    requires forall x :: 0 <= x < |s.states| ==> CellOk(s, x)
    ensures ThreadOk(Step(s, a), a.t)
  {
    match s.pc[a.t]
    case CasStoring(_, x) => assert x < |s.states| ==> CellOk(s, x);
    case CasLoading(x) => assert x < |s.states| ==> CellOk(s, x);
    case _ =>
  }

  lemma OtherThreadKept<T>(s: State<T>, a: Action<T>, u: Tid)
    requires |s.states| == |s.cells| && a.t < |s.pc| && u < |s.pc| && u != a.t && ThreadOk(s, u) && ThreadOk(s, a.t)
    requires forall x :: 0 <= x < |s.states| ==> SlotOk(s, x)
    ensures ThreadOk(Step(s, a), u)
  {
    hide SlotOf, Sum, SlotOk;
    match s.pc[a.t]
    case WriteCell(_, x) => Exclusive(s, a.t, u, x);
    case TakeCell(x) => Exclusive(s, a.t, u, x);
    case _ =>
  }

  /** Moving an element between a thread and a slot. */
  lemma TransferConserves<T>(s: State<T>, a: Action<T>, v: T)
    requires Conserved(s, v) && a.t < |s.pc| && ThreadOk(s, a.t) && (s.pc[a.t].WriteCell? || s.pc[a.t].TakeCell?)
    ensures Conserved(Step(s, a), v)
  {
    var pc := s.pc[a.t];
    SumUpdate(s.pc, a.t, Move(s, pc, a.call), InHand(v));
    SumUpdate(s.cells, pc.x, if pc.WriteCell? then Some(pc.v) else None, InCell(v));
  }

  lemma HandsConserve<T>(s: State<T>, a: Action<T>, v: T)
    requires Conserved(s, v) && a.t < |s.pc| && ThreadOk(s, a.t) && !s.pc[a.t].WriteCell? && !s.pc[a.t].TakeCell?
    ensures Conserved(Step(s, a), v)
  {
    hide Move;
    SumUpdate(s.pc, a.t, Move(s, s.pc[a.t], a.call), InHand(v));
    if Pushes(s.pc[a.t]) {
      PushHandKept(s, a, v);
    } else {
      PopHandKept(s, a, v);
    }
  }

  /** Only a call of push adds to a hand, and only the end of a pop takes from one. */
  ghost predicate HandKept<T>(s: State<T>, s': State<T>, t: Tid, v: T)
    requires t < |s.pc| == |s'.pc|
  {
    && s'.cells == s.cells
    && s'.pushed[v] + s.popped[v] + InHand(v)(s.pc[t]) == s.pushed[v] + s'.popped[v] + InHand(v)(s'.pc[t])
  }

  lemma PushHandKept<T>(s: State<T>, a: Action<T>, v: T)
    requires a.t < |s.pc| && ThreadOk(s, a.t) && Pushes(s.pc[a.t]) && !s.pc[a.t].WriteCell?
    ensures HandKept(s, Step(s, a), a.t, v)
  {
    hide Spsc.Signed, Pow2;
  }

  lemma PopHandKept<T>(s: State<T>, a: Action<T>, v: T)
    requires a.t < |s.pc| && ThreadOk(s, a.t) && !Pushes(s.pc[a.t]) && !s.pc[a.t].TakeCell?
    ensures HandKept(s, Step(s, a), a.t, v)
  {
    hide Spsc.Signed, Pow2;
  }

  lemma StepKeepsInv<T>(s: State<T>, a: Action<T>)
    requires Inv(s)
    ensures Inv(Step(s, a))
  {
    if a.t < |s.pc| {
      assert ThreadOk(s, a.t);
      forall x | 0 <= x < |s.states| ensures SlotOk(Step(s, a), x) && CellOk(Step(s, a), x) {
        if Pushes(s.pc[a.t]) {
          PushKeepsSlot(s, a, x);
        } else {
          PopKeepsSlot(s, a, x);
        }
        CellKept(s, a, x);
      }
      forall u | 0 <= u < |s.pc| ensures ThreadOk(Step(s, a), u) {
        if u == a.t {
          OwnThreadKept(s, a);
        } else {
          OtherThreadKept(s, a, u);
        }
      }
    }
  }

  // ---------------------------------------------------------------- every run

  lemma {:induction false} RunKeepsInv<T>(bits: nat, k: nat, threads: nat, acts: seq<Action<T>>)
    ensures Inv(Run(bits, k, threads, acts))
  {
    if acts == [] {
      var s := Init<T>(bits, k, threads);
      forall x | 0 <= x < |s.states| ensures SlotOk(s, x) && CellOk(s, x) {
        SumOfZeros(s.pc, StoringAt(x));
        SumOfZeros(s.pc, LoadingAt(x));
      }
    } else {
      RunKeepsInv(bits, k, threads, acts[..|acts| - 1]);
      StepKeepsInv(Run(bits, k, threads, acts[..|acts| - 1]), acts[|acts| - 1]);
    }
  }

  /** At most one thread is ever storing or loading a slot. */
  lemma OneThreadPerSlot<T>(bits: nat, k: nat, threads: nat, acts: seq<Action<T>>, t: Tid, u: Tid, x: nat)
    requires t < threads && u < threads && t != u && x < |Run(bits, k, threads, acts).states|
    ensures var s := Run(bits, k, threads, acts); !(WorksIn(s.pc[t], x) && WorksIn(s.pc[u], x))
  {
    RunKeepsInv(bits, k, threads, acts);
    assert SlotOk(Run(bits, k, threads, acts), x);
    Exclusive(Run(bits, k, threads, acts), t, u, x);
  }

  /** Nothing is lost or duplicated: a value is popped, in a slot, or in hand as often as it was
      pushed; no pop returns an empty slot. */
  lemma {:induction false} NothingLostOrDuplicated<T>(bits: nat, k: nat, threads: nat, acts: seq<Action<T>>, v: T)
    ensures var s := Run(bits, k, threads, acts); Conserved(s, v) && s.blanks == 0
  {
    RunKeepsInv(bits, k, threads, acts);
    if acts == [] {
      SumOfZeros(Init<T>(bits, k, threads).cells, InCell(v));
      SumOfZeros(Init<T>(bits, k, threads).pc, InHand(v));
    } else {
      var s, a := Run(bits, k, threads, acts[..|acts| - 1]), acts[|acts| - 1];
      NothingLostOrDuplicated(bits, k, threads, acts[..|acts| - 1], v);
      RunKeepsInv(bits, k, threads, acts[..|acts| - 1]);
      if a.t < threads {
        assert ThreadOk(s, a.t);
        if s.pc[a.t].WriteCell? || s.pc[a.t].TakeCell? {
          TransferConserves(s, a, v);
        } else {
          HandsConserve(s, a, v);
        }
      }
    }
  }

  /** Once every call has returned, the elements left are exactly those in the slots. */
  lemma QuiescentContents<T>(bits: nat, k: nat, threads: nat, acts: seq<Action<T>>, v: T)
    requires forall t :: 0 <= t < threads ==> Run(bits, k, threads, acts).pc[t].Ready?
    ensures var s := Run(bits, k, threads, acts); s.pushed[v] == s.popped[v] + Sum(s.cells, InCell(v))
  {
    NothingLostOrDuplicated(bits, k, threads, acts, v);
    SumOfZeros(Run(bits, k, threads, acts).pc, InHand(v));
  }

  // ---------------------------------------------------------------- slots in range

  /** The slot a thread aims at is one of the queue's, and its ticket is one of 32 bits. */
  predicate AimsInRange<T>(pc: Pc<T>, size: nat) {
    match pc
    case CheckTail(_, h) => h < UINT32
    case CasHead(_, h) => h < UINT32
    case CheckHead(h) => h < UINT32
    case CasTail(h) => h < UINT32
    case CasStoring(_, x) => x < size
    case WriteCell(_, x) => x < size
    case SetStored(x) => x < size
    case CasLoading(x) => x < size
    case TakeCell(x) => x < size
    case SetEmpty(x, _) => x < size
    case _ => true
  }

  ghost predicate InRange<T>(bits: nat, k: nat, s: State<T>) {
    && s.slot == Spsc.Slots(bits, k) && |s.states| == |s.cells| == Pow2(k)
    && s.head < UINT32 && s.tail < UINT32
    && forall t :: 0 <= t < |s.pc| ==> AimsInRange(s.pc[t], Pow2(k))
  }

  lemma SlotInRange(bits: nat, k: nat, ticket: nat)
    requires Spsc.Geometry(bits, k) && ticket < UINT32
    ensures Spsc.Slots(bits, k)(ticket) < Pow2(k)
  {
    hide Slot, Pow2;
    SlotsAreDistinct(bits, k, ticket, ticket);
  }

  lemma TicketsStayInRange<T>(s: State<T>, pc: Pc<T>)
    requires s.head < UINT32 && s.tail < UINT32
    ensures Effect(s, pc).head < UINT32 && Effect(s, pc).tail < UINT32
  {
  }

  lemma AimStaysInRange<T>(bits: nat, k: nat, s: State<T>, pc: Pc<T>, call: Call<T>)
    requires Spsc.Geometry(bits, k) && s.slot == Spsc.Slots(bits, k) && s.head < UINT32 && s.tail < UINT32
    requires AimsInRange(pc, Pow2(k))
    ensures AimsInRange(Move(s, pc, call), Pow2(k))
  {
    hide Pow2, Spsc.Slots, Spsc.Signed, Spsc.Geometry;
    match pc
    case FetchHead(_) => SlotInRange(bits, k, s.head);
    case FetchTail => SlotInRange(bits, k, s.tail);
    case CasHead(_, h) => SlotInRange(bits, k, h);
    case CasTail(h) => SlotInRange(bits, k, h);
    case _ =>
  }

  lemma StepStaysInRange<T>(bits: nat, k: nat, s: State<T>, a: Action<T>)
    requires Spsc.Geometry(bits, k) && InRange(bits, k, s) && a.t < |s.pc|
    ensures var s' := Step(s, a); s'.head < UINT32 && s'.tail < UINT32 && AimsInRange(s'.pc[a.t], Pow2(k))
  {
    hide Move, Effect, AimsInRange, Spsc.Geometry;
    TicketsStayInRange(s, s.pc[a.t]);
    AimStaysInRange(bits, k, s, s.pc[a.t], a.call);
  }

  /** For the capacities the constructor makes, every slot a thread aims at is in range, so the bounds in
      Move and Effect exclude nothing. */
  lemma {:induction false} SlotsAreInRange<T>(bits: nat, k: nat, threads: nat, acts: seq<Action<T>>)
    requires Spsc.Geometry(bits, k)
    ensures InRange(bits, k, Run(bits, k, threads, acts))
  {
    if acts != [] {
      var s, a := Run(bits, k, threads, acts[..|acts| - 1]), acts[|acts| - 1];
      SlotsAreInRange(bits, k, threads, acts[..|acts| - 1]);
      if a.t < threads {
        StepStaysInRange(bits, k, s, a);
      }
    }
  }

  // ---------------------------------------------------------------- what a call did

  /** The tests of try_push and try_pop (269-294), on the counters as loaded. */
  predicate LooksFull(k: nat, head: nat, tail: nat) {
    Spsc.Signed(head - tail) >= Spsc.Signed(Pow2(k))
  }

  predicate LooksEmpty(head: nat, tail: nat) {
    Spsc.Signed(head - tail) <= 0
  }

  /** A thread's last call, the counters it last loaded to decide whether the queue is full or empty, and its
      ticket, if it got one. */
  datatype Sight<T> = Sight(call: Option<Call<T>>, head: nat, tail: nat, ticket: Option<nat>)

  function Looked<T>(s: State<T>, pc: Pc<T>, call: Call<T>, seen: Sight<T>): Sight<T> {
    match pc
    case Ready => Sight(Some(call), 0, 0, None)
    case FetchHead(_) => seen.(ticket := Some(s.head))
    case LoadHead(_) => seen.(head := s.head)
    case CheckTail(_, _) => seen.(tail := s.tail)
    case CasHead(_, h) => if s.head == h then seen.(ticket := Some(h)) else seen.(head := s.head)
    case FetchTail => seen.(ticket := Some(s.tail))
    case LoadTail => seen.(tail := s.tail)
    case CheckHead(_) => seen.(head := s.head)
    case CasTail(t) => if s.tail == t then seen.(ticket := Some(t)) else seen.(tail := s.tail)
    case _ => seen
  }

  ghost function Sights<T>(bits: nat, k: nat, threads: nat, acts: seq<Action<T>>): (seen: seq<Sight<T>>)
    ensures |seen| == threads
  {
    if acts == [] then seq(threads, _ => Sight(None, 0, 0, None))
    else
      var before, a := acts[..|acts| - 1], acts[|acts| - 1];
      var s, seen := Run(bits, k, threads, before), Sights(bits, k, threads, before);
      if a.t >= threads then seen else seen[a.t := Looked(s, s.pc[a.t], a.call, seen[a.t])]
  }

  /** What a call that has returned did: push and pop got a ticket; try_push got the ticket it saw, and only
      if the queue did not look full; try_pop likewise if it did not look empty. */
  ghost predicate Fulfilled<T>(k: nat, call: Call<T>, seen: Sight<T>) {
    match call
    case Push(_) => seen.ticket.Some?
    case Pop => seen.ticket.Some?
    case TryPush(_) => seen.ticket == if LooksFull(k, seen.head, seen.tail) then None else Some(seen.head)
    case TryPop => seen.ticket == if LooksEmpty(seen.head, seen.tail) then None else Some(seen.tail)
  }

  /** The thread works with its own value in the slot of its own ticket. */
  ghost predicate StoresAt<T>(s: State<T>, x: nat, seen: Sight<T>) {
    && seen.ticket.Some? && x == s.slot(seen.ticket.value)
    && seen.call.Some? && (seen.call.value.Push? || seen.call.value.TryPush?)
    && Fulfilled(s.k, seen.call.value, seen)
  }

  ghost predicate LoadsFrom<T>(s: State<T>, x: nat, seen: Sight<T>) {
    && seen.ticket.Some? && x == s.slot(seen.ticket.value)
    && seen.call.Some? && (seen.call.value.Pop? || seen.call.value.TryPop?)
    && Fulfilled(s.k, seen.call.value, seen)
  }

  ghost predicate SightOk<T>(s: State<T>, pc: Pc<T>, seen: Sight<T>) {
    match pc
    case Ready => seen.call.Some? ==> Fulfilled(s.k, seen.call.value, seen)
    case FetchHead(v) => seen.call == Some(Push(v))
    case LoadHead(v) => seen.call == Some(TryPush(v)) && seen.ticket == None
    case CheckTail(v, h) => seen.call == Some(TryPush(v)) && seen.ticket == None && seen.head == h
    case CasHead(v, h) =>
      seen.call == Some(TryPush(v)) && seen.ticket == None && seen.head == h && !LooksFull(s.k, h, seen.tail)
    case CasStoring(v, x) => StoresAt(s, x, seen) && seen.call.value.v == v
    case WriteCell(v, x) => StoresAt(s, x, seen) && seen.call.value.v == v
    case SetStored(x) => StoresAt(s, x, seen)
    case FetchTail => seen.call == Some(Pop)
    case LoadTail => seen.call == Some(TryPop) && seen.ticket == None
    case CheckHead(t) => seen.call == Some(TryPop) && seen.ticket == None && seen.tail == t
    case CasTail(t) =>
      seen.call == Some(TryPop) && seen.ticket == None && seen.tail == t && !LooksEmpty(seen.head, t)
    case CasLoading(x) => LoadsFrom(s, x, seen)
    case TakeCell(x) => LoadsFrom(s, x, seen)
    case SetEmpty(x, _) => LoadsFrom(s, x, seen)
  }

  lemma PushSightKept<T>(s: State<T>, pc: Pc<T>, call: Call<T>, seen: Sight<T>)
    requires Pushes(pc) && SightOk(s, pc, seen)
    ensures SightOk(s, Move(s, pc, call), Looked(s, pc, call, seen))
  {
    hide Spsc.Signed, Pow2;
  }

  lemma PopSightKept<T>(s: State<T>, pc: Pc<T>, call: Call<T>, seen: Sight<T>)
    requires !Pushes(pc) && SightOk(s, pc, seen)
    ensures SightOk(s, Move(s, pc, call), Looked(s, pc, call, seen))
  {
    hide Spsc.Signed, Pow2;
  }

  lemma GeometryStays<T>(s: State<T>, a: Action<T>)
    ensures Step(s, a).k == s.k && Step(s, a).slot == s.slot
  {
    hide Move;
  }

  lemma SightStays<T>(s: State<T>, s': State<T>, pc: Pc<T>, seen: Sight<T>)
    requires s'.k == s.k && s'.slot == s.slot && SightOk(s, pc, seen)
    ensures SightOk(s', pc, seen)
  {
    hide LooksFull, LooksEmpty;
  }

  lemma {:induction false} SightsKept<T>(bits: nat, k: nat, threads: nat, acts: seq<Action<T>>, t: Tid)
    requires t < threads
    ensures SightOk(Run(bits, k, threads, acts), Run(bits, k, threads, acts).pc[t], Sights(bits, k, threads, acts)[t])
  {
    if acts != [] {
      hide Move, SightOk, Looked, Effect;
      var before, a := acts[..|acts| - 1], acts[|acts| - 1];
      var s, seen := Run(bits, k, threads, before), Sights(bits, k, threads, before)[t];
      SightsKept(bits, k, threads, before, t);
      GeometryStays(s, a);
      if a.t == t {
        if Pushes(s.pc[t]) {
          PushSightKept(s, s.pc[t], a.call, seen);
        } else {
          PopSightKept(s, s.pc[t], a.call, seen);
        }
        SightStays(s, Step(s, a), Move(s, s.pc[t], a.call), Looked(s, s.pc[t], a.call, seen));
      } else {
        SightStays(s, Step(s, a), s.pc[t], seen);
      }
    } else {
      assert SightOk(Run(bits, k, threads, acts), Ready, Sight(None, 0, 0, None));
    }
  }

  /** In every interleaving a push or pop that has returned had a ticket; a try_push was refused only if
      the queue looked full when it last loaded the counters, and a try_pop only if it looked empty; and
      otherwise each had the ticket it saw. */
  lemma CallsAreFulfilled<T>(bits: nat, k: nat, threads: nat, acts: seq<Action<T>>, t: Tid)
    requires t < threads && Run(bits, k, threads, acts).pc[t].Ready?
    requires Sights(bits, k, threads, acts)[t].call.Some?
    ensures var s, seen := Run(bits, k, threads, acts), Sights(bits, k, threads, acts)[t];
      Fulfilled(s.k, seen.call.value, seen)
  {
    SightsKept(bits, k, threads, acts, t);
  }

  /** A push stores its own value in the slot of its own ticket. */
  lemma StoresItsOwn<T>(bits: nat, k: nat, threads: nat, acts: seq<Action<T>>, t: Tid)
    requires t < threads && Run(bits, k, threads, acts).pc[t].WriteCell?
    ensures var s, seen := Run(bits, k, threads, acts), Sights(bits, k, threads, acts)[t];
      && seen.ticket.Some? && s.pc[t].x == s.slot(seen.ticket.value)
      && (seen.call == Some(Push(s.pc[t].v)) || seen.call == Some(TryPush(s.pc[t].v)))
  {
    SightsKept(bits, k, threads, acts, t);
  }

  // ---------------------------------------------------------------- one thread alone, and an overtaking push

  /** `n` steps of thread t alone. */
  function Alone<T>(s: State<T>, t: Tid, call: Call<T>, n: nat): State<T> {
    if n == 0 then s else Step(Alone(s, t, call, n - 1), Action(t, call))
  }

  function Steps<T>(t: Tid, call: Call<T>, n: nat): seq<Action<T>> {
    seq(n, _ => Action(t, call))
  }

  lemma AloneOneMore<T>(s: State<T>, t: Tid, call: Call<T>, n: nat)
    ensures Alone(s, t, call, 0) == s && Alone(s, t, call, n + 1) == Step(Alone(s, t, call, n), Action(t, call))
  {
    hide Step;
  }

  lemma RunOneMore<T>(bits: nat, k: nat, threads: nat, acts: seq<Action<T>>, a: Action<T>)
    ensures Run(bits, k, threads, acts + [a]) == Step(Run(bits, k, threads, acts), a)
  {
    hide Step;
    assert (acts + [a])[..|acts|] == acts;
  }

  lemma {:induction false} AloneIsRun<T>(bits: nat, k: nat, threads: nat, acts: seq<Action<T>>, t: Tid,
                                         call: Call<T>, n: nat)
    ensures Run(bits, k, threads, acts + Steps(t, call, n)) == Alone(Run(bits, k, threads, acts), t, call, n)
  {
    hide Run, Alone, Step;
    var s := Run(bits, k, threads, acts);
    if n == 0 {
      AloneOneMore(s, t, call, 0);
      assert acts + Steps(t, call, 0) == acts;
    } else {
      AloneIsRun(bits, k, threads, acts, t, call, n - 1);
      AloneOneMore(s, t, call, n - 1);
      RunOneMore(bits, k, threads, acts + Steps(t, call, n - 1), Action(t, call));
      assert acts + Steps(t, call, n - 1) + [Action(t, call)] == acts + Steps(t, call, n);
    }
  }

  lemma FiveSteps<T>(s: State<T>, t: Tid, call: Call<T>)
    ensures var a := Action(t, call); Alone(s, t, call, 5) == Step(Step(Step(Step(Step(s, a), a), a), a), a)
  {
    hide Alone, Step;
    AloneOneMore(s, t, call, 0);
    AloneOneMore(s, t, call, 1);
    AloneOneMore(s, t, call, 2);
    AloneOneMore(s, t, call, 3);
    AloneOneMore(s, t, call, 4);
  }

  /** Taking a ticket, and the three steps of storing a value in an empty slot. */
  lemma PushEnters<T>(s: State<T>, t: Tid, v: T)
    requires t < |s.pc| && s.pc[t].Ready?
    ensures var a := Action(t, Push(v));
      Step(Step(s, a), a)
        == s.(head := Spsc.Increment(s.head), pushed := s.pushed + multiset{v},
          pc := s.pc[t := CasStoring(v, s.slot(s.head))])
  {
    hide Spsc.Increment;
    assert Step(s, Action(t, Push(v))) == s.(pc := s.pc[t := FetchHead(v)]);
  }

  lemma PushStores<T>(s: State<T>, t: Tid, v: T, x: nat, call: Call<T>)
    requires t < |s.pc| && s.pc[t] == CasStoring(v, x) && x < |s.states| == |s.cells| && s.states[x] == Empty
    ensures var a := Action(t, call);
      Step(Step(Step(s, a), a), a)
        == s.(states := s.states[x := Stored], cells := s.cells[x := Some(v)], pc := s.pc[t := Ready])
  {
    var a := Action(t, call);
    var s1 := s.(states := s.states[x := Storing], pc := s.pc[t := WriteCell(v, x)]);
    var s2 := s.(states := s.states[x := Storing], cells := s.cells[x := Some(v)], pc := s.pc[t := SetStored(x)]);
    assert Step(s, a) == s1;
    assert Step(s1, a) == s2;
    assert s.states[x := Storing][x := Stored] == s.states[x := Stored];
    assert s2.pc[t := Ready] == s.pc[t := Ready];
  }

  /** A push that finds the slot of its ticket empty: five steps alone store the value there. */
  lemma PushAlone<T>(s: State<T>, t: Tid, v: T)
    requires t < |s.pc| && s.pc[t].Ready?
    requires var x := s.slot(s.head); x < |s.states| == |s.cells| && s.states[x] == Empty
    ensures var x := s.slot(s.head);
      Alone(s, t, Push(v), 5) == s.(head := Spsc.Increment(s.head), states := s.states[x := Stored],
                                     cells := s.cells[x := Some(v)], pushed := s.pushed + multiset{v})
  {
    hide Alone, Step, Spsc.Increment;
    var x, a := s.slot(s.head), Action(t, Push(v));
    FiveSteps(s, t, Push(v));
    PushEnters(s, t, v);
    PushStores(Step(Step(s, a), a), t, v, x, Push(v));
    assert s.pc[t := CasStoring(v, x)][t := Ready] == s.pc;
  }

  /** Taking a ticket, and the three steps of taking a value out of its slot. */
  lemma PopEnters<T>(s: State<T>, t: Tid)
    requires t < |s.pc| && s.pc[t].Ready?
    ensures var a := Action(t, Pop);
      Step(Step(s, a), a) == s.(tail := Spsc.Increment(s.tail), pc := s.pc[t := CasLoading(s.slot(s.tail))])
  {
    hide Spsc.Increment;
    assert Step(s, Action(t, Pop)) == s.(pc := s.pc[t := FetchTail]);
  }

  lemma PopTakes<T>(s: State<T>, t: Tid, v: T, x: nat, call: Call<T>)
    requires t < |s.pc| && s.pc[t] == CasLoading(x) && x < |s.states| == |s.cells|
    requires s.states[x] == Stored && s.cells[x] == Some(v)
    ensures var a := Action(t, call);
      Step(Step(Step(s, a), a), a)
        == s.(states := s.states[x := Empty], cells := s.cells[x := None], pc := s.pc[t := Ready],
              popped := s.popped + multiset{v})
  {
    var a := Action(t, call);
    var s1 := s.(states := s.states[x := Loading], pc := s.pc[t := TakeCell(x)]);
    var s2 := s.(states := s.states[x := Loading], cells := s.cells[x := None], pc := s.pc[t := SetEmpty(x, Some(v))]);
    assert Step(s, a) == s1;
    assert Step(s1, a) == s2;
    assert s.states[x := Loading][x := Empty] == s.states[x := Empty];
    assert s2.pc[t := Ready] == s.pc[t := Ready];
  }

  /** A pop that finds the slot of its ticket stored takes the value from there. */
  lemma PopAlone<T>(s: State<T>, t: Tid, v: T)
    requires t < |s.pc| && s.pc[t].Ready?
    requires var x := s.slot(s.tail); x < |s.states| == |s.cells| && s.states[x] == Stored && s.cells[x] == Some(v)
    ensures var x := s.slot(s.tail);
      Alone(s, t, Pop, 5) == s.(tail := Spsc.Increment(s.tail), states := s.states[x := Empty],
                                cells := s.cells[x := None], popped := s.popped + multiset{v})
  {
    hide Alone, Step, Spsc.Increment;
    var x, a := s.slot(s.tail), Action(t, Pop);
    FiveSteps(s, t, Pop);
    PopEnters(s, t);
    PopTakes(Step(Step(s, a), a), t, v, x, Pop);
    assert s.pc[t := CasLoading(x)][t := Ready] == s.pc;
  }

  lemma ThreeSteps<T>(s: State<T>, t: Tid, call: Call<T>)
    ensures var a := Action(t, call); Alone(s, t, call, 3) == Step(Step(Step(s, a), a), a)
    ensures Alone(s, t, call, 4) == Step(Alone(s, t, call, 3), Action(t, call))
  {
    hide Alone, Step;
    AloneOneMore(s, t, call, 0);
    AloneOneMore(s, t, call, 1);
    AloneOneMore(s, t, call, 2);
    AloneOneMore(s, t, call, 3);
  }

  /** A try_push alone comes back at once from a queue that looks full, and else takes a ticket, to store its
      value as a push does. */
  lemma TryPushAlone<T>(s: State<T>, t: Tid, v: T)
    requires t < |s.pc| && s.pc[t].Ready?
    ensures LooksFull(s.k, s.head, s.tail) ==> Alone(s, t, TryPush(v), 3) == s
    ensures !LooksFull(s.k, s.head, s.tail) ==>
      Alone(s, t, TryPush(v), 4)
        == s.(head := Spsc.Increment(s.head), pushed := s.pushed + multiset{v},
              pc := s.pc[t := CasStoring(v, s.slot(s.head))])
  {
    hide Alone, Spsc.Increment, Spsc.Signed, Pow2;
    ThreeSteps(s, t, TryPush(v));
    var a := Action(t, TryPush(v));
    assert Step(Step(s, a), a) == s.(pc := s.pc[t := CheckTail(v, s.head)]);
    assert s.pc[t := Ready] == s.pc;
  }

  lemma TryPopAlone<T>(s: State<T>, t: Tid)
    requires t < |s.pc| && s.pc[t].Ready?
    ensures LooksEmpty(s.head, s.tail) ==> Alone(s, t, TryPop, 3) == s
    ensures !LooksEmpty(s.head, s.tail) ==>
      Alone(s, t, TryPop, 4) == s.(tail := Spsc.Increment(s.tail), pc := s.pc[t := CasLoading(s.slot(s.tail))])
  {
    hide Alone, Spsc.Increment, Spsc.Signed, Pow2;
    ThreeSteps(s, t, TryPop);
    var a := Action(t, TryPop);
    assert Step(Step(s, a), a) == s.(pc := s.pc[t := CheckHead(s.tail)]);
    assert s.pc[t := Ready] == s.pc;
  }

  lemma TwoSlots()
    ensures Pow2(1) == 2 && forall ticket :: 0 <= ticket < 3 ==> Spsc.Slots(0, 1)(ticket) == ticket % 2
  {
    forall ticket | 0 <= ticket < 3 ensures Spsc.Slots(0, 1)(ticket) == ticket % 2 {
      SlotIs(0, 1, ticket);
      RemapSwaps(0, ticket % 2, 0, 0);
    }
  }

  /** Two slots.  Thread 0 takes the first ticket and stalls, thread 1 pushes twice: its second push has
      the slot of thread 0's ticket and finds it empty. */
  const STALLED: seq<Action<char>> := Steps(0, Push('A'), 2)
  const FIRST: seq<Action<char>> := STALLED + Steps(1, Push('B'), 5)
  const SECOND: seq<Action<char>> := FIRST + Steps(1, Push('C'), 5)
  const TAKEN: seq<Action<char>> := SECOND + Steps(1, Pop, 5)

  lemma StalledPush()
    ensures Run(0, 1, 2, STALLED)
         == Init(0, 1, 2).(head := 1, pushed := multiset{'A'}, pc := [CasStoring('A', 0), Ready])
  {
    TwoSlots();
    var s := Init<char>(0, 1, 2);
    AloneIsRun(0, 1, 2, [], 0, Push('A'), 2);
    assert [] + STALLED == STALLED;
    assert Alone(s, 0, Push('A'), 1) == s.(pc := [FetchHead('A'), Ready]);
    assert Alone(s, 0, Push('A'), 2) == s.(head := 1, pushed := multiset{'A'}, pc := [CasStoring('A', 0), Ready]);
  }

  lemma TwoPushes()
    ensures var s := Run(0, 1, 2, FIRST);
      s.pc[1].Ready? && s.pushed == multiset{'A', 'B'} && s.popped == multiset{}
    ensures Run(0, 1, 2, SECOND)
         == Init(0, 1, 2).(head := 3, pushed := multiset{'A', 'B', 'C'}, pc := [CasStoring('A', 0), Ready],
                           states := [Stored, Stored], cells := [Some('C'), Some('B')])
  {
    hide Step, SlotMap.Slot, Spsc.Signed;
    StalledPush();
    TwoSlots();
    AloneIsRun(0, 1, 2, STALLED, 1, Push('B'), 5);
    AloneIsRun(0, 1, 2, FIRST, 1, Push('C'), 5);
    hide Run, Alone;
    PushAlone(Run(0, 1, 2, STALLED), 1, 'B');
    PushAlone(Run(0, 1, 2, FIRST), 1, 'C');
  }

  /** The push of B returned before the push of C was called, and yet the first pop gives C. */
  lemma LaterPushOvertakes()
    ensures var s := Run(0, 1, 2, FIRST);
      s.pc[1].Ready? && s.pushed == multiset{'A', 'B'} && s.popped == multiset{}
    ensures var s := Run(0, 1, 2, TAKEN);
      s.pc[1].Ready? && s.pushed == multiset{'A', 'B', 'C'} && s.popped == multiset{'C'}
  {
    hide Step, SlotMap.Slot, Spsc.Signed, Run, Alone;
    TwoPushes();
    TwoSlots();
    AloneIsRun(0, 1, 2, SECOND, 1, Pop, 5);
    PopAlone(Run(0, 1, 2, SECOND), 1, 'C');
  }
}
