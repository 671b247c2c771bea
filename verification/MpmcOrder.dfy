/** The order of the queue with several producers and consumers.  The machine is that of MpmcQueue; the
    history kept here beside it numbers the tickets with naturals, says who waits with which ticket and which
    tickets won each slot, and logs every pop with the ticket of the element it returned.

    A successful exchange of a slot state is in turn if no other thread waits on the same slot, for the same
    kind of operation, with an earlier ticket. */
module MpmcOrder {
  import opened Bits
  import opened MpmcQueue
  import opened SlotMap
  import opened Sums
  import opened TicketLine
  import opened Wrappers
  import Spsc = SpscQueue

  /** A pop that returned: its ticket, the ticket of the push whose element it gave, whether that push and this
      pop won the slot in turn, and how many pops of the slot came before. */
  datatype Popped<T> = Popped(ticket: nat, source: nat, stored: bool, taken: bool, nth: nat, out: Option<T>)

  /** `values` are the values pushed, in the order of their tickets. */
  datatype History<T> = History(push: Line, pop: Line, values: seq<T>, log: seq<Popped<T>>)

  function Start<T>(k: nat): History<T> {
    History(NewLine(Pow2(k)), NewLine(Pow2(k)), [], [])
  }

  /** The lane of the tickets that have slot x. */
  function LaneOf(bits: nat, x: nat): nat {
    RemapIndex(bits, x)
  }

  function Logged<T>(h: History<T>, lane: nat, out: Option<T>): seq<Popped<T>> {
    var stores, loads := Won(h.push, lane), Won(h.pop, lane);
    if stores == [] || loads == [] then []
    else
      var store, load := stores[|stores| - 1], loads[|loads| - 1];
      [Popped(load.ticket, store.ticket, store.inTurn, load.inTurn, |loads| - 1, out)]
  }

  /** What a step of the machine adds to the history. */
  function Track<T>(bits: nat, s: State<T>, h: History<T>, a: Action<T>): (h': History<T>)
    requires h.push.size > 0 && h.pop.size > 0
    ensures h'.push.size == h.push.size && h'.pop.size == h.pop.size
  {
    if a.t >= |s.pc| then h else
    match s.pc[a.t]
    case FetchHead(v) => h.(push := Drawn(h.push, a.t), values := h.values + [v])
    case CasHead(v, head) =>
      if s.head == head then h.(push := Drawn(h.push, a.t), values := h.values + [v]) else h
    case CasStoring(_, x) =>
      if x < |s.states| && s.states[x] == Empty && a.t in h.push.waiting then h.(push := Winning(h.push, a.t)) else h
    case FetchTail => h.(pop := Drawn(h.pop, a.t))
    case CasTail(tail) => if s.tail == tail then h.(pop := Drawn(h.pop, a.t)) else h
    case CasLoading(x) =>
      if x < |s.states| && s.states[x] == Stored && a.t in h.pop.waiting then h.(pop := Winning(h.pop, a.t)) else h
    case SetEmpty(x, out) => h.(log := h.log + Logged(h, LaneOf(bits, x), out))
    case _ => h
  }

  function TrackRun<T(==)>(bits: nat, k: nat, threads: nat, acts: seq<Action<T>>): (h: History<T>)
    ensures h.push.size == h.pop.size == Pow2(k)
  {
    if acts == [] then Start(k)
    else
      var before := acts[..|acts| - 1];
      Track(bits, Run(bits, k, threads, before), TrackRun(bits, k, threads, before), acts[|acts| - 1])
  }

  // ---------------------------------------------------------------- the invariant

  /** `cell` is the element of the last push that won the lane. */
  ghost predicate LastStored<T>(h: History<T>, lane: nat, cell: Option<T>) {
    var stores := Won(h.push, lane);
    stores != [] && stores[|stores| - 1].ticket < |h.values| && cell == Some(h.values[stores[|stores| - 1].ticket])
  }

  /** The waiting thread aims at the slot of its ticket. */
  predicate Waits(bits: nat, l: Line, t: Tid, x: nat) {
    l.size > 0 && t in l.waiting && x == RemapIndex(bits, l.waiting[t] % l.size)
  }

  ghost predicate ThreadHist<T>(bits: nat, s: State<T>, h: History<T>, t: Tid)
    requires t < |s.pc|
  {
    && (match s.pc[t]
        case CasStoring(v, x) =>
          Waits(bits, h.push, t, x) && h.push.waiting[t] < |h.values| && v == h.values[h.push.waiting[t]]
        case CasLoading(x) => Waits(bits, h.pop, t, x)
        case WriteCell(v, x) => LastStored(h, LaneOf(bits, x), Some(v))
        case SetStored(x) => x < |s.cells| && LastStored(h, LaneOf(bits, x), s.cells[x])
        case TakeCell(x) => x < |s.cells| && LastStored(h, LaneOf(bits, x), s.cells[x])
        case SetEmpty(x, out) => LastStored(h, LaneOf(bits, x), out)
        case _ => true)
    && (!s.pc[t].CasStoring? ==> t !in h.push.waiting)
    && (!s.pc[t].CasLoading? ==> t !in h.pop.waiting)
  }

  /** Stores and loads of a slot alternate. */
  ghost predicate SlotHist<T>(bits: nat, s: State<T>, h: History<T>, x: nat)
    requires x < |s.states| == |s.cells|
  {
    var lane := LaneOf(bits, x);
    && |Won(h.push, lane)| == |Won(h.pop, lane)| + (if s.states[x] == Storing || s.states[x] == Stored then 1 else 0)
    && (s.states[x] == Stored ==> LastStored(h, lane, s.cells[x]))
  }

  /** The pops of slot x that have returned. */
  function Done<T>(bits: nat, s: State<T>, h: History<T>, x: nat): int
    requires x < |s.states|
  {
    |Won(h.pop, LaneOf(bits, x))| - if s.states[x] == Loading then 1 else 0
  }

  /** A log entry tells what the history of its slot says. */
  ghost predicate EntryOk<T>(bits: nat, s: State<T>, h: History<T>, e: Popped<T>) {
    && h.pop.size > 0 && LaneOf(bits, e.ticket % h.pop.size) < |s.states|
    && var lane := e.ticket % h.pop.size;
    && e.nth < Done(bits, s, h, LaneOf(bits, lane)) && e.nth < |Won(h.pop, lane)| && e.nth < |Won(h.push, lane)|
    && Won(h.pop, lane)[e.nth] == Win(e.ticket, e.taken) && Won(h.push, lane)[e.nth] == Win(e.source, e.stored)
    && e.source < |h.values| && e.out == Some(h.values[e.source])
  }

  ghost predicate IsLogged<T>(h: History<T>, lane: nat, n: nat)
    requires h.pop.size > 0
  {
    exists m :: 0 <= m < |h.log| && h.log[m].nth == n && h.log[m].ticket % h.pop.size == lane
  }

  ghost predicate LogOk<T>(bits: nat, s: State<T>, h: History<T>) {
    && h.pop.size > 0
    && (forall m :: 0 <= m < |h.log| ==> EntryOk(bits, s, h, h.log[m]))
    && (forall x: nat, n: nat :: x < |s.states| && n < Done(bits, s, h, x) ==> IsLogged(h, LaneOf(bits, x), n))
  }

  predicate Counters<T>(k: nat, s: State<T>, h: History<T>) {
    && h.push.size == h.pop.size == Pow2(k) && |h.values| == h.push.issued
    && s.head == h.push.issued % UINT32 && s.tail == h.pop.issued % UINT32
    && (forall t <- h.push.waiting :: t < |s.pc|) && (forall t <- h.pop.waiting :: t < |s.pc|)
  }

  ghost predicate OrderInv<T>(bits: nat, k: nat, s: State<T>, h: History<T>) {
    && Spsc.Geometry(bits, k) && InRange(bits, k, s) && MpmcQueue.Inv(s)
    && TicketLine.Inv(h.push) && TicketLine.Inv(h.pop) && Counters(k, s, h)
    && (forall t :: 0 <= t < |s.pc| ==> ThreadHist(bits, s, h, t))
    && (forall x :: 0 <= x < |s.states| ==> SlotHist(bits, s, h, x))
    && LogOk(bits, s, h)
  }

  // ---------------------------------------------------------------- lanes and slots

  lemma LaneOfSlot(bits: nat, k: nat, x: nat)
    requires Spsc.Geometry(bits, k)
    ensures LaneOf(bits, LaneOf(bits, x)) == x && (x < Pow2(k) <==> LaneOf(bits, x) < Pow2(k))
  {
    hide Pow2, RemapIndex;
    RemapIsPermutation(bits, x, k);
  }

  lemma LanesDiffer(bits: nat, k: nat, x: nat, y: nat)
    requires Spsc.Geometry(bits, k) && x != y
    ensures LaneOf(bits, x) != LaneOf(bits, y)
  {
    hide LaneOf;
    LaneOfSlot(bits, k, x);
    LaneOfSlot(bits, k, y);
  }

  /** The slot computed from the counter is that of the next ticket. */
  lemma SlotOfTicket(bits: nat, k: nat, i: nat)
    requires Spsc.Geometry(bits, k)
    ensures Spsc.Slots(bits, k)(i % UINT32) == RemapIndex(bits, i % Pow2(k))
  {
    hide Pow2, RemapIndex, Slot;
    SlotIs(bits, k, i);
  }

  // ---------------------------------------------------------------- what a step changes

  /** The slot a thread's next step may change. */
  predicate At<T>(pc: Pc<T>, x: nat) {
    match pc
    case CasStoring(_, y) => y == x
    case WriteCell(_, y) => y == x
    case SetStored(y) => y == x
    case CasLoading(y) => y == x
    case TakeCell(y) => y == x
    case SetEmpty(y, _) => y == x
    case _ => false
  }

  lemma WonInOtherLane(bits: nat, k: nat, l: Line, t: Tid, y: nat, x: nat)
    requires Spsc.Geometry(bits, k) && l.size == Pow2(k) && Waits(bits, l, t, y) && x != y
    ensures Won(Winning(l, t), LaneOf(bits, x)) == Won(l, LaneOf(bits, x))
  {
    hide Pow2, InTurn, Won, LaneOf;
    WaitsInLane(bits, k, l, t, y);
    LanesDiffer(bits, k, x, y);
    WonOneMore(l, t);
  }

  /** The wins of a lane whose slot the step is not about. */
  lemma WonElsewhere<T>(bits: nat, k: nat, s: State<T>, h: History<T>, a: Action<T>, x: nat)
    requires Spsc.Geometry(bits, k) && h.push.size == h.pop.size == Pow2(k)
    requires a.t < |s.pc| && ThreadHist(bits, s, h, a.t) && !At(s.pc[a.t], x)
    ensures var h', lane := Track(bits, s, h, a), LaneOf(bits, x);
      Won(h'.push, lane) == Won(h.push, lane) && Won(h'.pop, lane) == Won(h.pop, lane)
  {
    hide Pow2, MayDraw, Logged, LastStored, Winning, LaneOf, Waits;
    match s.pc[a.t]
    case CasStoring(_, y) =>
      if a.t in h.push.waiting {
        WonInOtherLane(bits, k, h.push, a.t, y, x);
      }
    case CasLoading(y) =>
      if a.t in h.pop.waiting {
        WonInOtherLane(bits, k, h.pop, a.t, y, x);
      }
    case _ =>
  }

  lemma SlotElsewhere<T>(s: State<T>, a: Action<T>, x: nat)
    requires a.t < |s.pc| && !At(s.pc[a.t], x) && x < |s.states| == |s.cells|
    ensures Step(s, a).states[x] == s.states[x] && Step(s, a).cells[x] == s.cells[x]
  {
    hide Pow2, Spsc.Signed;
  }

  lemma ValuesGrow<T>(bits: nat, s: State<T>, h: History<T>, a: Action<T>)
    requires h.push.size > 0 && h.pop.size > 0
    ensures h.values <= Track(bits, s, h, a).values
  {
    hide Drawn, Winning, Logged;
  }

  lemma LastStoredStays<T>(h: History<T>, h': History<T>, lane: nat, cell: Option<T>)
    requires LastStored(h, lane, cell) && Won(h'.push, lane) == Won(h.push, lane) && h.values <= h'.values
    ensures LastStored(h', lane, cell)
  {
    hide Won;
  }

  /** A slot the step is not about. */
  lemma OtherSlotKept<T>(bits: nat, k: nat, s: State<T>, h: History<T>, a: Action<T>, x: nat)
    requires Spsc.Geometry(bits, k) && h.push.size == h.pop.size == Pow2(k)
    requires a.t < |s.pc| && ThreadHist(bits, s, h, a.t) && !At(s.pc[a.t], x) && x < |s.states| == |s.cells|
    requires SlotHist(bits, s, h, x)
    ensures SlotHist(bits, Step(s, a), Track(bits, s, h, a), x)
  {
    WonElsewhere(bits, k, s, h, a, x);
    SlotElsewhere(s, a, x);
    ValuesGrow(bits, s, h, a);
    hide ThreadHist, At, Step, Track, Won, LaneOf, LastStored, Pow2;
    if s.states[x] == Stored {
      LastStoredStays(h, Track(bits, s, h, a), LaneOf(bits, x), s.cells[x]);
    }
  }

  /** While thread u works in slot y no other thread's step changes the slot's element or its wins. */
  lemma WorkKept<T>(bits: nat, k: nat, s: State<T>, h: History<T>, a: Action<T>, u: Tid, y: nat)
    requires Spsc.Geometry(bits, k) && h.push.size == h.pop.size == Pow2(k) && |s.states| == |s.cells|
    requires a.t < |s.pc| && u < |s.pc| && u != a.t && ThreadHist(bits, s, h, a.t)
    requires y < |s.states| && SlotOk(s, y) && WorksIn(s.pc[u], y)
    ensures Won(Track(bits, s, h, a).push, LaneOf(bits, y)) == Won(h.push, LaneOf(bits, y))
    ensures Step(s, a).cells[y] == s.cells[y]
  {
    Exclusive(s, a.t, u, y);
    BusySlot(s, u, y);
    if At(s.pc[a.t], y) {
      FailsAt(bits, s, h, a, y);
    } else {
      WonElsewhere(bits, k, s, h, a, y);
      SlotElsewhere(s, a, y);
    }
  }

  lemma BusySlot<T>(s: State<T>, u: Tid, y: nat)
    requires u < |s.pc| && y < |s.states| && SlotOk(s, y) && WorksIn(s.pc[u], y)
    ensures s.states[y] == Storing || s.states[y] == Loading
  {
    hide Sum;
    SumUpdate(s.pc, u, s.pc[u], StoringAt(y));
    SumUpdate(s.pc, u, s.pc[u], LoadingAt(y));
  }

  lemma FailsAt<T>(bits: nat, s: State<T>, h: History<T>, a: Action<T>, y: nat)
    requires h.push.size > 0 && h.pop.size > 0 && a.t < |s.pc| && y < |s.states| == |s.cells|
    requires At(s.pc[a.t], y) && !WorksIn(s.pc[a.t], y) && (s.states[y] == Storing || s.states[y] == Loading)
    ensures Track(bits, s, h, a) == h && Step(s, a).cells == s.cells
  {
    hide Pow2, Spsc.Signed;
  }

  lemma WaitingPushKept<T>(bits: nat, s: State<T>, h: History<T>, a: Action<T>, u: Tid)
    requires h.push.size > 0 && h.pop.size > 0 && u != a.t
    ensures var l, l' := h.push, Track(bits, s, h, a).push;
      l'.size == l.size && (u in l'.waiting <==> u in l.waiting) && (u in l.waiting ==> l'.waiting[u] == l.waiting[u])
  {
    hide MayDraw, Logged, InTurn, Won, Pow2;
  }

  lemma WaitingPopKept<T>(bits: nat, s: State<T>, h: History<T>, a: Action<T>, u: Tid)
    requires h.push.size > 0 && h.pop.size > 0 && u != a.t
    ensures var l, l' := h.pop, Track(bits, s, h, a).pop;
      l'.size == l.size && (u in l'.waiting <==> u in l.waiting) && (u in l.waiting ==> l'.waiting[u] == l.waiting[u])
  {
    hide MayDraw, Logged, InTurn, Won, Pow2;
  }

  lemma WaitingKept<T>(bits: nat, s: State<T>, h: History<T>, a: Action<T>, u: Tid)
    requires h.push.size > 0 && h.pop.size > 0 && u != a.t
    ensures var h' := Track(bits, s, h, a);
      && h'.push.size == h.push.size && h'.pop.size == h.pop.size
      && (u in h'.push.waiting <==> u in h.push.waiting)
      && (u in h.push.waiting ==> h'.push.waiting[u] == h.push.waiting[u])
      && (u in h'.pop.waiting <==> u in h.pop.waiting)
      && (u in h.pop.waiting ==> h'.pop.waiting[u] == h.pop.waiting[u])
  {
    hide Track;
    WaitingPushKept(bits, s, h, a, u);
    WaitingPopKept(bits, s, h, a, u);
  }

  /** A thread that does not step. */
  lemma OtherThreadKept<T>(bits: nat, k: nat, s: State<T>, h: History<T>, a: Action<T>, u: Tid)
    requires Spsc.Geometry(bits, k) && h.push.size == h.pop.size == Pow2(k) && MpmcQueue.Inv(s)
    requires a.t < |s.pc| && u < |s.pc| && u != a.t && ThreadHist(bits, s, h, a.t) && ThreadHist(bits, s, h, u)
    ensures ThreadHist(bits, Step(s, a), Track(bits, s, h, a), u)
  {
    OtherPc(s, a, u);
    WaitingKept(bits, s, h, a, u);
    ValuesGrow(bits, s, h, a);
    var pc := s.pc[u];
    if pc.WriteCell? || pc.SetStored? || pc.TakeCell? || pc.SetEmpty? {
      assert MpmcQueue.ThreadOk(s, u) && SlotOk(s, pc.x);
      WorkKept(bits, k, s, h, a, u, pc.x);
      WorkerKept(bits, s, h, a, u);
    } else {
      hide Step, Track, LastStored, LaneOf, Pow2, MpmcQueue.Inv;
    }
  }

  lemma WorkerKept<T>(bits: nat, s: State<T>, h: History<T>, a: Action<T>, u: Tid)
    requires h.push.size > 0 && h.pop.size > 0 && u < |s.pc| && u != a.t && ThreadHist(bits, s, h, u)
    requires s.pc[u].WriteCell? || s.pc[u].SetStored? || s.pc[u].TakeCell? || s.pc[u].SetEmpty?
    requires s.pc[u].x < |s.cells| && Step(s, a).cells[s.pc[u].x] == s.cells[s.pc[u].x]
    requires Won(Track(bits, s, h, a).push, LaneOf(bits, s.pc[u].x)) == Won(h.push, LaneOf(bits, s.pc[u].x))
    ensures ThreadHist(bits, Step(s, a), Track(bits, s, h, a), u)
  {
    OtherPc(s, a, u);
    WaitingKept(bits, s, h, a, u);
    ValuesGrow(bits, s, h, a);
    var s', h', pc := Step(s, a), Track(bits, s, h, a), s.pc[u];
    var cell := if pc.WriteCell? then Some(pc.v) else if pc.SetEmpty? then pc.out else s.cells[pc.x];
    hide Step, Track, LaneOf, Won, LastStored;
    LastStoredStays(h, h', LaneOf(bits, pc.x), cell);
  }

  lemma OtherPc<T>(s: State<T>, a: Action<T>, u: Tid)
    requires u < |s.pc| && u != a.t
    ensures |Step(s, a).pc| == |s.pc| && Step(s, a).pc[u] == s.pc[u]
  {
    hide Effect, Move;
    if a.t < |s.pc| {
      EffectPc(s, a);
    }
  }

  lemma EffectPc<T>(s: State<T>, a: Action<T>)
    requires a.t < |s.pc|
    ensures Effect(s, s.pc[a.t]).pc == s.pc
  {
  }

  // ---------------------------------------------------------------- the thread that steps

  /** A push draws its ticket (267-277, 312). */
  predicate DrawsPush<T>(s: State<T>, pc: Pc<T>) {
    pc.FetchHead? || (pc.CasHead? && s.head == pc.ticket)
  }

  predicate DrawsPop<T>(s: State<T>, pc: Pc<T>) {
    pc.FetchTail? || (pc.CasTail? && s.tail == pc.ticket)
  }

  predicate WinsPush<T>(s: State<T>, pc: Pc<T>) {
    pc.CasStoring? && pc.x < |s.states| && s.states[pc.x] == SlotState.Empty
  }

  predicate WinsPop<T>(s: State<T>, pc: Pc<T>) {
    pc.CasLoading? && pc.x < |s.states| && s.states[pc.x] == SlotState.Stored
  }

  lemma DrawnPushOk<T>(bits: nat, k: nat, s: State<T>, h: History<T>, a: Action<T>)
    requires Spsc.Geometry(bits, k) && s.slot == Spsc.Slots(bits, k) && Counters(k, s, h)
    requires a.t < |s.pc| && ThreadHist(bits, s, h, a.t) && DrawsPush(s, s.pc[a.t])
    ensures ThreadHist(bits, Step(s, a), Track(bits, s, h, a), a.t)
  {
    hide Pow2, Spsc.Slots, MayDraw, LastStored, Spsc.Increment, RemapIndex;
    SlotOfTicket(bits, k, h.push.issued);
  }

  lemma DrawnPopOk<T>(bits: nat, k: nat, s: State<T>, h: History<T>, a: Action<T>)
    requires Spsc.Geometry(bits, k) && s.slot == Spsc.Slots(bits, k) && Counters(k, s, h)
    requires a.t < |s.pc| && ThreadHist(bits, s, h, a.t) && DrawsPop(s, s.pc[a.t])
    ensures ThreadHist(bits, Step(s, a), Track(bits, s, h, a), a.t)
  {
    hide Pow2, Spsc.Slots, MayDraw, LastStored, Spsc.Increment, RemapIndex;
    SlotOfTicket(bits, k, h.pop.issued);
  }

  /** The lane of a waiting thread is that of its slot. */
  lemma WaitsInLane(bits: nat, k: nat, l: Line, t: Tid, x: nat)
    requires Spsc.Geometry(bits, k) && l.size == Pow2(k) && Waits(bits, l, t, x)
    ensures l.size > 0 && Lane(l, l.waiting[t]) == LaneOf(bits, x)
  {
    hide Pow2;
    LaneOfSlot(bits, k, l.waiting[t] % l.size);
  }

  lemma WonPushOk<T>(bits: nat, k: nat, s: State<T>, h: History<T>, a: Action<T>)
    requires Spsc.Geometry(bits, k) && h.push.size == h.pop.size == Pow2(k)
    requires a.t < |s.pc| && ThreadHist(bits, s, h, a.t) && WinsPush(s, s.pc[a.t])
    ensures ThreadHist(bits, Step(s, a), Track(bits, s, h, a), a.t)
  {
    hide Pow2, LaneOf, InTurn, Won;
    WaitsInLane(bits, k, h.push, a.t, s.pc[a.t].x);
    WonOneMore(h.push, a.t);
  }

  lemma WonPopOk<T>(bits: nat, k: nat, s: State<T>, h: History<T>, a: Action<T>)
    requires Spsc.Geometry(bits, k) && h.push.size == h.pop.size == Pow2(k)
    requires a.t < |s.pc| && ThreadHist(bits, s, h, a.t) && WinsPop(s, s.pc[a.t])
    requires |s.states| == |s.cells| && SlotHist(bits, s, h, s.pc[a.t].x)
    ensures ThreadHist(bits, Step(s, a), Track(bits, s, h, a), a.t)
  {
    hide Pow2, LaneOf, InTurn, Won;
  }

  lemma OtherOwnOk<T>(bits: nat, k: nat, s: State<T>, h: History<T>, a: Action<T>)
    requires h.push.size == h.pop.size == Pow2(k) && |s.states| == |s.cells|
    requires a.t < |s.pc| && ThreadHist(bits, s, h, a.t) && MpmcQueue.ThreadOk(s, a.t)
    requires !DrawsPush(s, s.pc[a.t]) && !DrawsPop(s, s.pc[a.t]) && !WinsPush(s, s.pc[a.t]) && !WinsPop(s, s.pc[a.t])
    ensures ThreadHist(bits, Step(s, a), Track(bits, s, h, a), a.t)
  {
    hide Pow2, LaneOf, Won, Spsc.Signed, Logged;
  }

  lemma OwnThreadKept<T>(bits: nat, k: nat, s: State<T>, h: History<T>, a: Action<T>)
    requires OrderInv(bits, k, s, h) && a.t < |s.pc|
    ensures ThreadHist(bits, Step(s, a), Track(bits, s, h, a), a.t)
  {
    hide LogOk, TicketLine.Inv, SlotHist, ThreadHist, MpmcQueue.ThreadOk, Step, Track;
    assert ThreadHist(bits, s, h, a.t) && MpmcQueue.ThreadOk(s, a.t);
    var pc := s.pc[a.t];
    if DrawsPush(s, pc) {
      DrawnPushOk(bits, k, s, h, a);
    } else if DrawsPop(s, pc) {
      DrawnPopOk(bits, k, s, h, a);
    } else if WinsPush(s, pc) {
      WonPushOk(bits, k, s, h, a);
    } else if WinsPop(s, pc) {
      assert SlotHist(bits, s, h, pc.x);
      WonPopOk(bits, k, s, h, a);
    } else {
      OtherOwnOk(bits, k, s, h, a);
    }
  }

  // ---------------------------------------------------------------- the slot of the step

  lemma StoringSlot<T>(s: State<T>, t: Tid, x: nat)
    requires t < |s.pc| && x < |s.states| && SlotOk(s, x)
    requires (s.pc[t].WriteCell? || s.pc[t].SetStored?) && s.pc[t].x == x
    ensures s.states[x] == Storing
  {
    hide Sum;
    SumUpdate(s.pc, t, s.pc[t], StoringAt(x));
  }

  lemma LoadingSlot<T>(s: State<T>, t: Tid, x: nat)
    requires t < |s.pc| && x < |s.states| && SlotOk(s, x)
    requires (s.pc[t].TakeCell? || s.pc[t].SetEmpty?) && s.pc[t].x == x
    ensures s.states[x] == Loading
  {
    hide Sum;
    SumUpdate(s.pc, t, s.pc[t], LoadingAt(x));
  }

  /** The number of wins of the slot, and of pops of it that returned. */
  lemma WinningSlotKept<T>(bits: nat, k: nat, s: State<T>, h: History<T>, a: Action<T>, x: nat)
    requires Spsc.Geometry(bits, k) && h.push.size == h.pop.size == Pow2(k) && x < |s.states| == |s.cells|
    requires a.t < |s.pc| && ThreadHist(bits, s, h, a.t) && SlotHist(bits, s, h, x)
    requires (WinsPush(s, s.pc[a.t]) || WinsPop(s, s.pc[a.t])) && s.pc[a.t].x == x
    ensures var s', h' := Step(s, a), Track(bits, s, h, a);
      SlotHist(bits, s', h', x) && Done(bits, s', h', x) == Done(bits, s, h, x)
  {
    hide Pow2, LaneOf, InTurn, Won, LastStored;
    if WinsPush(s, s.pc[a.t]) {
      WaitsInLane(bits, k, h.push, a.t, x);
      WonOneMore(h.push, a.t);
    } else {
      WaitsInLane(bits, k, h.pop, a.t, x);
      WonOneMore(h.pop, a.t);
    }
  }

  lemma WorkingSlotKept<T>(bits: nat, s: State<T>, h: History<T>, a: Action<T>, x: nat)
    requires h.push.size > 0 && h.pop.size > 0 && x < |s.states| == |s.cells| && SlotOk(s, x)
    requires a.t < |s.pc| && ThreadHist(bits, s, h, a.t) && SlotHist(bits, s, h, x)
    requires At(s.pc[a.t], x) && !WinsPush(s, s.pc[a.t]) && !WinsPop(s, s.pc[a.t])
    ensures var s', h' := Step(s, a), Track(bits, s, h, a);
      SlotHist(bits, s', h', x) && Done(bits, s', h', x) == Done(bits, s, h, x) + if s.pc[a.t].SetEmpty? then 1 else 0
  {
    hide Pow2, LaneOf, Won, SlotOk, Logged, Spsc.Signed;
    match s.pc[a.t]
    case WriteCell(_, _) => StoringSlot(s, a.t, x);
    case SetStored(_) => StoringSlot(s, a.t, x);
    case TakeCell(_) => LoadingSlot(s, a.t, x);
    case SetEmpty(_, _) => LoadingSlot(s, a.t, x);
    case _ =>
  }

  /** The pops returned of slot x after the step. */
  function DoneAfter<T>(bits: nat, s: State<T>, h: History<T>, a: Action<T>, x: nat): int
    requires x < |s.states| && a.t < |s.pc|
  {
    Done(bits, s, h, x) + if s.pc[a.t].SetEmpty? && s.pc[a.t].x == x then 1 else 0
  }

  lemma SlotKept<T>(bits: nat, k: nat, s: State<T>, h: History<T>, a: Action<T>, x: nat)
    requires OrderInv(bits, k, s, h) && a.t < |s.pc| && x < |s.states|
    ensures var s', h' := Step(s, a), Track(bits, s, h, a);
      SlotHist(bits, s', h', x) && Done(bits, s', h', x) == DoneAfter(bits, s, h, a, x)
  {
    hide LogOk, TicketLine.Inv, SlotHist, ThreadHist, MpmcQueue.ThreadOk, LaneOf, Won;
    assert ThreadHist(bits, s, h, a.t) && SlotHist(bits, s, h, x) && SlotOk(s, x);
    var pc := s.pc[a.t];
    if !At(pc, x) {
      OtherSlotKept(bits, k, s, h, a, x);
      WonElsewhere(bits, k, s, h, a, x);
      SlotElsewhere(s, a, x);
    } else if WinsPush(s, pc) || WinsPop(s, pc) {
      WinningSlotKept(bits, k, s, h, a, x);
    } else {
      WorkingSlotKept(bits, s, h, a, x);
    }
    hide Step, Track;
  }

  // ---------------------------------------------------------------- the log

  lemma WonGrows<T>(bits: nat, s: State<T>, h: History<T>, a: Action<T>, lane: nat)
    requires h.push.size > 0 && h.pop.size > 0
    ensures var h' := Track(bits, s, h, a);
      Won(h.push, lane) <= Won(h'.push, lane) && Won(h.pop, lane) <= Won(h'.pop, lane)
  {
    hide MayDraw, Logged, InTurn;
  }

  lemma EntryKept<T>(bits: nat, k: nat, s: State<T>, h: History<T>, a: Action<T>, e: Popped<T>)
    requires OrderInv(bits, k, s, h) && a.t < |s.pc| && EntryOk(bits, s, h, e)
    ensures EntryOk(bits, Step(s, a), Track(bits, s, h, a), e)
  {
    hide LogOk, TicketLine.Inv, SlotHist, ThreadHist, MpmcQueue.Inv, LaneOf, Won, Done;
    var lane := e.ticket % h.pop.size;
    SlotKept(bits, k, s, h, a, LaneOf(bits, lane));
    WonGrows(bits, s, h, a, lane);
    ValuesGrow(bits, s, h, a);
    SizesStay(bits, s, h, a);
    hide Step, Track;
  }

  lemma SizesStay<T>(bits: nat, s: State<T>, h: History<T>, a: Action<T>)
    requires h.push.size > 0 && h.pop.size > 0
    ensures var h' := Track(bits, s, h, a); h'.push.size == h.push.size && h'.pop.size == h.pop.size
    ensures h.log <= Track(bits, s, h, a).log
  {
    hide MayDraw, Logged, InTurn, Won;
  }

  /** The entry a returning pop adds. */
  lemma NewEntry<T>(bits: nat, k: nat, s: State<T>, h: History<T>, a: Action<T>)
    requires OrderInv(bits, k, s, h) && a.t < |s.pc| && s.pc[a.t].SetEmpty?
    ensures var x, h' := s.pc[a.t].x, Track(bits, s, h, a);
      && x < |s.states| && |h'.log| == |h.log| + 1 && h'.log[..|h.log|] == h.log
      && EntryOk(bits, Step(s, a), h', h'.log[|h.log|])
      && h'.log[|h.log|].nth == Done(bits, s, h, x) && h'.log[|h.log|].ticket % h.pop.size == LaneOf(bits, x)
      && h'.log[|h.log|].out == s.pc[a.t].out
  {
    hide LogOk, MpmcQueue.Inv, Pow2, LaneOf, Won;
    var x := s.pc[a.t].x;
    PopsSlot(s, a.t);
    assert ThreadHist(bits, s, h, a.t) && SlotHist(bits, s, h, x);
    LaneOfSlot(bits, k, x);
    LastOfLane(h.pop, LaneOf(bits, x));
    SlotKept(bits, k, s, h, a, x);
    hide SlotHist, Counters, TicketLine.Inv;
  }

  lemma PopsSlot<T>(s: State<T>, t: Tid)
    requires MpmcQueue.Inv(s) && t < |s.pc| && s.pc[t].SetEmpty?
    ensures s.pc[t].x < |s.states| && s.states[s.pc[t].x] == Loading
  {
    hide SlotOk;
    assert MpmcQueue.ThreadOk(s, t) && SlotOk(s, s.pc[t].x);
    LoadingSlot(s, t, s.pc[t].x);
  }

  lemma LastOfLane(l: Line, lane: nat)
    requires TicketLine.Inv(l)
    ensures var wins := Won(l, lane); wins != [] ==> wins[|wins| - 1].ticket % l.size == lane
  {
    hide HasWon, InTurnUpTo, OrderedUpTo, Won;
  }

  lemma LoggedStays<T>(h: History<T>, h': History<T>, lane: nat, n: nat)
    requires h.pop.size == h'.pop.size > 0 && h.log <= h'.log && IsLogged(h, lane, n)
    ensures IsLogged(h', lane, n)
  {
    var m :| 0 <= m < |h.log| && h.log[m].nth == n && h.log[m].ticket % h.pop.size == lane;
    assert h'.log[m].nth == n && h'.log[m].ticket % h'.pop.size == lane;
  }

  /** The log grows by the entry of a returning pop. */
  lemma LogGrows<T>(bits: nat, k: nat, s: State<T>, h: History<T>, a: Action<T>)
    requires OrderInv(bits, k, s, h) && a.t < |s.pc|
    ensures var log, log' := h.log, Track(bits, s, h, a).log;
      && |log'| == |log| + (if s.pc[a.t].SetEmpty? then 1 else 0) && log' == log + log'[|log|..]
      && (s.pc[a.t].SetEmpty? ==>
            && EntryOk(bits, Step(s, a), Track(bits, s, h, a), log'[|log|]) && s.pc[a.t].x < |s.states|
            && log'[|log|].nth == Done(bits, s, h, s.pc[a.t].x)
            && log'[|log|].ticket % h.pop.size == LaneOf(bits, s.pc[a.t].x))
  {
    AllPcs(k, s, h);
    SizesStay(bits, s, h, a);
    hide Step, Track, EntryOk, Done, MpmcQueue.Inv, TicketLine.Inv, LogOk, InRange, Counters;
    if s.pc[a.t].SetEmpty? {
      NewEntry(bits, k, s, h, a);
    } else {
      NoNewEntry(bits, s, h, a);
    }
  }

  lemma EntriesKept<T>(bits: nat, k: nat, s: State<T>, h: History<T>, a: Action<T>, m: nat)
    requires OrderInv(bits, k, s, h) && a.t < |s.pc| && m < |Track(bits, s, h, a).log|
    ensures EntryOk(bits, Step(s, a), Track(bits, s, h, a), Track(bits, s, h, a).log[m])
  {
    hide OrderInv, Step, Track, EntryOk, Done;
    LogGrows(bits, k, s, h, a);
    if m < |h.log| {
      EntryOf(bits, k, s, h, h.log[m]);
      EntryKept(bits, k, s, h, a, h.log[m]);
    }
  }

  lemma LoggedKept<T>(bits: nat, k: nat, s: State<T>, h: History<T>, a: Action<T>, x: nat, n: nat)
    requires OrderInv(bits, k, s, h) && a.t < |s.pc| && x < |s.states| && n < DoneAfter(bits, s, h, a, x)
    ensures Track(bits, s, h, a).pop.size > 0 && IsLogged(Track(bits, s, h, a), LaneOf(bits, x), n)
  {
    LogGrows(bits, k, s, h, a);
    SizesStay(bits, s, h, a);
    hide Step, Track, EntryOk, Done, MpmcQueue.Inv, TicketLine.Inv, InRange, Counters, ThreadHist, SlotHist, LaneOf;
    var h' := Track(bits, s, h, a);
    if n < Done(bits, s, h, x) {
      LoggedStays(h, h', LaneOf(bits, x), n);
    } else {
      assert h'.log[|h.log|].nth == n;
    }
  }

  lemma LogKept<T>(bits: nat, k: nat, s: State<T>, h: History<T>, a: Action<T>)
    requires OrderInv(bits, k, s, h) && a.t < |s.pc|
    ensures LogOk(bits, Step(s, a), Track(bits, s, h, a))
  {
    var s', h' := Step(s, a), Track(bits, s, h, a);
    SizesStay(bits, s, h, a);
    hide OrderInv, Track, EntryOk, Done, IsLogged, LaneOf, DoneAfter, Effect, Move;
    forall m | 0 <= m < |h'.log| ensures EntryOk(bits, s', h', h'.log[m]) {
      EntriesKept(bits, k, s, h, a, m);
    }
    forall x: nat, n: nat | x < |s'.states| && n < Done(bits, s', h', x) ensures IsLogged(h', LaneOf(bits, x), n) {
      SlotKept(bits, k, s, h, a, x);
      LoggedKept(bits, k, s, h, a, x, n);
    }
  }

  lemma NoNewEntry<T>(bits: nat, s: State<T>, h: History<T>, a: Action<T>)
    requires h.push.size > 0 && h.pop.size > 0 && a.t < |s.pc| && !s.pc[a.t].SetEmpty?
    ensures Track(bits, s, h, a).log == h.log
  {
    hide MayDraw, InTurn, Won;
  }

  // ---------------------------------------------------------------- every step and every run

  lemma LinesKept<T>(bits: nat, s: State<T>, h: History<T>, a: Action<T>)
    requires TicketLine.Inv(h.push) && TicketLine.Inv(h.pop) && a.t < |s.pc| && ThreadHist(bits, s, h, a.t)
    ensures TicketLine.Inv(Track(bits, s, h, a).push) && TicketLine.Inv(Track(bits, s, h, a).pop)
  {
    assert h.push.size > 0 && h.pop.size > 0;
    hide TicketLine.Inv, Drawn, Winning, Logged, LastStored;
    match s.pc[a.t]
    case FetchHead(_) => DrawnKeepsInv(h.push, a.t);
    case CasHead(_, _) => DrawnKeepsInv(h.push, a.t);
    case CasStoring(_, _) => WinningKeepsInv(h.push, a.t);
    case FetchTail => DrawnKeepsInv(h.pop, a.t);
    case CasTail(_) => DrawnKeepsInv(h.pop, a.t);
    case CasLoading(_) => WinningKeepsInv(h.pop, a.t);
    case _ =>
  }

  lemma HeadKept<T>(bits: nat, s: State<T>, h: History<T>, a: Action<T>)
    requires h.push.size > 0 && h.pop.size > 0 && a.t < |s.pc|
    requires |h.values| == h.push.issued && s.head == h.push.issued % UINT32
    ensures var s', h' := Step(s, a), Track(bits, s, h, a);
      |h'.values| == h'.push.issued && s'.head == h'.push.issued % UINT32
  {
    hide Pow2, MayDraw, InTurn, Won, Logged, Spsc.Increment, Move;
    Spsc.NextTicket(h.push.issued);
  }

  lemma TailKept<T>(bits: nat, s: State<T>, h: History<T>, a: Action<T>)
    requires h.push.size > 0 && h.pop.size > 0 && a.t < |s.pc| && s.tail == h.pop.issued % UINT32
    ensures Step(s, a).tail == Track(bits, s, h, a).pop.issued % UINT32
  {
    hide Pow2, MayDraw, InTurn, Won, Logged, Spsc.Increment, Move;
    Spsc.NextTicket(h.pop.issued);
  }

  lemma WaitersKept<T>(bits: nat, s: State<T>, h: History<T>, a: Action<T>)
    requires h.push.size > 0 && h.pop.size > 0 && a.t < |s.pc|
    requires (forall t <- h.push.waiting :: t < |s.pc|) && (forall t <- h.pop.waiting :: t < |s.pc|)
    ensures var h' := Track(bits, s, h, a);
      (forall t <- h'.push.waiting :: t < |s.pc|) && (forall t <- h'.pop.waiting :: t < |s.pc|)
  {
    forall t | t in Track(bits, s, h, a).push.waiting || t in Track(bits, s, h, a).pop.waiting ensures t < |s.pc| {
      if t != a.t {
        WaitingKept(bits, s, h, a, t);
      }
    }
    hide Track;
  }

  lemma CountersKept<T>(bits: nat, k: nat, s: State<T>, h: History<T>, a: Action<T>)
    requires Counters(k, s, h) && h.push.size > 0 && a.t < |s.pc|
    ensures Counters(k, Step(s, a), Track(bits, s, h, a))
  {
    HeadKept(bits, s, h, a);
    TailKept(bits, s, h, a);
    WaitersKept(bits, s, h, a);
    SizesStay(bits, s, h, a);
    SlotFunctionStays(s, a);
    hide Step, Track, Pow2;
  }

  lemma StepKeepsOrderInv<T>(bits: nat, k: nat, s: State<T>, h: History<T>, a: Action<T>)
    requires OrderInv(bits, k, s, h)
    ensures OrderInv(bits, k, Step(s, a), Track(bits, s, h, a))
  {
    if a.t < |s.pc| {
      var s', h' := Step(s, a), Track(bits, s, h, a);
      MpmcQueue.StepKeepsInv(s, a);
      InRangeKept(bits, k, s, a);
      assert ThreadHist(bits, s, h, a.t);
      LinesKept(bits, s, h, a);
      CountersKept(bits, k, s, h, a);
      LogKept(bits, k, s, h, a);
      OwnThreadKept(bits, k, s, h, a);
      hide LogOk, TicketLine.Inv, SlotHist, ThreadHist, MpmcQueue.Inv, Step, Track, Counters;
      forall u | 0 <= u < |s'.pc| ensures ThreadHist(bits, s', h', u) {
        if u != a.t {
          AllPcs(k, s, h);
          OtherThreadKept(bits, k, s, h, a, u);
        }
      }
      forall x | 0 <= x < |s'.states| ensures SlotHist(bits, s', h', x) {
        SlotKept(bits, k, s, h, a, x);
      }
    }
  }

  lemma AllPcs<T>(k: nat, s: State<T>, h: History<T>)
    requires Counters(k, s, h)
    ensures h.push.size == h.pop.size == Pow2(k)
  {
  }

  lemma InRangeKept<T>(bits: nat, k: nat, s: State<T>, a: Action<T>)
    requires Spsc.Geometry(bits, k) && InRange(bits, k, s) && a.t < |s.pc|
    ensures InRange(bits, k, Step(s, a)) && |Step(s, a).pc| == |s.pc|
  {
    StepStaysInRange(bits, k, s, a);
    SlotFunctionStays(s, a);
    hide Pow2, Spsc.Slots, AimsInRange;
    forall t | 0 <= t < |s.pc| ensures AimsInRange(Step(s, a).pc[t], Pow2(k)) {
      if t != a.t {
        OtherPc(s, a, t);
      }
    }
    hide Step;
  }

  lemma SlotFunctionStays<T>(s: State<T>, a: Action<T>)
    requires a.t < |s.pc|
    ensures Step(s, a).slot == s.slot && |Step(s, a).pc| == |s.pc|
  {
    EffectPc(s, a);
    hide Move;
  }

  lemma StartIsOk<T>(bits: nat, k: nat, threads: nat)
    requires Spsc.Geometry(bits, k)
    ensures OrderInv(bits, k, Init<T>(bits, k, threads), Start<T>(k))
  {
    MpmcQueue.RunKeepsInv<T>(bits, k, threads, []);
    SlotsAreInRange<T>(bits, k, threads, []);
    NewLineOk(Pow2(k));
    hide MpmcQueue.Inv, InRange, TicketLine.Inv, LaneOf;
    assert Run<T>(bits, k, threads, []) == Init<T>(bits, k, threads);
  }

  lemma {:induction false} RunKeepsOrderInv<T>(bits: nat, k: nat, threads: nat, acts: seq<Action<T>>)
    requires Spsc.Geometry(bits, k)
    ensures OrderInv(bits, k, Run(bits, k, threads, acts), TrackRun(bits, k, threads, acts))
  {
    hide OrderInv, Step, Track, Pow2;
    if acts == [] {
      StartIsOk<T>(bits, k, threads);
    } else {
      var before := acts[..|acts| - 1];
      RunKeepsOrderInv(bits, k, threads, before);
      StepKeepsOrderInv(bits, k, Run(bits, k, threads, before), TrackRun(bits, k, threads, before), acts[|acts| - 1]);
    }
  }

  // ---------------------------------------------------------------- the order

  /** Every pop returned the element of the push with its own ticket. */
  ghost predicate InOrder<T>(h: History<T>) {
    forall e <- h.log :: e.source == e.ticket
  }

  lemma EntryOf<T>(bits: nat, k: nat, s: State<T>, h: History<T>, e: Popped<T>)
    requires OrderInv(bits, k, s, h) && e in h.log
    ensures EntryOk(bits, s, h, e) && h.push.size == h.pop.size
  {
    hide TicketLine.Inv, MpmcQueue.Inv, EntryOk, ThreadHist, SlotHist;
  }

  /** A ticket that won its lane in its round. */
  lemma RoundOf(l: Line, lane: nat, n: nat)
    requires TicketLine.Inv(l) && n < |Won(l, lane)|
    ensures Won(l, lane)[n].ticket % l.size == lane
    ensures InTurnUpTo(l, lane, n + 1) ==> Won(l, lane)[n].ticket / l.size == n
  {
    hide HasWon;
    assert InTurnUpTo(l, lane, n + 1) <==> OrderedUpTo(l, lane, n + 1);
  }

  /** An entry whose lane was won in turn by both sides. */
  lemma MatchedInTurn<T>(bits: nat, k: nat, s: State<T>, h: History<T>, e: Popped<T>)
    requires OrderInv(bits, k, s, h) && EntryOk(bits, s, h, e)
    requires InTurnUpTo(h.pop, e.ticket % h.pop.size, e.nth + 1) && InTurnUpTo(h.push, e.ticket % h.pop.size, e.nth + 1)
    ensures e.source == e.ticket
  {
    hide TicketLine.Inv, MpmcQueue.Inv, ThreadHist, SlotHist, InTurnUpTo, Done, LaneOf;
    var lane := e.ticket % h.pop.size;
    RoundOf(h.pop, lane, e.nth);
    RoundOf(h.push, lane, e.nth);
    SameTicket(e.ticket, e.source, h.pop.size);
  }

  /** If every exchange was in turn, the pop with ticket i returns the value pushed with ticket i. */
  lemma InTurnMeansInOrder<T>(bits: nat, k: nat, threads: nat, acts: seq<Action<T>>)
    requires Spsc.Geometry(bits, k)
    requires var h := TrackRun(bits, k, threads, acts); AllInTurn(h.push) && AllInTurn(h.pop)
    ensures var h := TrackRun(bits, k, threads, acts);
      forall e <- h.log :: e.source == e.ticket < |h.values| && e.out == Some(h.values[e.ticket])
  {
    RunKeepsOrderInv(bits, k, threads, acts);
    var s, h := Run(bits, k, threads, acts), TrackRun(bits, k, threads, acts);
    hide OrderInv, Run, TrackRun;
    forall e | e in h.log ensures e.source == e.ticket < |h.values| && e.out == Some(h.values[e.ticket]) {
      EntryOf(bits, k, s, h, e);
      assert InTurnUpTo(h.push, e.ticket % h.pop.size, |Won(h.push, e.ticket % h.pop.size)|);
      assert InTurnUpTo(h.pop, e.ticket % h.pop.size, |Won(h.pop, e.ticket % h.pop.size)|);
      MatchedInTurn(bits, k, s, h, e);
    }
  }

  /** The pops of a slot before an entry are in the log. */
  lemma EarlierEntry<T>(bits: nat, k: nat, s: State<T>, h: History<T>, e: Popped<T>, j: nat) returns (d: Popped<T>)
    requires OrderInv(bits, k, s, h) && e in h.log && j <= e.nth
    ensures d in h.log && d.nth == j && d.ticket % h.pop.size == e.ticket % h.pop.size && EntryOk(bits, s, h, d)
  {
    EntryOf(bits, k, s, h, e);
    var lane := e.ticket % h.pop.size;
    LaneOfSlot(bits, k, lane);
    hide TicketLine.Inv, MpmcQueue.Inv, ThreadHist, SlotHist, LaneOf, Done;
    assert IsLogged(h, lane, j);
    var m :| 0 <= m < |h.log| && h.log[m].nth == j && h.log[m].ticket % h.pop.size == lane;
    d := h.log[m];
  }

  /** What the log says of the wins of a lane up to an entry. */
  lemma LoggedInTurn<T>(bits: nat, k: nat, s: State<T>, h: History<T>, e: Popped<T>)
    requires OrderInv(bits, k, s, h) && e in h.log
    ensures h.push.size == h.pop.size > 0 && EntryOk(bits, s, h, e)
    ensures var lane := e.ticket % h.pop.size;
      && ((forall d <- h.log :: d.stored) ==> InTurnUpTo(h.push, lane, e.nth + 1))
      && ((forall d <- h.log :: d.taken) ==> InTurnUpTo(h.pop, lane, e.nth + 1))
  {
    EntryOf(bits, k, s, h, e);
    hide OrderInv, LaneOf, Done;
    var lane := e.ticket % h.pop.size;
    forall j | 0 <= j < e.nth + 1
      ensures (forall d <- h.log :: d.stored) ==> Won(h.push, lane)[j].inTurn
      ensures (forall d <- h.log :: d.taken) ==> Won(h.pop, lane)[j].inTurn
    {
      var d := EarlierEntry(bits, k, s, h, e, j);
    }
  }

  /** One side in turn and everything popped in turn on the other: then the pops are in order... */
  lemma BothInTurn<T>(bits: nat, k: nat, s: State<T>, h: History<T>, e: Popped<T>)
    requires OrderInv(bits, k, s, h) && e in h.log
    requires (AllInTurn(h.pop) && forall d <- h.log :: d.stored) || (AllInTurn(h.push) && forall d <- h.log :: d.taken)
    ensures e.source == e.ticket
  {
    LoggedInTurn(bits, k, s, h, e);
    hide OrderInv, LaneOf, Done;
    var lane := e.ticket % h.pop.size;
    assert AllInTurn(h.pop) ==> InTurnUpTo(h.pop, lane, |Won(h.pop, lane)|);
    assert AllInTurn(h.push) ==> InTurnUpTo(h.push, lane, |Won(h.push, lane)|);
    MatchedInTurn(bits, k, s, h, e);
  }

  /** ...and only then. */
  lemma PoppedInOrder<T>(bits: nat, k: nat, s: State<T>, h: History<T>, e: Popped<T>)
    requires OrderInv(bits, k, s, h) && (AllInTurn(h.pop) || AllInTurn(h.push)) && e in h.log && InOrder(h)
    ensures e.stored && e.taken
  {
    EntryOf(bits, k, s, h, e);
    var lane := e.ticket % h.pop.size;
    assert TicketLine.Inv(h.push) && TicketLine.Inv(h.pop);
    hide OrderInv, LaneOf, Done, TicketLine.Inv;
    forall j | 0 <= j < e.nth + 1
      ensures Won(h.push, lane)[j].ticket == Won(h.pop, lane)[j].ticket && Won(h.pop, lane)[j].ticket / h.pop.size == j
    {
      var d := EarlierEntry(bits, k, s, h, e, j);
      assert AllInTurn(h.pop) ==> InTurnUpTo(h.pop, lane, |Won(h.pop, lane)|);
      assert AllInTurn(h.push) ==> InTurnUpTo(h.push, lane, |Won(h.push, lane)|);
      RoundOf(h.pop, lane, j);
      RoundOf(h.push, lane, j);
    }
    OrderedMeansInTurn(h.push, lane, e.nth + 1);
    OrderedMeansInTurn(h.pop, lane, e.nth + 1);
  }

  lemma OrderedMeansInTurn(l: Line, lane: nat, n: nat)
    requires TicketLine.Inv(l) && n <= |Won(l, lane)| && OrderedUpTo(l, lane, n)
    ensures InTurnUpTo(l, lane, n)
  {
    hide HasWon;
  }

  /** The exact condition where one side wins in turn, as with one thread on that side: the pops so far are in
      order exactly if every element popped won its slot in turn on the other side. */
  lemma InOrderExactly<T>(bits: nat, k: nat, threads: nat, acts: seq<Action<T>>)
    requires Spsc.Geometry(bits, k)
    ensures var h := TrackRun(bits, k, threads, acts);
      && (AllInTurn(h.pop) ==> (InOrder(h) <==> forall e <- h.log :: e.stored))
      && (AllInTurn(h.push) ==> (InOrder(h) <==> forall e <- h.log :: e.taken))
  {
    RunKeepsOrderInv(bits, k, threads, acts);
    var s, h := Run(bits, k, threads, acts), TrackRun(bits, k, threads, acts);
    hide OrderInv, Run, TrackRun, AllInTurn;
    if InOrder(h) && (AllInTurn(h.pop) || AllInTurn(h.push)) {
      forall e | e in h.log ensures e.stored && e.taken {
        PoppedInOrder(bits, k, s, h, e);
      }
    }
    if (AllInTurn(h.pop) && forall d <- h.log :: d.stored) || (AllInTurn(h.push) && forall d <- h.log :: d.taken) {
      forall e | e in h.log ensures e.source == e.ticket {
        BothInTurn(bits, k, s, h, e);
      }
    }
  }

  /** If no ticket i is drawn before ticket i - size_ of its kind has won its slot, every exchange is in turn. */
  lemma TimelyRunsAreInTurn<T>(bits: nat, k: nat, threads: nat, acts: seq<Action<T>>)
    requires Spsc.Geometry(bits, k)
    ensures var h := TrackRun(bits, k, threads, acts);
      (h.push.timely ==> AllInTurn(h.push)) && (h.pop.timely ==> AllInTurn(h.pop))
  {
    RunKeepsOrderInv(bits, k, threads, acts);
    hide Run, TrackRun, LogOk, MpmcQueue.Inv, ThreadHist, SlotHist, InRange;
  }

  /** Only thread p calls push or try_push. */
  predicate OnePusher<T>(acts: seq<Action<T>>, p: Tid) {
    forall i :: 0 <= i < |acts| && (acts[i].call.Push? || acts[i].call.TryPush?) ==> acts[i].t == p
  }

  /** Only thread c calls pop or try_pop. */
  predicate OnePopper<T>(acts: seq<Action<T>>, c: Tid) {
    forall i :: 0 <= i < |acts| && (acts[i].call.Pop? || acts[i].call.TryPop?) ==> acts[i].t == c
  }

  predicate Pops<T>(pc: Pc<T>) {
    !pc.Ready? && !Pushes(pc)
  }

  lemma NewPushes<T>(s: State<T>, a: Action<T>, u: Tid)
    requires u < |s.pc| && |Step(s, a).pc| == |s.pc|
    ensures Pushes(Step(s, a).pc[u]) ==> Pushes(s.pc[u]) || (u == a.t && (a.call.Push? || a.call.TryPush?))
    ensures Pops(Step(s, a).pc[u]) ==> Pops(s.pc[u]) || (u == a.t && (a.call.Pop? || a.call.TryPop?))
  {
    if u != a.t {
      OtherPc(s, a, u);
    } else {
      hide Effect, Pow2, Spsc.Signed;
    }
  }

  lemma {:induction false} OnlyOnePushes<T>(bits: nat, k: nat, threads: nat, acts: seq<Action<T>>, p: Tid, t: Tid)
    requires t < threads && t != p
    ensures OnePusher(acts, p) ==> !Pushes(Run(bits, k, threads, acts).pc[t])
    ensures OnePopper(acts, p) ==> !Pops(Run(bits, k, threads, acts).pc[t])
  {
    if acts != [] {
      hide Step;
      var before, a := acts[..|acts| - 1], acts[|acts| - 1];
      OnlyOnePushes(bits, k, threads, before, p, t);
      NewPushes(Run(bits, k, threads, before), a, t);
    }
  }

  /** When one thread alone draws the tickets of a kind, nobody waits when it draws. */
  lemma AloneMayDraw<T>(bits: nat, k: nat, s: State<T>, h: History<T>, t: Tid)
    requires OrderInv(bits, k, s, h) && t < |s.pc|
    ensures DrawsPush(s, s.pc[t]) && (forall u :: 0 <= u < |s.pc| && u != t ==> !Pushes(s.pc[u])) ==> MayDraw(h.push)
    ensures DrawsPop(s, s.pc[t]) && (forall u :: 0 <= u < |s.pc| && u != t ==> !Pops(s.pc[u])) ==> MayDraw(h.pop)
  {
    hide TicketLine.Inv, MpmcQueue.Inv, SlotHist, LogOk, LastStored, MayDraw, InRange, Waits;
    if DrawsPush(s, s.pc[t]) && forall u :: 0 <= u < |s.pc| && u != t ==> !Pushes(s.pc[u]) {
      forall u | 0 <= u < |s.pc| ensures u !in h.push.waiting {
        assert ThreadHist(bits, s, h, u);
      }
      assert h.push.waiting.Keys == {};
      NobodyWaits(h.push);
    }
    if DrawsPop(s, s.pc[t]) && forall u :: 0 <= u < |s.pc| && u != t ==> !Pops(s.pc[u]) {
      forall u | 0 <= u < |s.pc| ensures u !in h.pop.waiting {
        assert ThreadHist(bits, s, h, u);
      }
      assert h.pop.waiting.Keys == {};
      NobodyWaits(h.pop);
    }
  }

  lemma TimelyStep<T>(bits: nat, s: State<T>, h: History<T>, a: Action<T>)
    requires h.push.size > 0 && h.pop.size > 0 && a.t < |s.pc|
    ensures var h' := Track(bits, s, h, a);
      && (h.push.timely && (DrawsPush(s, s.pc[a.t]) ==> MayDraw(h.push)) ==> h'.push.timely)
      && (h.pop.timely && (DrawsPop(s, s.pc[a.t]) ==> MayDraw(h.pop)) ==> h'.pop.timely)
  {
    hide MayDraw, Logged, InTurn, Won;
  }

  /** One pushing thread draws its tickets in time, and so does one popping thread. */
  lemma {:induction false} OneThreadIsTimely<T>(bits: nat, k: nat, threads: nat, acts: seq<Action<T>>, p: Tid)
    requires Spsc.Geometry(bits, k)
    ensures var h := TrackRun(bits, k, threads, acts);
      (OnePusher(acts, p) ==> h.push.timely) && (OnePopper(acts, p) ==> h.pop.timely)
  {
    if acts != [] {
      var before, a := acts[..|acts| - 1], acts[|acts| - 1];
      OneThreadIsTimely(bits, k, threads, before, p);
      if a.t < threads {
        OneThreadStep(bits, k, threads, before, a, p);
      }
    }
  }

  lemma OneThreadStep<T>(bits: nat, k: nat, threads: nat, before: seq<Action<T>>, a: Action<T>, p: Tid)
    requires Spsc.Geometry(bits, k) && a.t < threads
    ensures var s, h := Run(bits, k, threads, before), TrackRun(bits, k, threads, before);
      var h' := Track(bits, s, h, a);
      && (OnePusher(before, p) && h.push.timely && (a.call.Push? || a.call.TryPush? ==> a.t == p) ==> h'.push.timely)
      && (OnePopper(before, p) && h.pop.timely && (a.call.Pop? || a.call.TryPop? ==> a.t == p) ==> h'.pop.timely)
  {
    var s, h := Run(bits, k, threads, before), TrackRun(bits, k, threads, before);
    RunKeepsOrderInv(bits, k, threads, before);
    hide OrderInv, Track, MayDraw, OnePusher, OnePopper, Pushes, Pops;
    forall u | 0 <= u < threads && u != p
      ensures OnePusher(before, p) ==> !Pushes(s.pc[u])
      ensures OnePopper(before, p) ==> !Pops(s.pc[u])
    {
      OnlyOnePushes(bits, k, threads, before, p, u);
    }
    DrawsInAPush(s, a.t);
    AloneMayDraw(bits, k, s, h, a.t);
    TimelyStep(bits, s, h, a);
    hide Run, TrackRun;
  }

  lemma DrawsInAPush<T>(s: State<T>, t: Tid)
    requires t < |s.pc|
    ensures DrawsPush(s, s.pc[t]) ==> Pushes(s.pc[t])
    ensures DrawsPop(s, s.pc[t]) ==> Pops(s.pc[t])
  {
  }

  /** With one pushing and one popping thread every pop returns the value pushed with its ticket. */
  lemma OnePairInOrder<T>(bits: nat, k: nat, threads: nat, acts: seq<Action<T>>, p: Tid, c: Tid)
    requires Spsc.Geometry(bits, k) && OnePusher(acts, p) && OnePopper(acts, c)
    ensures var h := TrackRun(bits, k, threads, acts);
      forall e <- h.log :: e.source == e.ticket < |h.values| && e.out == Some(h.values[e.ticket])
  {
    OneThreadIsTimely(bits, k, threads, acts, p);
    OneThreadIsTimely(bits, k, threads, acts, c);
    TimelyRunsAreInTurn(bits, k, threads, acts);
    InTurnMeansInOrder(bits, k, threads, acts);
  }

  /** With one popping thread the pops are in order exactly if every element popped had been stored in turn, and
      with one pushing thread exactly if every pop took its element in turn. */
  lemma OneSidedExactly<T>(bits: nat, k: nat, threads: nat, acts: seq<Action<T>>, t: Tid)
    requires Spsc.Geometry(bits, k)
    ensures var h := TrackRun(bits, k, threads, acts);
      && (OnePopper(acts, t) ==> (InOrder(h) <==> forall e <- h.log :: e.stored))
      && (OnePusher(acts, t) ==> (InOrder(h) <==> forall e <- h.log :: e.taken))
  {
    OneThreadIsTimely(bits, k, threads, acts, t);
    TimelyRunsAreInTurn(bits, k, threads, acts);
    InOrderExactly(bits, k, threads, acts);
  }

  // ---------------------------------------------------------------- the history and the machine

  /** What the logged pops returned. */
  function Outs<T(==)>(log: seq<Popped<T>>): multiset<T> {
    if log == [] then multiset{} else Outs(log[..|log| - 1]) + Returned(log[|log| - 1].out)
  }

  /** The value pushed with a step that draws a ticket. */
  function NewValue<T>(s: State<T>, t: Tid): seq<T>
    requires t < |s.pc|
  {
    match s.pc[t]
    case FetchHead(v) => [v]
    case CasHead(v, head) => if s.head == head then [v] else []
    case _ => []
  }

  lemma MachinePushes<T>(s: State<T>, a: Action<T>)
    requires a.t < |s.pc|
    ensures Step(s, a).pushed == s.pushed + multiset(NewValue(s, a.t))
  {
    hide Move, Pow2, Spsc.Increment;
  }

  lemma ValuesTracked<T>(bits: nat, s: State<T>, h: History<T>, a: Action<T>)
    requires h.push.size > 0 && h.pop.size > 0 && a.t < |s.pc|
    ensures Track(bits, s, h, a).values == h.values + NewValue(s, a.t)
  {
    hide MayDraw, InTurn, Won, Logged, Drawn, Winning, Pow2;
  }

  lemma PushedStep<T>(bits: nat, s: State<T>, h: History<T>, a: Action<T>)
    requires h.push.size > 0 && h.pop.size > 0 && a.t < |s.pc| && s.pushed == multiset(h.values)
    ensures Step(s, a).pushed == multiset(Track(bits, s, h, a).values)
  {
    hide Step, Track, NewValue;
    MachinePushes(s, a);
    ValuesTracked(bits, s, h, a);
  }

  lemma MachinePops<T>(s: State<T>, a: Action<T>)
    requires a.t < |s.pc|
    ensures Step(s, a).popped == s.popped + if s.pc[a.t].SetEmpty? then Returned(s.pc[a.t].out) else multiset{}
  {
    hide Move;
  }

  lemma OutsOneMore<T>(log: seq<Popped<T>>, e: Popped<T>)
    ensures Outs(log + [e]) == Outs(log) + Returned(e.out)
  {
    assert (log + [e])[..|log|] == log;
  }

  lemma ReturningPop<T>(bits: nat, k: nat, s: State<T>, h: History<T>, a: Action<T>)
    requires OrderInv(bits, k, s, h) && h.push.size > 0 && h.pop.size > 0
    requires a.t < |s.pc| && s.pc[a.t].SetEmpty?
    ensures Outs(Track(bits, s, h, a).log) == Outs(h.log) + Returned(s.pc[a.t].out)
  {
    hide OrderInv, Step, Track, Outs, EntryOk, Done;
    NewEntry(bits, k, s, h, a);
    var log := Track(bits, s, h, a).log;
    OutsOneMore(h.log, log[|h.log|]);
    assert log == h.log + [log[|h.log|]];
  }

  lemma PoppedStep<T>(bits: nat, k: nat, s: State<T>, h: History<T>, a: Action<T>)
    requires OrderInv(bits, k, s, h) && h.push.size > 0 && h.pop.size > 0
    requires a.t < |s.pc| && s.popped == Outs(h.log)
    ensures Step(s, a).popped == Outs(Track(bits, s, h, a).log)
  {
    hide OrderInv, Step, Track, Outs;
    MachinePops(s, a);
    if s.pc[a.t].SetEmpty? {
      ReturningPop(bits, k, s, h, a);
    } else {
      NoNewEntry(bits, s, h, a);
    }
  }

  /** The history is that of the machine: the values pushed and the values the logged pops returned are those
      the machine counts. */
  lemma {:induction false} HistoryIsTrue<T>(bits: nat, k: nat, threads: nat, acts: seq<Action<T>>)
    requires Spsc.Geometry(bits, k)
    ensures var s, h := Run(bits, k, threads, acts), TrackRun(bits, k, threads, acts);
      s.pushed == multiset(h.values) && s.popped == Outs(h.log)
  {
    if acts != [] {
      var before, a := acts[..|acts| - 1], acts[|acts| - 1];
      HistoryIsTrue(bits, k, threads, before);
      RunKeepsOrderInv(bits, k, threads, before);
      hide OrderInv, Track, Step, Outs;
      if a.t < threads {
        PushedStep(bits, Run(bits, k, threads, before), TrackRun(bits, k, threads, before), a);
        PoppedStep(bits, k, Run(bits, k, threads, before), TrackRun(bits, k, threads, before), a);
      } else {
        NothingTracked(bits, Run(bits, k, threads, before), TrackRun(bits, k, threads, before), a);
      }
    }
  }

  lemma NothingTracked<T>(bits: nat, s: State<T>, h: History<T>, a: Action<T>)
    requires h.push.size > 0 && h.pop.size > 0 && a.t >= |s.pc|
    ensures Step(s, a) == s && Track(bits, s, h, a) == h
  {
  }

  // ---------------------------------------------------------------- the overtaking push, again

  lemma OneElementEach<T>(bits: nat, k: nat, s: State<T>, h: History<T>)
    requires OrderInv(bits, k, s, h)
    ensures |Outs(h.log)| == |h.log|
  {
    hide MpmcQueue.Inv, TicketLine.Inv, ThreadHist, SlotHist, InRange, Counters, LaneOf, Done;
    assert forall m :: 0 <= m < |h.log| ==> EntryOk(bits, s, h, h.log[m]);
    CountOuts(h.log);
  }

  lemma {:induction false} CountOuts<T>(log: seq<Popped<T>>)
    requires forall m :: 0 <= m < |log| ==> log[m].out.Some?
    ensures |Outs(log)| == |log|
  {
    if log != [] {
      CountOuts(log[..|log| - 1]);
    }
  }

  lemma OneMoreTracked<T>(bits: nat, k: nat, threads: nat, acts: seq<Action<T>>, a: Action<T>)
    ensures TrackRun(bits, k, threads, acts).values <= TrackRun(bits, k, threads, acts + [a]).values
  {
    hide Track, Run, Pow2;
    assert (acts + [a])[..|acts|] == acts;
    ValuesGrow(bits, Run(bits, k, threads, acts), TrackRun(bits, k, threads, acts), a);
  }

  lemma {:induction false} ValuesArePrefix<T>(bits: nat, k: nat, threads: nat, before: seq<Action<T>>,
                                              more: seq<Action<T>>)
    ensures TrackRun(bits, k, threads, before).values <= TrackRun(bits, k, threads, before + more).values
  {
    hide TrackRun, Pow2;
    if more == [] {
      assert before + more == before;
    } else {
      var last := |more| - 1;
      ValuesArePrefix(bits, k, threads, before, more[..last]);
      OneMoreTracked(bits, k, threads, before + more[..last], more[last]);
      assert before + more[..last] + [more[last]] == before + more;
    }
  }

  lemma OneMoreValue(a: seq<char>, b: seq<char>, x: char)
    requires a <= b && multiset(b) == multiset(a) + multiset{x}
    ensures b == a + [x]
  {
    assert |multiset(a)| == |a| && |multiset(b)| == |b|;
    assert b == a + [b[|a|]];
    assert multiset{b[|a|]} == multiset(b) - multiset(a);
  }

  /** The values pushed in that run, in the order of their tickets. */
  lemma TakenValues()
    ensures TrackRun(0, 1, 2, TAKEN).values == ['A', 'B', 'C']
  {
    hide Run, TrackRun, Pow2, STALLED, FIRST, TAKEN, SECOND;
    FirstValues();
    LaterPushOvertakes();
    HistoryIsTrue(0, 1, 2, FIRST);
    HistoryIsTrue(0, 1, 2, TAKEN);
    TakenFollows();
    OneMoreValue(TrackRun(0, 1, 2, FIRST).values, TrackRun(0, 1, 2, TAKEN).values, 'C');
  }

  lemma TakenFollows()
    ensures TrackRun(0, 1, 2, FIRST).values <= TrackRun(0, 1, 2, TAKEN).values
  {
    hide Run, TrackRun, Pow2, Steps;
    ValuesArePrefix(0, 1, 2, FIRST, Steps(1, Push('C'), 5));
    ValuesArePrefix(0, 1, 2, SECOND, Steps(1, Pop, 5));
  }

  lemma FirstValues()
    ensures TrackRun(0, 1, 2, FIRST).values == ['A', 'B']
  {
    hide Run, TrackRun, Pow2, Steps;
    StalledPush();
    LaterPushOvertakes();
    HistoryIsTrue(0, 1, 2, STALLED);
    HistoryIsTrue(0, 1, 2, FIRST);
    ValuesArePrefix(0, 1, 2, STALLED, Steps(1, Push('B'), 5));
    OneMoreValue([], TrackRun(0, 1, 2, STALLED).values, 'A');
    OneMoreValue(['A'], TrackRun(0, 1, 2, FIRST).values, 'B');
  }

  lemma PopperOfSteps<T>(acts: seq<Action<T>>, t: Tid, call: Call<T>, n: nat, c: Tid)
    requires OnePopper(acts, c) && ((call.Pop? || call.TryPop?) ==> t == c)
    ensures OnePopper(acts + Steps(t, call, n), c)
  {
  }

  lemma TakenHasOnePopper()
    ensures OnePopper(TAKEN, 1)
  {
    hide OnePopper, Steps;
    assert OnePopper<char>([], 1) by { NobodyPops<char>(1); }
    PopperOfSteps([], 0, Push('A'), 2, 1);
    assert [] + Steps(0, Push('A'), 2) == STALLED;
    PopperOfSteps(STALLED, 1, Push('B'), 5, 1);
    PopperOfSteps(FIRST, 1, Push('C'), 5, 1);
    PopperOfSteps(SECOND, 1, Pop, 5, 1);
  }

  lemma NobodyPops<T>(c: Tid)
    ensures OnePopper<T>([], c)
  {
  }

  /** In that run one thread pops; its one pop returns C, which is not the value of its ticket, because the push
      of C won its slot out of turn. */
  lemma OvertakingIsOutOfTurn()
    ensures OnePopper(TAKEN, 1)
    ensures var h := TrackRun(0, 1, 2, TAKEN);
      |h.log| == 1 && h.log[0].out == Some('C') && h.log[0].source != h.log[0].ticket && !h.log[0].stored
  {
    hide Run, TrackRun, Pow2, OnePopper, STALLED, FIRST, TAKEN, SECOND, OrderInv, AllInTurn;
    var s, h := Run(0, 1, 2, TAKEN), TrackRun(0, 1, 2, TAKEN);
    TakenHasOnePopper();
    RunKeepsOrderInv(0, 1, 2, TAKEN);
    OneElementEach(0, 1, s, h);
    TakenValues();
    LaterPushOvertakes();
    HistoryIsTrue(0, 1, 2, TAKEN);
    OneThreadIsTimely(0, 1, 2, TAKEN, 1);
    TimelyRunsAreInTurn(0, 1, 2, TAKEN);
    OnlyOne(s, h);
    InOrderExactly(0, 1, 2, TAKEN);
  }

  lemma OnlyOne(s: State<char>, h: History<char>)
    requires OrderInv(0, 1, s, h) && AllInTurn(h.pop) && |h.log| == 1 && Outs(h.log) == multiset{'C'}
    requires h.values == ['A', 'B', 'C']
    ensures h.log[0].out == Some('C') && h.log[0].source != h.log[0].ticket
  {
    var e := h.log[0];
    EntryOf(0, 1, s, h, e);
    var d := EarlierEntry(0, 1, s, h, e, 0);
    AllPcs(1, s, h);
    assert Pow2(1) == 2;
    assert TicketLine.Inv(h.pop);
    hide OrderInv, TicketLine.Inv, LaneOf, Done;
    OnlyOut(e);
    assert InTurnUpTo(h.pop, e.ticket % 2, |Won(h.pop, e.ticket % 2)|);
    RoundOf(h.pop, e.ticket % 2, 0);
  }

  lemma OnlyOut(e: Popped<char>)
    requires Outs([e]) == multiset{'C'}
    ensures e.out == Some('C')
  {
    assert [e][..0] == [];
    assert 'C' in Returned(e.out);
  }
}
