/** The blocking wrapper of src/util/blockingconcurrentqueue.h: a queue of several producers composed
    with the semaphore that counts its elements.

    A thread that runs a semaphore operation makes the semaphore's own atomic steps.  The inner queue
    is one sequence per producer.  An inner enqueue is one step, and it may fail without effect; an
    inner dequeue takes some elements from the front of some producers' sequences, one producer a
    step, and it may also find nothing although there is something. */
module BlockingQueue {
  import opened Sums
  import opened Wrappers
  import Sema = LightweightSemaphore

  type Tid = nat

  datatype Call<T> =
    | EnqueueBulk(p: nat, items: seq<T>)               // 123-186; a single enqueue has one item
    | TryDequeueBulk(max: nat)                         // 294-335
    | WaitDequeueBulk(max: nat, tmo: Sema.Timeout)     // 377-386, 447-473
    | WaitDequeue                                      // 359-367

  datatype Pc =
    | Idle
    | Deliver(count: nat)                        // the items are in, signal comes next (126, 182)
    | Signalling                                 // inside signal
    | Asking                                     // wait_dequeue asks again (361-363)
    | Awaiting(retry: bool)                      // inside tryWaitMany or waitMany
    | Taking(left: nat)                          // the loop that dequeues what it has permits for

  /** `sent[p]` and `got[p]` are all that was ever put into and taken out of producer p's queue. */
  datatype State<T> = State(
    sema: Sema.State,
    queues: seq<seq<T>>,
    sent: seq<seq<T>>,
    got: seq<seq<T>>,
    pc: seq<Pc>)

  /** `ok` is false where the environment makes the step fail; `p` and `k` say where a dequeue finds
      how many elements. */
  datatype Action<T> = Action(t: Tid, call: Call<T>, ok: bool, p: nat, k: nat)

  function Init<T>(producers: nat, spins: nat, threads: nat): State<T> {
    var none := seq(producers, _ => []);
    State(Sema.Init(0, spins, threads), none, none, none, seq(threads, _ => Idle))
  }

  function SemaCall<T>(call: Call<T>): Sema.Call {
    match call
    case EnqueueBulk(_, items) => Sema.Signal(|items|)
    case TryDequeueBulk(max) => Sema.TryWaitMany(max)
    case WaitDequeueBulk(max, tmo) => Sema.WaitMany(max, tmo)
    case WaitDequeue => Sema.WaitMany(1, Sema.Forever)
  }

  predicate Wf<T>(s: State<T>) {
    |s.pc| == |s.sema.pc| && |s.sent| == |s.got| == |s.queues|
  }

  /** The semaphore operation a thread starts, if its semaphore thread is idle. */
  function CallOf<T>(pc: Pc, call: Call<T>): Sema.Call {
    match pc
    case Idle => SemaCall(call)
    case Deliver(count) => Sema.Signal(count)
    case _ => Sema.WaitMany(1, Sema.Forever)
  }

  /** The thread makes a step inside the semaphore and continues at `pc`. */
  function InSema<T>(s: State<T>, a: Action<T>, pc: Pc): State<T>
    requires a.t < |s.pc|
  {
    s.(sema := Sema.Step(s.sema, SemaAction(s, a)), pc := s.pc[a.t := pc])
  }

  function SemaAction<T>(s: State<T>, a: Action<T>): Sema.Action
    requires a.t < |s.pc|
  {
    Sema.Action(a.t, CallOf(s.pc[a.t], a.call), a.ok)
  }

  /** Where a thread inside a wait goes when its semaphore thread is at `sp`. */
  function AfterWait(sp: Sema.Pc, retry: bool): Pc {
    if !sp.Return? then Awaiting(retry)
    else if sp.result > 0 then Taking(sp.result)
    else if retry then Asking else Idle
  }

  function AfterSignal(sp: Sema.Pc): Pc {
    if sp.Idle? then Idle else Signalling
  }

  function Step<T>(s: State<T>, a: Action<T>): State<T>
    requires Wf(s)
  {
    var t := a.t;
    if t >= |s.pc| then s else
    match s.pc[t]
    case Idle =>
      if a.call.EnqueueBulk? then
        if a.ok && a.call.p < |s.queues| then
          s.(queues := s.queues[a.call.p := s.queues[a.call.p] + a.call.items],
             sent := s.sent[a.call.p := s.sent[a.call.p] + a.call.items],
             pc := s.pc[t := Deliver(|a.call.items|)])
        else s
      else InSema(s, a, Awaiting(a.call.WaitDequeue?))
    case Deliver(count) => InSema(s, a, Signalling)
    case Signalling =>
      InSema(s, a, AfterSignal(Sema.Move(s.sema, s.sema.pc[t], CallOf(s.pc[t], a.call), a.ok)))
    case Asking => InSema(s, a, Awaiting(true))
    case Awaiting(retry) => InSema(s, a, AfterWait(s.sema.pc[t], retry))
    case Taking(left) =>
      if a.ok && a.p < |s.queues| && 1 <= a.k <= |s.queues[a.p]| && a.k <= left then
        s.(queues := s.queues[a.p := s.queues[a.p][a.k..]],
           got := s.got[a.p := s.got[a.p] + s.queues[a.p][..a.k]],
           pc := s.pc[t := if left == a.k then Idle else Taking(left - a.k)])
      else s
  }

  lemma StepWf<T>(s: State<T>, a: Action<T>)
    requires Wf(s)
    ensures Wf(Step(s, a)) && |Step(s, a).pc| == |s.pc| && |Step(s, a).queues| == |s.queues|
  {
  }

  function Run<T>(producers: nat, spins: nat, threads: nat, acts: seq<Action<T>>): (s: State<T>)
    ensures Wf(s) && |s.pc| == threads && |s.queues| == producers
  {
    if acts == [] then Init(producers, spins, threads)
    else
      var before := Run(producers, spins, threads, acts[..|acts| - 1]);
      StepWf(before, acts[|acts| - 1]);
      Step(before, acts[|acts| - 1])
  }

  // ---------------------------------------------------------------- the invariant

  function Size<T>(xs: seq<T>): nat {
    |xs|
  }

  function Delivering(pc: Pc): nat {
    if pc.Deliver? then pc.count else 0
  }

  function Owed(pc: Pc): nat {
    if pc.Taking? then pc.left else 0
  }

  function Adding(sp: Sema.Pc): nat {
    if sp.Add? then sp.count else 0
  }

  /** A thread is inside the semaphore exactly when its queue operation is. */
  predicate ThreadOk<T>(s: State<T>, t: Tid)
    requires Wf(s) && t < |s.pc|
  {
    var sp := s.sema.pc[t];
    match s.pc[t]
    case Signalling => sp.Add? || sp.Post?
    case Awaiting(_) => !sp.Idle? && !sp.Add? && !sp.Post?
    case _ => sp.Idle?
  }

  ghost predicate Fifo<T>(s: State<T>)
    requires Wf(s)
  {
    forall p :: 0 <= p < |s.queues| ==> s.sent[p] == s.got[p] + s.queues[p]
  }

  /** Elements sent have been signalled or are about to be; permits handed out have been turned into
      elements or are about to be. */
  predicate Matched<T>(s: State<T>) {
    && Sum(s.sent, Size) == s.sema.signalled + Sum(s.pc, Delivering) + Sum(s.sema.pc, Adding)
    && s.sema.handed == Sum(s.got, Size) + Sum(s.pc, Owed)
  }

  ghost predicate Inv<T>(s: State<T>) {
    && Wf(s)
    && s.sema.initial == 0
    && Sema.Inv(s.sema)
    && Fifo(s)
    && Matched(s)
    && forall t :: 0 <= t < |s.pc| ==> ThreadOk(s, t)
  }

  lemma FifoKept<T>(s: State<T>, a: Action<T>)
    requires Wf(s) && Fifo(s)
    ensures Fifo(Step(s, a))
  {
  }

  predicate IsQueueStep<T>(pc: Pc, call: Call<T>) {
    (pc.Idle? && call.EnqueueBulk?) || pc.Taking?
  }

  /** Steps inside the semaphore. */
  lemma SemaStepMatched<T>(s: State<T>, a: Action<T>)
    requires Wf(s) && Matched(s) && a.t < |s.pc| && ThreadOk(s, a.t) && !IsQueueStep(s.pc[a.t], a.call)
    ensures Matched(Step(s, a))
  {
    var s' := Step(s, a);
    Sema.ObservedTotals(s.sema, SemaAction(s, a));
    SumUpdate(s.pc, a.t, s'.pc[a.t], Delivering);
    SumUpdate(s.pc, a.t, s'.pc[a.t], Owed);
    SumUpdate(s.sema.pc, a.t, s'.sema.pc[a.t], Adding);
  }

  lemma QueueStepMatched<T>(s: State<T>, a: Action<T>)
    requires Wf(s) && Matched(s) && a.t < |s.pc| && ThreadOk(s, a.t)
    requires IsQueueStep(s.pc[a.t], a.call)
    ensures Matched(Step(s, a))
  {
    var s' := Step(s, a);
    SumUpdate(s.pc, a.t, s'.pc[a.t], Delivering);
    SumUpdate(s.pc, a.t, s'.pc[a.t], Owed);
    if s.pc[a.t].Idle? {
      if a.call.p < |s.queues| {
        SumUpdate(s.sent, a.call.p, s'.sent[a.call.p], Size);
      }
    } else if a.p < |s.queues| {
      SumUpdate(s.got, a.p, s'.got[a.p], Size);
    }
  }

  lemma ThreadsKept<T>(s: State<T>, a: Action<T>, u: Tid)
    requires Wf(s) && a.t < |s.pc| && u < |s.pc| && ThreadOk(s, a.t) && ThreadOk(s, u)
    requires Wf(Step(s, a))
    ensures ThreadOk(Step(s, a), u)
  {
    if u == a.t {
      OwnThreadKept(s, a);
    } else {
      hide Sema.Move;
    }
  }

  lemma OwnThreadKept<T>(s: State<T>, a: Action<T>)
    requires Wf(s) && a.t < |s.pc| && ThreadOk(s, a.t)
    requires Wf(Step(s, a))
    ensures ThreadOk(Step(s, a), a.t)
  {
    hide Sema.Effect, Sema.Posts, Sema.Left;
  }

  lemma SemaKept<T>(s: State<T>, a: Action<T>)
    requires Wf(s) && Sema.Inv(s.sema) && s.sema.initial == 0
    ensures Sema.Inv(Step(s, a).sema) && Step(s, a).sema.initial == 0
  {
    hide Sema.Inv, Sema.Accounts, SemaAction;
    if a.t < |s.pc| {
      Sema.StepKeepsInv(s.sema, SemaAction(s, a));
    }
  }

  lemma StepKeepsInv<T>(s: State<T>, a: Action<T>)
    requires Inv(s)
    ensures Inv(Step(s, a))
  {
    StepWf(s, a);
    FifoKept(s, a);
    SemaKept(s, a);
    if a.t < |s.pc| {
      assert ThreadOk(s, a.t);
      if IsQueueStep(s.pc[a.t], a.call) {
        QueueStepMatched(s, a);
      } else {
        SemaStepMatched(s, a);
      }
      forall u | 0 <= u < |s.pc| ensures ThreadOk(Step(s, a), u) {
        ThreadsKept(s, a, u);
      }
    }
  }

  // ---------------------------------------------------------------- every run

  lemma {:induction false} RunKeepsInv<T>(producers: nat, spins: nat, threads: nat, acts: seq<Action<T>>)
    requires Sema.FewThreads(threads)
    ensures Inv(Run(producers, spins, threads, acts))
  {
    if acts == [] {
      var s := Init<T>(producers, spins, threads);
      Sema.RunKeepsInv(0, spins, threads, []);
      SumOfZeros(s.pc, Delivering);
      SumOfZeros(s.pc, Owed);
      SumOfZeros(s.sema.pc, Adding);
      SumOfZeros(s.sent, Size);
      SumOfZeros(s.got, Size);
    } else {
      RunKeepsInv(producers, spins, threads, acts[..|acts| - 1]);
      StepKeepsInv(Run(producers, spins, threads, acts[..|acts| - 1]), acts[|acts| - 1]);
    }
  }

  lemma {:induction false} SizesAdd<T>(a: seq<seq<T>>, b: seq<seq<T>>, c: seq<seq<T>>)
    requires |a| == |b| == |c| && forall p :: 0 <= p < |a| ==> a[p] == b[p] + c[p]
    ensures Sum(a, Size) == Sum(b, Size) + Sum(c, Size)
  {
    if a != [] {
      SizesAdd(a[1..], b[1..], c[1..]);
    }
  }

  /** Exactly how many elements the inner queue holds: one for each permit in the count, in the kernel
      semaphore, in a thread's hands, or still to be signalled. */
  lemma ElementsMatchPermits<T>(producers: nat, spins: nat, threads: nat, acts: seq<Action<T>>)
    requires Sema.FewThreads(threads)
    ensures var s := Run(producers, spins, threads, acts);
      Sum(s.queues, Size)
        == Sum(s.pc, Delivering) + Sum(s.sema.pc, Adding)
         + Sema.Positive(s.sema.count) + s.sema.kernel + Sum(s.sema.pc, Sema.Posting)
         + Sum(s.sema.pc, Sema.Holding) + Sum(s.pc, Owed)
  {
    RunKeepsInv(producers, spins, threads, acts);
    var s := Run(producers, spins, threads, acts);
    SizesAdd(s.sent, s.got, s.queues);
  }

  /** The loops after a successful wait (297, 331, 364, 382, 451, 469) never face an empty queue: the
      elements left are at least those all threads together still have permits for. */
  lemma SpinsNeverFaceEmptyQueue<T>(producers: nat, spins: nat, threads: nat, acts: seq<Action<T>>, t: Tid)
    requires Sema.FewThreads(threads) && t < threads
    requires var pc := Run(producers, spins, threads, acts).pc[t]; pc.Taking? && pc.left > 0
    ensures var s := Run(producers, spins, threads, acts);
      && Sum(s.queues, Size) >= Sum(s.pc, Owed) >= s.pc[t].left
      && exists p :: 0 <= p < producers && s.queues[p] != []
  {
    ElementsMatchPermits(producers, spins, threads, acts);
    var s := Run(producers, spins, threads, acts);
    SumUpdate(s.pc, t, s.pc[t], Owed);
    SomeTerm(s.queues, Size);
    var p :| 0 <= p < |s.queues| && Size(s.queues[p]) > 0;
    assert s.queues[p] != [];
  }

  /** Nothing is lost, duplicated or reordered within a producer, and when every operation has returned
      the count is exactly the number of elements. */
  lemma ElementsAreConserved<T>(producers: nat, spins: nat, threads: nat, acts: seq<Action<T>>)
    requires Sema.FewThreads(threads)
    ensures var s := Run(producers, spins, threads, acts);
      && (forall p :: 0 <= p < producers ==> s.sent[p] == s.got[p] + s.queues[p])
      && ((forall t :: 0 <= t < threads ==> s.pc[t] == Idle) ==> s.sema.count == Sum(s.queues, Size))
  {
    RunKeepsInv(producers, spins, threads, acts);
    ElementsMatchPermits(producers, spins, threads, acts);
    var s := Run(producers, spins, threads, acts);
    if forall t :: 0 <= t < threads ==> s.pc[t] == Idle {
      forall t | 0 <= t < threads ensures s.sema.pc[t] == Sema.Idle {
        assert ThreadOk(s, t);
      }
      SumOfZeros(s.pc, Delivering);
      SumOfZeros(s.pc, Owed);
      SumOfZeros(s.sema.pc, Adding);
      SumOfZeros(s.sema.pc, Sema.Posting);
      SumOfZeros(s.sema.pc, Sema.Holding);
      SumOfZeros(s.sema.pc, Sema.Waiting);
    }
  }

  // ---------------------------------------------------------------- what a call does

  /** A thread's last call, the record of its semaphore operation, and the elements that the call has put
      into and taken out of the inner queue, read off the queues before and after each step. */
  datatype Record<T> = Record(call: Option<Call<T>>, sema: Sema.Record, put: seq<T>, taken: seq<T>)

  function PutBy<T>(s: State<T>, s': State<T>, p: nat): seq<T>
    requires |s'.queues| == |s.queues|
  {
    if p < |s.queues| && |s'.queues[p]| >= |s.queues[p]| then s'.queues[p][|s.queues[p]|..] else []
  }

  function TakenBy<T>(s: State<T>, s': State<T>, p: nat): seq<T>
    requires |s'.queues| == |s.queues|
  {
    if p < |s.queues| && |s'.queues[p]| <= |s.queues[p]| then s.queues[p][..|s.queues[p]| - |s'.queues[p]|] else []
  }

  function PutTo<T>(call: Call<T>): nat {
    if call.EnqueueBulk? then call.p else 0
  }

  /** What the record of thread `a.t` is after its step. */
  function Noted<T>(s: State<T>, a: Action<T>, r: Record<T>): Record<T>
    requires Wf(s) && a.t < |s.pc|
  {
    StepWf(s, a);
    var s' := Step(s, a);
    var r0 := if s.pc[a.t].Idle? then Record(Some(a.call), r.sema, [], []) else r;
    var sema := if IsQueueStep(s.pc[a.t], a.call) then r.sema
                else Sema.Noted(s.sema, s.sema.pc[a.t], SemaAction(s, a), r.sema);
    Record(r0.call, sema, r0.put + PutBy(s, s', PutTo(a.call)), r0.taken + TakenBy(s, s', a.p))
  }

  function Records<T>(producers: nat, spins: nat, threads: nat, acts: seq<Action<T>>): (rs: seq<Record<T>>)
    ensures |rs| == threads
  {
    if acts == [] then seq(threads, _ => Record(None, Sema.Record(None, None, false, false, 0), [], []))
    else
      var before, a := acts[..|acts| - 1], acts[|acts| - 1];
      var rs := Records(producers, spins, threads, before);
      if a.t >= threads then rs else rs[a.t := Noted(Run(producers, spins, threads, before), a, rs[a.t])]
  }

  /** What a call that has returned did.  `faults` counts the kernel waits that failed. */
  ghost predicate Fulfilled<T>(call: Call<T>, r: Record<T>, faults: nat) {
    match call
    case EnqueueBulk(_, items) => r.taken == [] && (r.put == items || r.put == [])
    case TryDequeueBulk(max) => r.put == [] && |r.taken| == Sema.Min(max, Sema.Available(r.sema.seen))
    case WaitDequeueBulk(max, tmo) =>
      && r.put == [] && |r.taken| <= max
      && (max > 0 && r.taken == [] ==> r.sema.gaveUp)
      && (max > 0 && tmo == Sema.Forever && faults == 0 ==> |r.taken| >= 1)
    case WaitDequeue => r.put == [] && |r.taken| == 1
  }

  /** The most elements a call may take. */
  function Most<T>(call: Call<T>): nat {
    match call
    case EnqueueBulk(_, _) => 0
    case TryDequeueBulk(max) => max
    case WaitDequeueBulk(max, _) => max
    case WaitDequeue => 1
  }

  /** The semaphore operation on record is the one that the call makes. */
  ghost predicate Asks<T>(r: Record<T>) {
    r.call.Some? && !r.call.value.EnqueueBulk? && r.put == [] && r.sema.call == Some(SemaCall(r.call.value))
  }

  ghost predicate RecordOk<T>(s: State<T>, t: Tid, r: Record<T>)
    requires Wf(s) && t < |s.pc|
  {
    match s.pc[t]
    case Idle => r.call.Some? ==> Fulfilled(r.call.value, r, s.sema.faults)
    case Deliver(_) => r.call.Some? && r.call.value.EnqueueBulk? && r.put == r.call.value.items && r.taken == []
    case Signalling => r.call.Some? && r.call.value.EnqueueBulk? && r.put == r.call.value.items && r.taken == []
    case Asking => r.call == Some(WaitDequeue) && r.put == [] && r.taken == []
    case Awaiting(retry) =>
      Asks(r) && r.taken == [] && retry == r.call.value.WaitDequeue? && Sema.RecordOk(s.sema.pc[t], r.sema)
    case Taking(left) =>
      && Asks(r) && left > 0 && |r.taken| + left == Sema.Result(Most(r.call.value), r.sema)
      && (r.call.value.TryDequeueBulk? ==> !r.sema.slow && !r.sema.gaveUp)
  }

  /** The step in which a call begins. */
  lemma BeginsOk<T>(s: State<T>, a: Action<T>, r: Record<T>)
    requires Wf(s) && a.t < |s.pc| && s.pc[a.t].Idle? && ThreadOk(s, a.t)
    ensures Wf(Step(s, a)) && RecordOk(Step(s, a), a.t, Noted(s, a, r))
  {
    hide Sema.Effect, Sema.Result;
    StepWf(s, a);
  }

  /** Steps inside `signal`. */
  lemma SignallingOk<T>(s: State<T>, a: Action<T>, r: Record<T>)
    requires Wf(s) && a.t < |s.pc| && (s.pc[a.t].Deliver? || s.pc[a.t].Signalling?) && RecordOk(s, a.t, r)
    ensures Wf(Step(s, a)) && RecordOk(Step(s, a), a.t, Noted(s, a, r))
  {
    hide Sema.Effect, Sema.Move, Sema.Noted;
    StepWf(s, a);
  }

  /** Steps inside a wait. */
  lemma AskingOk<T>(s: State<T>, a: Action<T>, r: Record<T>)
    requires Wf(s) && a.t < |s.pc| && s.pc[a.t].Asking? && ThreadOk(s, a.t) && RecordOk(s, a.t, r)
    ensures Wf(Step(s, a)) && RecordOk(Step(s, a), a.t, Noted(s, a, r))
  {
    hide Sema.Effect, Sema.Result;
    StepWf(s, a);
  }

  lemma AwaitingOk<T>(s: State<T>, a: Action<T>, r: Record<T>)
    requires Wf(s) && a.t < |s.pc| && s.pc[a.t].Awaiting? && ThreadOk(s, a.t) && RecordOk(s, a.t, r)
    requires Sema.ThreadOk(s.sema, a.t)
    ensures Wf(Step(s, a)) && RecordOk(Step(s, a), a.t, Noted(s, a, r))
  {
    StepWf(s, a);
    Sema.RecordKept(s.sema, s.sema.pc[a.t], SemaAction(s, a), r.sema);
    if s.sema.pc[a.t].Return? {
      hide Sema.Move;
    } else {
      hide Sema.RecordOk, Sema.Move, Sema.Effect;
    }
  }

  lemma TakingOk<T>(s: State<T>, a: Action<T>, r: Record<T>)
    requires Wf(s) && a.t < |s.pc| && s.pc[a.t].Taking? && ThreadOk(s, a.t) && RecordOk(s, a.t, r)
    ensures Wf(Step(s, a)) && RecordOk(Step(s, a), a.t, Noted(s, a, r))
  {
    StepWf(s, a);
  }

  /** A step of another thread. */
  lemma OthersOk<T>(s: State<T>, a: Action<T>, t: Tid, r: Record<T>)
    requires Wf(s) && a.t < |s.pc| && t < |s.pc| && t != a.t && RecordOk(s, t, r)
    ensures Wf(Step(s, a)) && RecordOk(Step(s, a), t, r)
  {
    hide Sema.RecordOk, Sema.Move, Sema.Result;
    StepWf(s, a);
    if !IsQueueStep(s.pc[a.t], a.call) {
      assert Sema.Step(s.sema, SemaAction(s, a)).faults >= s.sema.faults;
    }
  }

  lemma OwnOk<T>(s: State<T>, a: Action<T>, r: Record<T>)
    requires Wf(s) && a.t < |s.pc| && ThreadOk(s, a.t) && Sema.ThreadOk(s.sema, a.t) && RecordOk(s, a.t, r)
    ensures Wf(Step(s, a)) && RecordOk(Step(s, a), a.t, Noted(s, a, r))
  {
    hide RecordOk, Step, Noted, ThreadOk, Sema.ThreadOk;
    match s.pc[a.t]
    case Idle => BeginsOk(s, a, r);
    case Deliver(_) => SignallingOk(s, a, r);
    case Signalling => SignallingOk(s, a, r);
    case Asking => AskingOk(s, a, r);
    case Awaiting(_) => AwaitingOk(s, a, r);
    case Taking(_) => TakingOk(s, a, r);
  }

  lemma {:induction false} RecordsKept<T>(producers: nat, spins: nat, threads: nat, acts: seq<Action<T>>, t: Tid)
    requires Sema.FewThreads(threads) && t < threads
    ensures RecordOk(Run(producers, spins, threads, acts), t, Records(producers, spins, threads, acts)[t])
  {
    if acts != [] {
      hide RecordOk, Step, Noted, ThreadOk, Sema.ThreadOk, Sema.Accounts, Matched, Fifo;
      var before, a := acts[..|acts| - 1], acts[|acts| - 1];
      var s := Run(producers, spins, threads, before);
      RecordsKept(producers, spins, threads, before, t);
      RunKeepsInv(producers, spins, threads, before);
      if a.t == t {
        assert ThreadOk(s, t) && Sema.ThreadOk(s.sema, t);
        OwnOk(s, a, Records(producers, spins, threads, before)[t]);
      } else if a.t < threads {
        OthersOk(s, a, t, Records(producers, spins, threads, before)[t]);
      } else {
        OutOfRange(s, a);
      }
    }
  }

  lemma OutOfRange<T>(s: State<T>, a: Action<T>)
    requires Wf(s) && a.t >= |s.pc|
    ensures Step(s, a) == s
  {
  }

  /** In every interleaving, when a thread's call has returned: an enqueue put in all its items or none and
      took nothing out; `wait_dequeue` took exactly one element; `try_dequeue_bulk` took as many as it last
      saw permits for, up to its max; a bulk wait took at most its max, none only if its kernel wait ended
      without a permit, and at least one if it waits without timeout and no kernel wait failed. */
  lemma CallsAreFulfilled<T>(producers: nat, spins: nat, threads: nat, acts: seq<Action<T>>, t: Tid)
    requires Sema.FewThreads(threads) && t < threads && Run(producers, spins, threads, acts).pc[t] == Idle
    requires Records(producers, spins, threads, acts)[t].call.Some?
    ensures var s, r := Run(producers, spins, threads, acts), Records(producers, spins, threads, acts)[t];
      Fulfilled(r.call.value, r, s.sema.faults)
  {
    RecordsKept(producers, spins, threads, acts, t);
  }

  /** A wait for this many and this long is the one that the call asks for. */
  predicate AsAsked<T>(call: Call<T>, max: nat, tmo: Sema.Timeout) {
    match call
    case WaitDequeueBulk(m, t) => max == m && tmo == t
    case WaitDequeue => max == 1 && tmo == Sema.Forever
    case _ => false
  }

  predicate Committed(sp: Sema.Pc) {
    sp.Take? || sp.KernelWait? || sp.CancelLoad? || sp.CancelTry? || sp.CancelCas?
  }

  lemma RecordAsks<T>(s: State<T>, t: Tid, r: Record<T>)
    requires Wf(s) && t < |s.pc| && s.pc[t].Awaiting? && Committed(s.sema.pc[t]) && RecordOk(s, t, r)
    ensures r.call.Some? && AsAsked(r.call.value, s.sema.pc[t].max, s.sema.pc[t].tmo)
  {
    hide Sema.Result;
  }

  /** The slow wait of a call is for as many and for as long as the call asks: `try_dequeue_bulk` has none,
      `wait_dequeue` waits for one for any time, and a bulk wait for the time it was given. */
  lemma WaitsAsAsked<T>(producers: nat, spins: nat, threads: nat, acts: seq<Action<T>>, t: Tid)
    requires Sema.FewThreads(threads) && t < threads
    requires var s := Run(producers, spins, threads, acts); s.pc[t].Awaiting? && Committed(s.sema.pc[t])
    ensures var sp, r := Run(producers, spins, threads, acts).sema.pc[t], Records(producers, spins, threads, acts)[t];
      r.call.Some? && AsAsked(r.call.value, sp.max, sp.tmo)
  {
    hide Run, Records, RecordOk, AsAsked;
    RecordsKept(producers, spins, threads, acts, t);
    RecordAsks(Run(producers, spins, threads, acts), t, Records(producers, spins, threads, acts)[t]);
  }

  // ---------------------------------------------------------------- one thread alone

  /** n steps with the same action, while all other threads stand still. */
  function Alone<T>(s: State<T>, a: Action<T>, n: nat): (s': State<T>)
    requires Wf(s)
    ensures Wf(s') && |s'.pc| == |s.pc| && |s'.queues| == |s.queues|
  {
    if n == 0 then s
    else
      StepWf(Alone(s, a, n - 1), a);
      Step(Alone(s, a, n - 1), a)
  }

  function Steps<T>(a: Action<T>, n: nat): seq<Action<T>> {
    seq(n, _ => a)
  }

  lemma AloneOneMore<T>(s: State<T>, a: Action<T>, n: nat)
    requires Wf(s)
    ensures Alone(s, a, 0) == s && Alone(s, a, n + 1) == Step(Alone(s, a, n), a)
  {
  }

  lemma {:induction false} AloneIsRun<T>(producers: nat, spins: nat, threads: nat, acts: seq<Action<T>>,
                                         a: Action<T>, n: nat)
    ensures Run(producers, spins, threads, acts + Steps(a, n)) == Alone(Run(producers, spins, threads, acts), a, n)
  {
    hide Step;
    if n == 0 {
      assert acts + Steps(a, 0) == acts;
    } else {
      AloneIsRun(producers, spins, threads, acts, a, n - 1);
      var all := acts + Steps(a, n);
      assert all[..|all| - 1] == acts + Steps(a, n - 1);
    }
  }

  lemma {:induction false} AloneAdds<T>(s: State<T>, a: Action<T>, m: nat, n: nat)
    requires Wf(s)
    ensures Alone(Alone(s, a, m), a, n) == Alone(s, a, m + n)
  {
    hide Alone, Step;
    AloneOneMore(s, a, m);
    AloneOneMore(Alone(s, a, m), a, n);
    if n > 0 {
      AloneOneMore(s, a, m + n - 1);
      AloneOneMore(Alone(s, a, m), a, n - 1);
      AloneAdds(s, a, m, n - 1);
    }
  }

  lemma TwoSteps<T>(s: State<T>, a: Action<T>)
    requires Wf(s)
    ensures Wf(Step(s, a)) && Alone(s, a, 1) == Step(s, a) && Alone(s, a, 2) == Step(Step(s, a), a)
  {
    hide Alone, Step;
    AloneOneMore(s, a, 0);
    AloneOneMore(s, a, 1);
  }

  /** Thread `t` is in its wait for up to `max`, and its semaphore thread is at `sp`. */
  function InWait<T>(s: State<T>, t: Tid, retry: bool, sp: Sema.Pc): State<T>
    requires Wf(s) && t < |s.pc|
  {
    s.(pc := s.pc[t := Awaiting(retry)], sema := s.sema.(pc := s.sema.pc[t := sp]))
  }

  /** The semaphore after thread `t` took and returned `n` permits from the count. */
  function Handed(sema: Sema.State, n: nat): Sema.State {
    sema.(count := sema.count - n, acquired := sema.acquired + n, handed := sema.handed + n)
  }

  /** How the semaphore goes on after `tryWaitMany`. */
  function Then<T>(call: Call<T>): Sema.After
    requires !call.EnqueueBulk?
  {
    match call
    case TryDequeueBulk(_) => Sema.Give
    case WaitDequeueBulk(_, tmo) => Sema.Wait(tmo)
    case WaitDequeue => Sema.Wait(Sema.Forever)
  }

  /** The thread calls, or its `wait_dequeue` asks again. */
  predicate AboutToAsk<T>(pc: Pc, call: Call<T>) {
    !call.EnqueueBulk? && (pc.Idle? || (pc.Asking? && call.WaitDequeue?))
  }

  lemma AskAlone<T>(s: State<T>, a: Action<T>)
    requires Wf(s) && a.t < |s.pc| && AboutToAsk(s.pc[a.t], a.call) && s.sema.pc[a.t] == Sema.Idle && a.ok
    requires s.sema.count > 0
    ensures Alone(s, a, 2)
      == InWait(s, a.t, a.call.WaitDequeue?, Sema.TryCas(s.sema.count, Most(a.call), Then(a.call)))
  {
    hide Alone;
    TwoSteps(s, a);
    assert Step(s, a) == InWait(s, a.t, a.call.WaitDequeue?, Sema.TryLoad(Most(a.call), Then(a.call)));
  }

  lemma PermitAlone<T>(s: State<T>, a: Action<T>, s0: State<T>)
    requires Wf(s0) && a.t < |s0.pc| && AboutToAsk(s0.pc[a.t], a.call) && s0.sema.pc[a.t] == Sema.Idle && a.ok
    requires Most(a.call) > 0 && s0.sema.count > 0
    requires s == InWait(s0, a.t, a.call.WaitDequeue?, Sema.TryCas(s0.sema.count, Most(a.call), Then(a.call)))
    ensures var n := Sema.Takes(s0.sema, Most(a.call));
      Alone(s, a, 2) == s0.(pc := s0.pc[a.t := Taking(n)], sema := Handed(s0.sema, n))
  {
    hide Alone;
    TwoSteps(s, a);
    var n := Sema.Takes(s0.sema, Most(a.call));
    var s1 := Step(s, a);
    assert s1.sema.pc[a.t].Return? && s1.sema.pc[a.t].result == n;
    assert Step(s1, a).sema.pc == s0.sema.pc;
  }

  lemma ElementAlone<T>(s: State<T>, a: Action<T>)
    requires Wf(s) && a.t < |s.pc| && a.ok && s.pc[a.t] == Taking(a.k)
    requires a.p < |s.queues| && 1 <= a.k <= |s.queues[a.p]|
    ensures Alone(s, a, 1)
      == s.(queues := s.queues[a.p := s.queues[a.p][a.k..]],
            got := s.got[a.p := s.got[a.p] + s.queues[a.p][..a.k]],
            pc := s.pc[a.t := Idle])
  {
    hide Alone;
    AloneOneMore(s, a, 0);
  }

  /** From any state of any run: a dequeue that runs alone while permits are there, and finds enough elements
      in one producer's queue, takes as many as there are permits, up to its max, from the front of it. */
  lemma SoloDequeueTakes<T>(producers: nat, spins: nat, threads: nat, acts: seq<Action<T>>, a: Action<T>)
    requires Sema.FewThreads(threads) && a.t < threads && a.ok && a.p < producers
    requires Most(a.call) > 0
    requires var s := Run(producers, spins, threads, acts);
      && AboutToAsk(s.pc[a.t], a.call) && s.sema.count > 0
      && a.k == Sema.Min(Most(a.call), s.sema.count) <= |s.queues[a.p]|
    ensures var s, s' := Run(producers, spins, threads, acts), Run(producers, spins, threads, acts + Steps(a, 5));
      && s'.pc == s.pc[a.t := Idle] && s'.sema.count == s.sema.count - a.k
      && s'.queues == s.queues[a.p := s.queues[a.p][a.k..]]
      && s'.got == s.got[a.p := s.got[a.p] + s.queues[a.p][..a.k]]
  {
    hide Alone, Step, Run, InWait, Sema.Inv, Sema.ThreadOk, Matched, Fifo;
    var s := Run(producers, spins, threads, acts);
    RunKeepsInv(producers, spins, threads, acts);
    assert ThreadOk(s, a.t);
    assert Sema.Takes(s.sema, Most(a.call)) == a.k;
    AskAlone(s, a);
    PermitAlone(Alone(s, a, 2), a, s);
    ElementAlone(Alone(Alone(s, a, 2), a, 2), a);
    AloneAdds(s, a, 2, 2);
    AloneAdds(s, a, 4, 1);
    AloneIsRun(producers, spins, threads, acts, a, 5);
    assert s.pc[a.t := Taking(a.k)][a.t := Idle] == s.pc[a.t := Idle];
  }

  lemma {:induction false} PostAlone<T>(s: State<T>, a: Action<T>, n: nat)
    requires Wf(s) && a.t < |s.pc| && s.pc[a.t] == Signalling && n > 0 && s.sema.pc[a.t] == Sema.Post(n)
    ensures Alone(s, a, n)
      == s.(pc := s.pc[a.t := Idle],
            sema := s.sema.(kernel := s.sema.kernel + n, pc := s.sema.pc[a.t := Sema.Idle]))
    decreases n
  {
    hide Alone;
    AloneOneMore(s, a, 0);
    if n > 1 {
      var s1 := Alone(s, a, 1);
      PostAlone(s1, a, n - 1);
      AloneAdds(s, a, 1, n - 1);
      assert s1.sema.pc[a.t := Sema.Idle] == s.sema.pc[a.t := Sema.Idle];
    }
  }

  lemma DeliverAlone<T>(s: State<T>, a: Action<T>, count: nat)
    requires Wf(s) && a.t < |s.pc| && s.pc[a.t] == Deliver(count) && s.sema.pc[a.t] == Sema.Idle
    ensures Alone(s, a, 1)
      == s.(pc := s.pc[a.t := Signalling], sema := s.sema.(pc := s.sema.pc[a.t := Sema.Add(count)]))
  {
    hide Alone;
    AloneOneMore(s, a, 0);
  }

  lemma AddAlone<T>(s: State<T>, a: Action<T>, count: nat)
    requires Wf(s) && a.t < |s.pc| && s.pc[a.t] == Signalling && s.sema.pc[a.t] == Sema.Add(count)
    requires Sema.Positive(-s.sema.count) < 0x8000_0000
    ensures var posts := Sema.Met(s.sema, count);
      Alone(s, a, 1)
        == s.(pc := s.pc[a.t := if posts > 0 then Signalling else Idle],
              sema := s.sema.(count := s.sema.count + count, signalled := s.sema.signalled + count,
                              pc := s.sema.pc[a.t := if posts > 0 then Sema.Post(posts) else Sema.Idle]))
  {
    hide Alone;
    AloneOneMore(s, a, 0);
    assert Sema.Posts(Sema.ToRelease(s.sema.count, count)) == Sema.Met(s.sema, count);
  }

  /** The semaphore after a signal of `count` permits. */
  function Raised(sema: Sema.State, count: nat): Sema.State {
    sema.(count := sema.count + count, signalled := sema.signalled + count,
          kernel := sema.kernel + Sema.Met(sema, count))
  }

  lemma SignalAlone<T>(s: State<T>, a: Action<T>, count: nat)
    requires Wf(s) && a.t < |s.pc| && s.pc[a.t] == Deliver(count) && s.sema.pc[a.t] == Sema.Idle
    requires Sema.Positive(-s.sema.count) < 0x8000_0000
    ensures Alone(s, a, 2 + Sema.Met(s.sema, count)) == s.(pc := s.pc[a.t := Idle], sema := Raised(s.sema, count))
  {
    hide Alone, Step, Sema.Met, Sema.Positive;
    var posts := Sema.Met(s.sema, count);
    DeliverAlone(s, a, count);
    var s1 := Alone(s, a, 1);
    SameMet(s.sema, s1.sema, count);
    AddAlone(s1, a, count);
    var s2 := Alone(s1, a, 1);
    AloneAdds(s, a, 1, 1);
    if posts > 0 {
      PostAlone(s2, a, posts);
      AloneAdds(s, a, 2, posts);
    }
    assert s2.sema.pc[a.t := Sema.Idle] == s.sema.pc;
    assert s2.pc[a.t := Idle] == s.pc[a.t := Idle];
  }

  lemma SameMet(sema: Sema.State, sema': Sema.State, count: nat)
    requires sema.count == sema'.count
    ensures Sema.Met(sema, count) == Sema.Met(sema', count)
  {
  }

  lemma PutAlone<T>(s: State<T>, a: Action<T>)
    requires Wf(s) && a.t < |s.pc| && s.pc[a.t] == Idle && a.ok && a.call.EnqueueBulk? && a.call.p < |s.queues|
    ensures var p, items := a.call.p, a.call.items;
      Alone(s, a, 1)
        == s.(queues := s.queues[p := s.queues[p] + items], sent := s.sent[p := s.sent[p] + items],
              pc := s.pc[a.t := Deliver(|items|)])
  {
    hide Alone;
    AloneOneMore(s, a, 0);
  }

  /** From any state of any run: an enqueue that has memory and runs alone puts its items at the end of its
      producer's queue and returns with a permit for each, those that waiting threads lack in the kernel. */
  lemma SoloEnqueuePuts<T>(producers: nat, spins: nat, threads: nat, acts: seq<Action<T>>, a: Action<T>)
    requires Sema.FewThreads(threads) && a.t < threads && a.ok && a.call.EnqueueBulk? && a.call.p < producers
    requires Run(producers, spins, threads, acts).pc[a.t] == Idle
    ensures var s, p, items := Run(producers, spins, threads, acts), a.call.p, a.call.items;
      var posts := Sema.Min(|items|, Sema.Positive(-s.sema.count));
      var s' := Run(producers, spins, threads, acts + Steps(a, 3 + posts));
      && s'.pc == s.pc && s'.queues == s.queues[p := s.queues[p] + items]
      && s'.sema.count == s.sema.count + |items| && s'.sema.kernel == s.sema.kernel + posts
  {
    hide Alone, Step, Run, Sema.Inv, Sema.ThreadOk, Matched, Fifo, Sema.Met, Sema.Positive, Sema.Min;
    var s, count := Run(producers, spins, threads, acts), |a.call.items|;
    RunKeepsInv(producers, spins, threads, acts);
    assert ThreadOk(s, a.t);
    Sema.DebtBound(s.sema);
    Sema.MetIs(s.sema, count);
    PutAlone(s, a);
    var s1 := Alone(s, a, 1);
    SignalAlone(s1, a, count);
    AloneAdds(s, a, 1, 2 + Sema.Met(s.sema, count));
    AloneIsRun(producers, spins, threads, acts, a, 3 + Sema.Met(s.sema, count));
    assert s1.pc[a.t := Idle] == s.pc;
  }
}
