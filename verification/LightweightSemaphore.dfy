/** The semaphore of src/util/lightweightsemaphore.h (266-423): a user-space count on top of a kernel
    semaphore, which is a counter here.

    Any number of threads run the operations and every atomic access of `m_count` and every kernel
    operation is one step.  `wait` and `tryWait` are the operations for one permit: with max 1 the
    steps of `waitMany` are theirs.  A timed kernel wait may give up at any point, a weak
    compare-exchange may fail spuriously, and a kernel wait without timeout may fail only by an
    error, which `faults` counts. */
module LightweightSemaphore {
  import opened Sums
  import opened Wrappers

  type Tid = nat

  datatype Timeout = Forever | Poll | Timed

  /** What a failed or successful `tryWaitMany` leads to. */
  datatype After =
    | Give                 // it was the whole call
    | Wait(tmo: Timeout)   // waitMany goes on to wait, unless max is 0 (395)
    | AddOne(tmo: Timeout) // waitManyWithPartialSpinning already has one permit (344)

  /** The next atomic step of a thread, with the locals it still needs. */
  datatype Pc =
    | Idle
    | TryLoad(max: nat, k: After)                                  // 357, 380
    | TryCas(seen: nat, max: nat, k: After)                         // 360, 384
    | SpinLoad(spins: nat, max: nat, tmo: Timeout)                 // 282, 319
    | SpinCas(spins: nat, seen: nat, max: nat, tmo: Timeout)        // 283, 323
    | Take(max: nat, tmo: Timeout)                                 // 287, 328
    | KernelWait(max: nat, tmo: Timeout)                           // 292-295, 331
    | CancelLoad(max: nat, tmo: Timeout)                           // 304, 335
    | CancelTry(max: nat, tmo: Timeout)                            // 305, 336
    | CancelCas(debt: int, max: nat, tmo: Timeout)                  // 307, 338
    | Add(count: nat)                                              // 410
    | Post(left: nat)                                              // 414
    | Return(result: nat, max: nat, tmo: Timeout)

  datatype State = State(
    count: int,
    kernel: nat,
    spins: nat,
    pc: seq<Pc>,
    initial: nat,      // the permits the semaphore was made with
    signalled: nat,    // permits added by signal
    acquired: nat,     // permits taken by waiting threads
    handed: nat,       // permits already returned to callers
    faults: nat)       // kernel waits without timeout that failed

  datatype Call = TryWaitMany(max: nat) | WaitMany(max: nat, tmo: Timeout) | Signal(count: nat)

  /** `ok` is false where the environment makes the step fail. */
  datatype Action = Action(t: Tid, call: Call, ok: bool)

  function Init(initial: nat, spins: nat, threads: nat): State {
    State(initial, 0, spins, seq(threads, _ => Idle), initial, 0, 0, 0, 0)
  }

  /** `oldCount > max ? oldCount - max : 0` (322, 383). */
  function Left(seen: nat, max: nat): (r: nat)
    ensures r <= seen
  {
    if seen > max then seen - max else 0
  }

  /** The posts of `if (toRelease > 0) m_sema.signal((int)toRelease)` (412-415): the conversion to
      `int` wraps, and the loop of `signal` makes none for a negative count. */
  function Posts(toRelease: int): nat {
    var narrowed := (toRelease + 0x8000_0000) % 0x1_0000_0000 - 0x8000_0000;
    if toRelease > 0 && narrowed > 0 then narrowed else 0
  }

  function ToRelease(seen: int, count: nat): int {
    if -seen < count then -seen else count
  }

  function Start(call: Call): Pc {
    match call
    case TryWaitMany(max) => TryLoad(max, Give)
    case WaitMany(max, tmo) => TryLoad(max, Wait(tmo))
    case Signal(count) => Add(count)
  }

  /** The top of the spin loop with `spins` rounds to go. */
  function Spin(spins: nat, max: nat, tmo: Timeout): Pc {
    if spins == 0 then Take(max, tmo) else SpinLoad(spins, max, tmo)
  }

  /** After tryWaitMany found nothing. */
  function TryFailed(max: nat, k: After, spins: nat): Pc {
    match k
    case Give => Return(0, max, Poll)
    case Wait(tmo) => if max > 0 then Spin(spins, max, tmo) else Return(0, max, tmo)
    case AddOne(tmo) => Return(1, max + 1, tmo)
  }

  /** After tryWaitMany got `got` permits. */
  function TryDone(got: nat, max: nat, k: After): Pc {
    match k
    case Give => Return(got, max, Poll)
    case Wait(tmo) => Return(got, max, tmo)
    case AddOne(tmo) => Return(1 + got, max + 1, tmo)
  }

  /** After one permit was taken the slow way (343-345). */
  function GotOne(max: nat, tmo: Timeout): Pc {
    if max > 1 then TryLoad(max - 1, AddOne(tmo)) else Return(1, max, tmo)
  }

  /** A successful compare-exchange of the count from `seen` to `to`. */
  function Acquire(s: State, seen: int, to: int): State {
    s.(count := to, acquired := s.acquired + if seen > to then seen - to else 0)
  }

  function Move(s: State, pc: Pc, call: Call, ok: bool): Pc {
    match pc
    case Idle => Start(call)
    case TryLoad(max, k) =>
      if s.count > 0 then TryCas(s.count, max, k) else TryFailed(max, k, s.spins)
    case TryCas(seen, max, k) =>
      if s.count == seen && ok then TryDone(seen - Left(seen, max), max, k)
      else if s.count > 0 then TryCas(s.count, max, k) else TryFailed(max, k, s.spins)
    case SpinLoad(spins, max, tmo) =>
      var left := if spins > 0 then spins - 1 else 0;
      if s.count > 0 then SpinCas(left, s.count, max, tmo) else Spin(left, max, tmo)
    case SpinCas(spins, seen, max, tmo) =>
      if s.count == seen then Return(seen - Left(seen, max), max, tmo) else Spin(spins, max, tmo)
    case Take(max, tmo) => if s.count > 0 then GotOne(max, tmo) else KernelWait(max, tmo)
    case KernelWait(max, tmo) =>
      if tmo == Poll || !ok then CancelLoad(max, tmo)
      else if s.kernel > 0 then GotOne(max, tmo) else pc
    case CancelLoad(max, tmo) =>
      if s.count >= 0 then CancelTry(max, tmo) else CancelCas(s.count, max, tmo)
    case CancelTry(max, tmo) => if s.kernel > 0 then GotOne(max, tmo) else CancelLoad(max, tmo)
    case CancelCas(debt, max, tmo) => if s.count == debt then Return(0, max, tmo) else CancelLoad(max, tmo)
    case Add(count) =>
      var posts := Posts(ToRelease(s.count, count));
      if posts > 0 then Post(posts) else Idle
    case Post(left) => if left > 1 then Post(left - 1) else Idle
    case Return(_, _, _) => Idle
  }

  function Effect(s: State, pc: Pc, ok: bool): State {
    match pc
    case TryCas(seen, max, _) => if s.count == seen && ok then Acquire(s, seen, Left(seen, max)) else s
    case SpinCas(_, seen, max, _) => if s.count == seen then Acquire(s, seen, Left(seen, max)) else s
    case Take(_, _) => s.(count := s.count - 1, acquired := s.acquired + if s.count > 0 then 1 else 0)
    case KernelWait(_, tmo) =>
      if tmo == Poll then s
      else if !ok then s.(faults := s.faults + if tmo == Forever then 1 else 0)
      else if s.kernel > 0 then s.(kernel := s.kernel - 1, acquired := s.acquired + 1) else s
    case CancelTry(_, _) => if s.kernel > 0 then s.(kernel := s.kernel - 1, acquired := s.acquired + 1) else s
    case CancelCas(debt, _, _) => if s.count == debt then s.(count := s.count + 1) else s
    case Add(count) => s.(count := s.count + count, signalled := s.signalled + count)
    case Post(left) => if left > 0 then s.(kernel := s.kernel + 1) else s
    case Return(result, _, _) => s.(handed := s.handed + result)
    case _ => s
  }

  function Step(s: State, a: Action): State {
    if a.t >= |s.pc| then s
    else Effect(s, s.pc[a.t], a.ok).(pc := s.pc[a.t := Move(s, s.pc[a.t], a.call, a.ok)])
  }

  function Run(initial: nat, spins: nat, threads: nat, acts: seq<Action>): (s: State)
    ensures |s.pc| == threads
  {
    if acts == [] then Init(initial, spins, threads)
    else Step(Run(initial, spins, threads, acts[..|acts| - 1]), acts[|acts| - 1])
  }

  // ---------------------------------------------------------------- the invariant

  /** The thread took a count that was not there and has neither a permit nor cancelled yet. */
  function Waiting(pc: Pc): nat {
    if pc.KernelWait? || pc.CancelLoad? || pc.CancelTry? || pc.CancelCas? then 1 else 0
  }

  /** Kernel posts the thread still has to make. */
  function Posting(pc: Pc): nat {
    if pc.Post? then pc.left else 0
  }

  /** Permits the thread has and has not returned to its caller. */
  function Holding(pc: Pc): nat {
    if pc.Return? then pc.result
    else if (pc.TryLoad? || pc.TryCas?) && pc.k.AddOne? then 1 else 0
  }

  function Positive(i: int): nat {
    if i > 0 then i else 0
  }

  predicate ThreadOk(s: State, t: Tid)
    requires t < |s.pc|
  {
    match s.pc[t]
    case TryCas(seen, _, _) => seen > 0
    case SpinCas(_, seen, max, _) => seen > 0 && max > 0
    case SpinLoad(_, max, _) => max > 0
    case Take(max, _) => max > 0
    case KernelWait(max, _) => max > 0
    case CancelLoad(max, tmo) => max > 0 && (tmo == Forever ==> s.faults > 0)
    case CancelTry(max, tmo) => max > 0 && (tmo == Forever ==> s.faults > 0)
    case CancelCas(debt, max, tmo) => debt < 0 && max > 0 && (tmo == Forever ==> s.faults > 0)
    case Post(left) => left > 0
    case Return(result, max, tmo) => result <= max && (tmo == Forever && max > 0 && s.faults == 0 ==> result > 0)
    case _ => true
  }

  /** The permits, and the threads waiting for one. */
  predicate Accounts(s: State) {
    && s.initial + s.signalled == s.acquired + Positive(s.count) + s.kernel + Sum(s.pc, Posting)
    && Sum(s.pc, Waiting) == s.kernel + Sum(s.pc, Posting) + Positive(-s.count)
    && s.acquired == s.handed + Sum(s.pc, Holding)
  }

  predicate Inv(s: State) {
    && |s.pc| < 0x8000_0000
    && Accounts(s)
    && forall t :: 0 <= t < |s.pc| ==> ThreadOk(s, t)
  }

  /** Signalling: the permits that meet the debt become kernel posts, the others stay in the count;
      the narrowing to `int` loses nothing. */
  lemma SignalKeepsAccounts(s: State, a: Action)
    requires |s.pc| < 0x8000_0000 && Accounts(s) && a.t < |s.pc| && s.pc[a.t].Add?
    ensures var s' := Step(s, a);
      && s'.initial + s'.signalled == s'.acquired + Positive(s'.count) + s'.kernel + Sum(s'.pc, Posting)
      && Sum(s'.pc, Waiting) == s'.kernel + Sum(s'.pc, Posting) + Positive(-s'.count)
  {
    hide Sum;
    var posts := Posts(ToRelease(s.count, s.pc[a.t].count));
    SumBound(s.pc, Waiting);
    assert posts == Positive(ToRelease(s.count, s.pc[a.t].count));
    var pc' := if posts > 0 then Post(posts) else Idle;
    SumUpdate(s.pc, a.t, pc', Posting);
    SumUpdate(s.pc, a.t, pc', Waiting);
  }

  lemma PermitsKept(s: State, a: Action)
    requires Accounts(s) && a.t < |s.pc| && ThreadOk(s, a.t) && !s.pc[a.t].Add?
    ensures var s' := Step(s, a);
      s'.initial + s'.signalled == s'.acquired + Positive(s'.count) + s'.kernel + Sum(s'.pc, Posting)
  {
    hide Sum;
    SumUpdate(s.pc, a.t, Move(s, s.pc[a.t], a.call, a.ok), Posting);
  }

  lemma WaitersKept(s: State, a: Action)
    requires Accounts(s) && a.t < |s.pc| && ThreadOk(s, a.t) && !s.pc[a.t].Add? && Waiting(s.pc[a.t]) == 0
    ensures var s' := Step(s, a);
      Sum(s'.pc, Waiting) == s'.kernel + Sum(s'.pc, Posting) + Positive(-s'.count)
  {
    hide Sum;
    SumUpdate(s.pc, a.t, Move(s, s.pc[a.t], a.call, a.ok), Posting);
    SumUpdate(s.pc, a.t, Move(s, s.pc[a.t], a.call, a.ok), Waiting);
  }

  /** A waiting thread goes on waiting, takes a kernel permit, or cancels its debt. */
  lemma WaiterServed(s: State, a: Action)
    requires Accounts(s) && a.t < |s.pc| && ThreadOk(s, a.t) && Waiting(s.pc[a.t]) == 1
    ensures var s' := Step(s, a);
      Sum(s'.pc, Waiting) == s'.kernel + Sum(s'.pc, Posting) + Positive(-s'.count)
  {
    hide Sum;
    SumUpdate(s.pc, a.t, Move(s, s.pc[a.t], a.call, a.ok), Posting);
    SumUpdate(s.pc, a.t, Move(s, s.pc[a.t], a.call, a.ok), Waiting);
  }

  lemma HandedKept(s: State, a: Action)
    requires Accounts(s) && a.t < |s.pc| && ThreadOk(s, a.t)
    ensures var s' := Step(s, a); s'.acquired == s'.handed + Sum(s'.pc, Holding)
  {
    hide Sum, Positive;
    SumUpdate(s.pc, a.t, Move(s, s.pc[a.t], a.call, a.ok), Holding);
  }

  lemma OtherThreadKept(s: State, a: Action, u: Tid)
    requires a.t < |s.pc| && u < |s.pc| && u != a.t && ThreadOk(s, u)
    ensures ThreadOk(Step(s, a), u)
  {
    hide Move, Posts, Left;
    assert Step(s, a).faults >= s.faults;
  }

  /** The step of a thread in `tryWaitMany` or spinning: a compare-exchange that succeeds takes a permit. */
  lemma TryingThreadKept(s: State, a: Action)
    requires a.t < |s.pc| && ThreadOk(s, a.t)
    requires s.pc[a.t].TryLoad? || s.pc[a.t].TryCas? || s.pc[a.t].SpinLoad? || s.pc[a.t].SpinCas?
    ensures ThreadOk(Step(s, a), a.t)
  {
    hide Posts;
  }

  lemma WaitingThreadKept(s: State, a: Action)
    requires a.t < |s.pc| && ThreadOk(s, a.t)
    requires !s.pc[a.t].TryLoad? && !s.pc[a.t].TryCas? && !s.pc[a.t].SpinLoad? && !s.pc[a.t].SpinCas?
    ensures ThreadOk(Step(s, a), a.t)
  {
    hide Posts, Left, TryDone, TryFailed;
  }

  lemma ThreadsKept(s: State, a: Action, u: Tid)
    requires a.t < |s.pc| && u < |s.pc| && ThreadOk(s, a.t) && ThreadOk(s, u)
    ensures ThreadOk(Step(s, a), u)
  {
    hide Step, ThreadOk;
    if u != a.t {
      OtherThreadKept(s, a, u);
    } else if s.pc[u].TryLoad? || s.pc[u].TryCas? || s.pc[u].SpinLoad? || s.pc[u].SpinCas? {
      TryingThreadKept(s, a);
    } else {
      WaitingThreadKept(s, a);
    }
  }

  lemma StepKeepsInv(s: State, a: Action)
    requires Inv(s)
    ensures Inv(Step(s, a))
  {
    if a.t < |s.pc| {
      assert ThreadOk(s, a.t);
      if s.pc[a.t].Add? {
        SignalKeepsAccounts(s, a);
      } else {
        PermitsKept(s, a);
        if Waiting(s.pc[a.t]) == 1 {
          WaiterServed(s, a);
        } else {
          WaitersKept(s, a);
        }
      }
      HandedKept(s, a);
      forall u | 0 <= u < |s.pc| ensures ThreadOk(Step(s, a), u) {
        ThreadsKept(s, a, u);
      }
    }
  }

  /** What a step adds to the two totals a client can observe. */
  lemma ObservedTotals(s: State, a: Action)
    requires a.t < |s.pc|
    ensures var s', pc := Step(s, a), s.pc[a.t];
      && s'.signalled == s.signalled + (if pc.Add? then pc.count else 0)
      && s'.handed == s.handed + (if pc.Return? then pc.result else 0)
      && s'.pc == s.pc[a.t := Move(s, pc, a.call, a.ok)]
      && s'.initial == s.initial
      && (s'.pc[a.t].Add? ==> pc.Idle? && a.call.Signal? && s'.pc[a.t].count == a.call.count)
  {
  }

  // ---------------------------------------------------------------- every run

  /** As many threads as an `int` can count. */
  predicate FewThreads(threads: nat) {
    threads < 0x8000_0000
  }

  lemma {:induction false} RunKeepsInv(initial: nat, spins: nat, threads: nat, acts: seq<Action>)
    requires FewThreads(threads)
    ensures Inv(Run(initial, spins, threads, acts))
  {
    if acts == [] {
      var pcs := Init(initial, spins, threads).pc;
      SumOfZeros(pcs, Posting);
      SumOfZeros(pcs, Waiting);
      SumOfZeros(pcs, Holding);
    } else {
      RunKeepsInv(initial, spins, threads, acts[..|acts| - 1]);
      StepKeepsInv(Run(initial, spins, threads, acts[..|acts| - 1]), acts[|acts| - 1]);
    }
  }

  /** What a run has signalled, read off its actions. */
  function Signalled(initial: nat, spins: nat, threads: nat, acts: seq<Action>): nat {
    if acts == [] then 0
    else
      var before, a := acts[..|acts| - 1], acts[|acts| - 1];
      var s := Run(initial, spins, threads, before);
      Signalled(initial, spins, threads, before) + if a.t < threads && s.pc[a.t].Add? then s.pc[a.t].count else 0
  }

  /** Permits are conserved: those the semaphore was made with and those signalled are acquired, in
      the count, in the kernel semaphore or about to be posted to it; none is made up. */
  lemma PermitsAreConserved(initial: nat, spins: nat, threads: nat, acts: seq<Action>)
    requires FewThreads(threads)
    ensures var s := Run(initial, spins, threads, acts);
      && initial + Signalled(initial, spins, threads, acts)
         == s.acquired + Positive(s.count) + s.kernel + Sum(s.pc, Posting)
      && s.handed <= s.acquired <= initial + Signalled(initial, spins, threads, acts)
  {
    RunKeepsInv(initial, spins, threads, acts);
    SignalsCounted(initial, spins, threads, acts);
  }

  lemma {:induction false} SignalsCounted(initial: nat, spins: nat, threads: nat, acts: seq<Action>)
    ensures var s := Run(initial, spins, threads, acts);
      s.initial == initial && s.signalled == Signalled(initial, spins, threads, acts)
  {
    if acts != [] {
      SignalsCounted(initial, spins, threads, acts[..|acts| - 1]);
    }
  }

  /** No wakeup is lost: the threads that wait are exactly the debt plus the kernel permits posted or
      about to be.  So while the count is not negative each of them has a permit, and once nobody is
      posting and the kernel has none, a thread waits only if the count shows no permit. */
  lemma NoLostWakeup(initial: nat, spins: nat, threads: nat, acts: seq<Action>)
    requires FewThreads(threads)
    ensures var s := Run(initial, spins, threads, acts);
      && Sum(s.pc, Waiting) == s.kernel + Sum(s.pc, Posting) + Positive(-s.count)
      && (s.count >= 0 ==> Sum(s.pc, Waiting) == s.kernel + Sum(s.pc, Posting))
      && (s.count >= 0 && Sum(s.pc, Waiting) > 0 && s.kernel == 0 ==>
            exists u :: 0 <= u < threads && s.pc[u].Post?)
  {
    RunKeepsInv(initial, spins, threads, acts);
    var s := Run(initial, spins, threads, acts);
    if Sum(s.pc, Posting) > 0 {
      SomeTerm(s.pc, Posting);
    }
  }

  /** `waitMany` and `tryWaitMany` return at most `max`.  A wait without timeout returns at least one
      permit unless the kernel wait itself failed, and then exactly if it asked for one: the
      assertion at line 403 that the result is positive is false of `waitMany(0)`. */
  lemma ResultsAreInRange(initial: nat, spins: nat, threads: nat, acts: seq<Action>, t: Tid)
    requires FewThreads(threads) && t < threads && Run(initial, spins, threads, acts).pc[t].Return?
    ensures var s := Run(initial, spins, threads, acts); var r := s.pc[t];
      && r.result <= r.max
      && (r.tmo == Forever && s.faults == 0 ==> (r.result > 0 <==> r.max > 0))
  {
    RunKeepsInv(initial, spins, threads, acts);
    assert ThreadOk(Run(initial, spins, threads, acts), t);
  }

  // ---------------------------------------------------------------- what a call returns

  /** A thread's last call, the count it last loaded to take permits from (280-322, 357, 380), whether it
      got a permit by `fetch_sub` or from the kernel, whether its kernel wait ended without one, and the
      rounds it spun. */
  datatype Record = Record(call: Option<Call>, seen: Option<int>, slow: bool, gaveUp: bool, rounds: nat)

  /** What the record of thread `a.t` is after its step. */
  function Noted(s: State, pc: Pc, a: Action, r: Record): Record {
    match pc
    case Idle => Record(Some(a.call), None, false, false, 0)
    case TryLoad(_, _) => r.(seen := Some(s.count))
    case TryCas(seen, _, _) => if s.count == seen && a.ok then r else r.(seen := Some(s.count))
    case SpinLoad(_, _, _) => r.(seen := Some(s.count), rounds := r.rounds + 1)
    case Take(_, _) => r.(slow := s.count > 0)
    case KernelWait(_, tmo) =>
      if tmo == Poll || !a.ok then r.(gaveUp := true) else r.(slow := s.kernel > 0)
    case CancelTry(_, _) => r.(slow := s.kernel > 0)
    case _ => r
  }

  function Records(initial: nat, spins: nat, threads: nat, acts: seq<Action>): (rs: seq<Record>)
    ensures |rs| == threads
  {
    if acts == [] then seq(threads, _ => Record(None, None, false, false, 0))
    else
      var before, a := acts[..|acts| - 1], acts[|acts| - 1];
      var s, rs := Run(initial, spins, threads, before), Records(initial, spins, threads, before);
      if a.t >= threads then rs else rs[a.t := Noted(s, s.pc[a.t], a, rs[a.t])]
  }

  function Min(a: int, b: int): int {
    if a < b then a else b
  }

  /** The permits a thread saw there to take. */
  function Available(seen: Option<int>): nat {
    if seen.Some? then Positive(seen.value) else 0
  }

  /** The permits a call for `max` gets, going by its record. */
  function Result(max: nat, r: Record): int {
    if r.slow then 1 + Min(max - 1, Available(r.seen))
    else if r.gaveUp then 0
    else Min(max, Available(r.seen))
  }

  /** Inside `tryWaitMany(m)`, called by itself or by the call on record. */
  predicate Trying(m: nat, k: After, r: Record) {
    match k
    case Give => r.call == Some(TryWaitMany(m)) && !r.slow && !r.gaveUp
    case Wait(tmo) => r.call == Some(WaitMany(m, tmo)) && !r.slow && !r.gaveUp
    case AddOne(tmo) => r.call == Some(WaitMany(m + 1, tmo)) && r.slow
  }

  /** Inside the slow part of `waitMany`, without a permit yet. */
  predicate Lacking(max: nat, tmo: Timeout, gaveUp: bool, r: Record) {
    r.call == Some(WaitMany(max, tmo)) && max > 0 && !r.slow && r.gaveUp == gaveUp
  }

  predicate Returning(result: nat, max: nat, tmo: Timeout, r: Record) {
    && result == Result(max, r)
    && (r.call == Some(TryWaitMany(max)) || r.call == Some(WaitMany(max, tmo)))
    && (r.call == Some(TryWaitMany(max)) ==> !r.slow && !r.gaveUp)
    && (r.call == Some(WaitMany(max, tmo)) && max > 0 && result == 0 ==> r.gaveUp)
  }

  predicate RecordOk(pc: Pc, r: Record) {
    match pc
    case Idle => true
    case TryLoad(max, k) => Trying(max, k, r)
    case TryCas(seen, max, k) => Trying(max, k, r) && r.seen == Some(seen) && seen > 0
    case SpinLoad(_, max, tmo) => Lacking(max, tmo, false, r)
    case SpinCas(_, seen, max, tmo) => Lacking(max, tmo, false, r) && r.seen == Some(seen) && seen > 0
    case Take(max, tmo) => Lacking(max, tmo, false, r)
    case KernelWait(max, tmo) => Lacking(max, tmo, false, r)
    case CancelLoad(max, tmo) => Lacking(max, tmo, true, r)
    case CancelTry(max, tmo) => Lacking(max, tmo, true, r)
    case CancelCas(_, max, tmo) => Lacking(max, tmo, true, r)
    case Add(count) => r.call == Some(Signal(count))
    case Post(_) => r.call.Some? && r.call.value.Signal?
    case Return(result, max, tmo) => Returning(result, max, tmo, r)
  }

  lemma RecordKept(s: State, pc: Pc, a: Action, r: Record)
    requires RecordOk(pc, r)
    ensures RecordOk(Move(s, pc, a.call, a.ok), Noted(s, pc, a, r))
  {
    hide Posts;
  }

  lemma {:induction false} RecordsKept(initial: nat, spins: nat, threads: nat, acts: seq<Action>, t: Tid)
    requires t < threads
    ensures RecordOk(Run(initial, spins, threads, acts).pc[t], Records(initial, spins, threads, acts)[t])
  {
    if acts != [] {
      hide Move, RecordOk, Noted, Effect;
      var before, a := acts[..|acts| - 1], acts[|acts| - 1];
      var s := Run(initial, spins, threads, before);
      RecordsKept(initial, spins, threads, before, t);
      if a.t == t {
        RecordKept(s, s.pc[t], a, Records(initial, spins, threads, before)[t]);
      }
    }
  }

  /** In every interleaving `tryWaitMany(max)` returns as many permits as it last saw there, up to max,
      and a wait as many as it took: what it saw, up to max, or one and what it then saw, or none if its
      kernel wait ended without a permit, and only then. */
  lemma ReturnsWhatItSaw(initial: nat, spins: nat, threads: nat, acts: seq<Action>, t: Tid)
    requires t < threads && Run(initial, spins, threads, acts).pc[t].Return?
    ensures var result, r := Run(initial, spins, threads, acts).pc[t].result, Records(initial, spins, threads, acts)[t];
      && r.call.Some? && !r.call.value.Signal?
      && (r.call.value.TryWaitMany? ==> result == Min(r.call.value.max, Available(r.seen)))
      && (r.call.value.WaitMany? ==> result == Result(r.call.value.max, r))
      && (r.call.value.WaitMany? && r.call.value.max > 0 && result == 0 ==> r.gaveUp)
  {
    RecordsKept(initial, spins, threads, acts, t);
  }

  /** `tryWaitMany` never commits to waiting, and a wait without timeout gives up only by an error. */
  lemma OnlyWaitsWait(initial: nat, spins: nat, threads: nat, acts: seq<Action>, t: Tid)
    requires FewThreads(threads) && t < threads
    ensures var s, r := Run(initial, spins, threads, acts), Records(initial, spins, threads, acts)[t];
      && (s.pc[t].Take? || Waiting(s.pc[t]) == 1 ==> r.call.Some? && r.call.value.WaitMany?)
      && (Waiting(s.pc[t]) == 1 && r.gaveUp && r.call.value.tmo == Forever ==> s.faults > 0)
  {
    RecordsKept(initial, spins, threads, acts, t);
    RunKeepsInv(initial, spins, threads, acts);
    assert ThreadOk(Run(initial, spins, threads, acts), t);
  }

  /** The rounds a thread spun and those it has still to go. */
  predicate Spun(pc: Pc, spins: nat, rounds: nat) {
    match pc
    case TryLoad(_, k) => k.AddOne? || rounds == 0
    case TryCas(_, _, k) => k.AddOne? || rounds == 0
    case SpinLoad(left, _, _) => left > 0 && rounds + left == spins
    case SpinCas(left, _, _, _) => rounds + left == spins
    case Take(_, _) => rounds == spins
    case _ => true
  }

  lemma SpunKept(s: State, pc: Pc, a: Action, r: Record)
    requires Spun(pc, s.spins, r.rounds)
    ensures Spun(Move(s, pc, a.call, a.ok), s.spins, Noted(s, pc, a, r).rounds)
  {
    hide Posts, Left;
  }

  lemma SpinsStay(s: State, a: Action)
    ensures Step(s, a).spins == s.spins
  {
    hide Move, Posts, Left;
  }

  /** In every interleaving a waiting thread takes a count that may not be there only after m_maxSpins
      rounds in which it found none or lost the race for it (278, 315). */
  lemma {:induction false} SpinsFirst(initial: nat, spins: nat, threads: nat, acts: seq<Action>, t: Tid)
    requires t < threads
    ensures var s, r := Run(initial, spins, threads, acts), Records(initial, spins, threads, acts)[t];
      s.spins == spins && Spun(s.pc[t], spins, r.rounds) && (s.pc[t].Take? ==> r.rounds == spins)
  {
    if acts != [] {
      hide Move, Spun, Noted, Effect;
      var before, a := acts[..|acts| - 1], acts[|acts| - 1];
      var s := Run(initial, spins, threads, before);
      SpinsFirst(initial, spins, threads, before, t);
      SpinsStay(s, a);
      if a.t == t {
        SpunKept(s, s.pc[t], a, Records(initial, spins, threads, before)[t]);
      }
    }
    TakeIsSpun(Run(initial, spins, threads, acts).pc[t], spins, Records(initial, spins, threads, acts)[t].rounds);
  }

  lemma TakeIsSpun(pc: Pc, spins: nat, rounds: nat)
    ensures Spun(pc, spins, rounds) && pc.Take? ==> rounds == spins
  {
  }

  // ---------------------------------------------------------------- one thread alone

  /** Thread `t` makes n steps that the environment lets succeed, while all others stand still. */
  function Alone(s: State, t: Tid, call: Call, n: nat): State {
    if n == 0 then s else Step(Alone(s, t, call, n - 1), Action(t, call, true))
  }

  function Steps(t: Tid, call: Call, n: nat): seq<Action> {
    seq(n, _ => Action(t, call, true))
  }

  lemma AloneOneMore(s: State, t: Tid, call: Call, n: nat)
    ensures Alone(s, t, call, 0) == s
    ensures Alone(s, t, call, n + 1) == Step(Alone(s, t, call, n), Action(t, call, true))
  {
  }

  lemma {:induction false} AloneIsRun(initial: nat, spins: nat, threads: nat, acts: seq<Action>,
                                      t: Tid, call: Call, n: nat)
    ensures Run(initial, spins, threads, acts + Steps(t, call, n))
         == Alone(Run(initial, spins, threads, acts), t, call, n)
  {
    hide Step;
    if n == 0 {
      assert acts + Steps(t, call, 0) == acts;
    } else {
      AloneIsRun(initial, spins, threads, acts, t, call, n - 1);
      var all := acts + Steps(t, call, n);
      assert all[..|all| - 1] == acts + Steps(t, call, n - 1);
    }
  }

  lemma {:induction false} AloneAdds(s: State, t: Tid, call: Call, m: nat, n: nat)
    ensures Alone(Alone(s, t, call, m), t, call, n) == Alone(s, t, call, m + n)
  {
    hide Alone, Step;
    AloneOneMore(s, t, call, m);
    AloneOneMore(Alone(s, t, call, m), t, call, n);
    if n > 0 {
      AloneOneMore(s, t, call, m + n - 1);
      AloneOneMore(Alone(s, t, call, m), t, call, n - 1);
      AloneAdds(s, t, call, m, n - 1);
    }
  }

  /** Steps of `tryWaitMany` alone, until its result stands. */
  function TrySteps(count: int): nat {
    if count > 0 then 2 else 1
  }

  /** `got` permits more are taken from the count. */
  function Less(s: State, got: nat): State {
    s.(count := s.count - got, acquired := s.acquired + got)
  }

  /** The permits that `tryWaitMany(max)` alone takes. */
  function Takes(s: State, max: nat): (got: nat)
    ensures got == Min(max, Positive(s.count))
  {
    if max < Positive(s.count) then max else Positive(s.count)
  }

  lemma TryAlone(s: State, t: Tid, call: Call, max: nat, k: After)
    requires t < |s.pc| && s.pc[t] == TryLoad(max, k)
    ensures var got := Takes(s, max);
      Alone(s, t, call, TrySteps(s.count))
        == Less(s, got).(pc := s.pc[t := if s.count > 0 then TryDone(got, max, k) else TryFailed(max, k, s.spins)])
  {
    hide Alone, TryDone, TryFailed;
    AloneOneMore(s, t, call, 0);
    AloneOneMore(s, t, call, 1);
  }

  lemma ReturnAlone(s: State, t: Tid, call: Call)
    requires t < |s.pc| && s.pc[t].Return?
    ensures Alone(s, t, call, 1) == s.(pc := s.pc[t := Idle], handed := s.handed + s.pc[t].result)
  {
    AloneOneMore(s, t, call, 0);
  }

  lemma CallAlone(s: State, t: Tid, call: Call)
    requires t < |s.pc| && s.pc[t] == Idle
    ensures Alone(s, t, call, 1) == s.(pc := s.pc[t := Start(call)])
  {
    hide Start;
    AloneOneMore(s, t, call, 0);
  }

  function MaxOf(call: Call): nat
    requires !call.Signal?
  {
    call.max
  }

  /** The call's `tryWaitMany` is the whole call. */
  lemma TryGives(s: State, t: Tid, call: Call)
    requires t < |s.pc| && !call.Signal? && s.pc[t] == Start(call)
    requires s.count > 0 || call.TryWaitMany?
    ensures var got, tmo := Takes(s, MaxOf(call)), if call.TryWaitMany? then Poll else call.tmo;
      Alone(s, t, call, TrySteps(s.count)) == Less(s, got).(pc := s.pc[t := Return(got, MaxOf(call), tmo)])
  {
    hide Alone, Step;
    TryAlone(s, t, call, call.max, if call.TryWaitMany? then Give else Wait(call.tmo));
  }

  lemma CallGives(s: State, t: Tid, call: Call)
    requires t < |s.pc| && s.pc[t] == Idle && !call.Signal?
    requires s.count > 0 || call.TryWaitMany?
    ensures var got, tmo := Takes(s, MaxOf(call)), if call.TryWaitMany? then Poll else call.tmo;
      Alone(s, t, call, 1 + TrySteps(s.count)) == Less(s, got).(pc := s.pc[t := Return(got, MaxOf(call), tmo)])
  {
    hide Alone, Step, Start, Min, Positive;
    CallAlone(s, t, call);
    TryGives(Alone(s, t, call, 1), t, call);
    AloneAdds(s, t, call, 1, TrySteps(s.count));
  }

  /** From any state: a call alone that finds permits takes as many as are there, up to max, and so does
      `tryWaitMany` that finds none. */
  lemma SoloTryTakes(s: State, t: Tid, call: Call)
    requires t < |s.pc| && s.pc[t] == Idle && !call.Signal?
    requires s.count > 0 || call.TryWaitMany?
    ensures var got := Takes(s, MaxOf(call));
      Alone(s, t, call, TrySteps(s.count) + 2) == Less(s, got).(handed := s.handed + got)
  {
    hide Alone, Step, Start, Takes, TrySteps, Min, Positive;
    CallGives(s, t, call);
    var s1 := Alone(s, t, call, 1 + TrySteps(s.count));
    ReturnAlone(s1, t, call);
    AloneAdds(s, t, call, 1 + TrySteps(s.count), 1);
    assert s1.pc[t := Idle] == s.pc;
  }

  /** A spinning thread alone takes the permits that are there. */
  lemma SoloSpinTakes(s: State, t: Tid, call: Call)
    requires t < |s.pc| && s.pc[t].SpinLoad? && s.count > 0
    ensures var got := Takes(s, s.pc[t].max);
      Alone(s, t, call, 3) == Less(s, got).(pc := s.pc[t := Idle], handed := s.handed + got)
  {
    hide Alone;
    AloneOneMore(s, t, call, 0);
    AloneOneMore(s, t, call, 1);
    AloneOneMore(s, t, call, 2);
    assert Alone(s, t, call, 2)
      == Less(s, Takes(s, s.pc[t].max)).(pc := s.pc[t := Return(Takes(s, s.pc[t].max), s.pc[t].max, s.pc[t].tmo)]);
  }

  /** The steps alone of a call that has got one permit the slow way. */
  function RestSteps(max: nat, count: int): nat {
    if max > 1 then TrySteps(count) + 1 else 1
  }

  lemma RestAlone(s: State, t: Tid, call: Call, max: nat, tmo: Timeout)
    requires t < |s.pc| && max > 0 && s.pc[t] == GotOne(max, tmo)
    ensures var got := Takes(s, max - 1);
      Alone(s, t, call, RestSteps(max, s.count))
        == Less(s, got).(pc := s.pc[t := Idle], handed := s.handed + 1 + got)
  {
    hide Alone, Step;
    if max > 1 {
      TryAlone(s, t, call, max - 1, AddOne(tmo));
      ReturnAlone(Alone(s, t, call, TrySteps(s.count)), t, call);
      AloneAdds(s, t, call, TrySteps(s.count), 1);
    } else {
      ReturnAlone(s, t, call);
    }
  }

  /** A thread in its kernel wait while the kernel has a permit: alone it returns that one and as many more
      as are in the count, up to its max. */
  lemma SoloKernelWaitReturns(s: State, t: Tid, call: Call)
    requires t < |s.pc| && s.pc[t].KernelWait? && s.pc[t].max > 0 && s.pc[t].tmo != Poll && s.kernel > 0
    ensures var max := s.pc[t].max; var got := Takes(s, max - 1);
      Alone(s, t, call, RestSteps(max, s.count) + 1)
        == Less(s, 1 + got).(count := s.count - got, kernel := s.kernel - 1, pc := s.pc[t := Idle],
                            handed := s.handed + 1 + got)
  {
    hide Alone, GotOne;
    var max := s.pc[t].max;
    AloneOneMore(s, t, call, 0);
    RestAlone(Alone(s, t, call, 1), t, call, max, s.pc[t].tmo);
    AloneAdds(s, t, call, 1, RestSteps(max, s.count));
  }

  /** A thread whose kernel wait ended without a permit: alone it takes back its debt and returns nothing,
      or there is none and it returns the permit that was posted for it and as many more as are there. */
  lemma SoloCancelReturns(s: State, t: Tid, call: Call)
    requires t < |s.pc| && s.pc[t].CancelLoad? && s.pc[t].max > 0
    ensures s.count < 0 ==>
      Alone(s, t, call, 3) == s.(count := s.count + 1, pc := s.pc[t := Idle])
    ensures s.count >= 0 && s.kernel > 0 ==>
      var max := s.pc[t].max; var got := Takes(s, max - 1);
      Alone(s, t, call, RestSteps(max, s.count) + 2)
        == Less(s, 1 + got).(count := s.count - got, kernel := s.kernel - 1, pc := s.pc[t := Idle],
                            handed := s.handed + 1 + got)
  {
    hide Alone, GotOne;
    var max := s.pc[t].max;
    AloneOneMore(s, t, call, 0);
    AloneOneMore(s, t, call, 1);
    AloneOneMore(s, t, call, 2);
    if s.count >= 0 && s.kernel > 0 {
      RestAlone(Alone(s, t, call, 2), t, call, max, s.pc[t].tmo);
      AloneAdds(s, t, call, 2, RestSteps(max, s.count));
    }
  }

  /** So in any run: while the kernel has a permit, any thread in its kernel wait that runs alone returns
      with at least one. */
  lemma PostedPermitWakes(initial: nat, spins: nat, threads: nat, acts: seq<Action>, t: Tid, call: Call)
    requires FewThreads(threads) && t < threads
    requires var s := Run(initial, spins, threads, acts);
      s.pc[t].KernelWait? && s.pc[t].tmo != Poll && s.kernel > 0
    ensures var s := Run(initial, spins, threads, acts); var max := s.pc[t].max;
      var s' := Run(initial, spins, threads, acts + Steps(t, call, RestSteps(max, s.count) + 1));
      && s'.pc == s.pc[t := Idle] && s'.kernel == s.kernel - 1
      && s.handed + 1 <= s'.handed == s.handed + 1 + Min(max - 1, Positive(s.count)) <= s.handed + max
  {
    var s := Run(initial, spins, threads, acts);
    RunKeepsInv(initial, spins, threads, acts);
    assert ThreadOk(s, t);
    hide Alone, Run;
    AloneIsRun(initial, spins, threads, acts, t, call, RestSteps(s.pc[t].max, s.count) + 1);
    SoloKernelWaitReturns(s, t, call);
  }

  /** So in any run: a call made while permits are there that runs alone returns them, up to its max. */
  lemma SoloCallReturns(initial: nat, spins: nat, threads: nat, acts: seq<Action>, t: Tid, call: Call)
    requires t < threads && Run(initial, spins, threads, acts).pc[t] == Idle && !call.Signal?
    requires Run(initial, spins, threads, acts).count > 0 || call.TryWaitMany?
    ensures var s := Run(initial, spins, threads, acts);
      var s' := Run(initial, spins, threads, acts + Steps(t, call, TrySteps(s.count) + 2));
      && s'.pc == s.pc && s'.handed == s.handed + Min(call.max, Positive(s.count))
      && s'.count == s.count - Min(call.max, Positive(s.count))
  {
    var s := Run(initial, spins, threads, acts);
    hide Alone, Run;
    AloneIsRun(initial, spins, threads, acts, t, call, TrySteps(s.count) + 2);
    SoloTryTakes(s, t, call);
  }

  lemma {:induction false} PostAlone(s: State, t: Tid, call: Call, n: nat)
    requires t < |s.pc| && n > 0 && s.pc[t] == Post(n)
    ensures Alone(s, t, call, n) == s.(kernel := s.kernel + n, pc := s.pc[t := Idle])
    decreases n
  {
    hide Alone;
    AloneOneMore(s, t, call, 0);
    if n > 1 {
      var s1 := Alone(s, t, call, 1);
      PostAlone(s1, t, call, n - 1);
      AloneAdds(s, t, call, 1, n - 1);
      assert s1.pc[t := Idle] == s.pc[t := Idle];
    }
  }

  /** The permits of a signal that meet the debt. */
  function Met(s: State, count: nat): nat {
    if count < Positive(-s.count) then count else Positive(-s.count)
  }

  lemma AddAlone(s: State, t: Tid, call: Call, count: nat)
    requires t < |s.pc| && s.pc[t] == Add(count) && Positive(-s.count) < 0x8000_0000
    ensures Alone(s, t, call, 1)
      == s.(count := s.count + count, signalled := s.signalled + count,
            pc := s.pc[t := if Met(s, count) > 0 then Post(Met(s, count)) else Idle])
  {
    hide Alone;
    AloneOneMore(s, t, call, 0);
    assert Posts(ToRelease(s.count, count)) == Met(s, count);
  }

  /** Inside `signal`, all the steps that are left. */
  lemma SignalAlone(s: State, t: Tid, call: Call, count: nat)
    requires t < |s.pc| && s.pc[t] == Add(count) && Positive(-s.count) < 0x8000_0000
    ensures Alone(s, t, call, 1 + Met(s, count))
      == s.(count := s.count + count, signalled := s.signalled + count, kernel := s.kernel + Met(s, count),
            pc := s.pc[t := Idle])
  {
    hide Alone, Step, Met;
    var s1 := Alone(s, t, call, 1);
    AddAlone(s, t, call, count);
    if Met(s, count) > 0 {
      PostAlone(s1, t, call, Met(s, count));
      AloneAdds(s, t, call, 1, Met(s, count));
      assert s1.pc[t := Idle] == s.pc[t := Idle];
    }
  }

  /** From any state: a `signal(count)` alone adds count, and posts the permits that meet the debt. */
  lemma SoloSignalPosts(s: State, t: Tid, count: nat)
    requires t < |s.pc| && s.pc[t] == Idle && Positive(-s.count) < 0x8000_0000
    ensures Alone(s, t, Signal(count), 2 + Met(s, count))
      == s.(count := s.count + count, signalled := s.signalled + count, kernel := s.kernel + Met(s, count))
  {
    hide Alone, Step;
    CallAlone(s, t, Signal(count));
    var s1 := Alone(s, t, Signal(count), 1);
    SignalAlone(s1, t, Signal(count), count);
    AloneAdds(s, t, Signal(count), 1, 1 + Met(s, count));
    assert s1.pc[t := Idle] == s.pc;
  }

  lemma DebtBound(s: State)
    requires Inv(s)
    ensures Positive(-s.count) < 0x8000_0000
  {
    SumBound(s.pc, Waiting);
  }

  /** So in any run: a signal that runs alone returns, and the permits are in the count or posted. */
  lemma SoloSignalReturns(initial: nat, spins: nat, threads: nat, acts: seq<Action>, t: Tid, count: nat)
    requires FewThreads(threads) && t < threads && Run(initial, spins, threads, acts).pc[t] == Idle
    ensures var s := Run(initial, spins, threads, acts);
      var s' := Run(initial, spins, threads, acts + Steps(t, Signal(count), 2 + Met(s, count)));
      && s'.pc == s.pc && s'.count == s.count + count
      && s'.kernel == s.kernel + Min(count, Positive(-s.count))
  {
    hide Alone, Run, Inv, Met, Positive, Min;
    var s := Run(initial, spins, threads, acts);
    RunKeepsInv(initial, spins, threads, acts);
    DebtBound(s);
    AloneIsRun(initial, spins, threads, acts, t, Signal(count), 2 + Met(s, count));
    SoloSignalPosts(s, t, count);
    MetIs(s, count);
  }

  lemma MetIs(s: State, count: nat)
    ensures Met(s, count) == Min(count, Positive(-s.count))
  {
  }

  // ---------------------------------------------------------------- waiting for none

  /** One thread calls `waitMany(0)` on a semaphore without permits and returns at once with nothing. */
  const WAIT_FOR_NONE: seq<Action> := [Action(0, WaitMany(0, Forever), true), Action(0, WaitMany(0, Forever), true)]

  lemma WaitForNoneReturnsNothing()
    ensures var s := Run(0, 0, 1, WAIT_FOR_NONE);
      s.pc[0] == Return(0, 0, Forever) && s.faults == 0
  {
    var a := WAIT_FOR_NONE[0];
    assert WAIT_FOR_NONE[..1] == [a] && WAIT_FOR_NONE[..1][..0] == [];
    assert Run(0, 0, 1, [a]).pc == [TryLoad(0, Wait(Forever))];
  }
}
