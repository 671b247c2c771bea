/** The optimistic dequeue protocol of one producer's queue in src/util/concurrentqueue.h:
    `dequeue` (1956-2053, 2552-2620) and `dequeue_bulk` (2249-2339, 2781-2880).

    One producer appends, any number of consumers run single and bulk dequeues, and every atomic
    access of the four counters is one step.  Indices are naturals here; CircularLessThan and the
    lemmas about it say when the 64-bit comparisons of the source give the same answers. */
module OptimisticDequeue {
  import opened Sums
  import opened Wrappers

  type Tid = nat

  datatype Mode = Single | Bulk(max: nat)

  /** The next atomic step of a consumer, with the locals it still needs. */
  datatype Pc =
    | Idle
    | LoadTail(mode: Mode)                                     // 1958, 2251
    | LoadOvercommit(mode: Mode, tail: nat)                    // 1959, 2252
    | LoadOptimistic(mode: Mode, tail: nat, over: nat)         // 1960, 2253
    | AddOptimistic(mode: Mode, desired: nat, over: nat)       // 1980, 2258
    | ReloadTail(mode: Mode, desired: nat, over: nat, mine: nat)  // 1992, 2260
    | GiveBack(claim: nat, excess: nat)                        // 2265
    | Claim(claim: nat)                                        // 2004, 2270
    | Refuse(desired: nat)                                     // 2048, 2334
    | Read(first: nat, count: nat)                             // 2021, 2283-2328

  datatype Event<T> = Returned(first: nat, values: seq<Option<T>>)

  /** `items` are the elements constructed so far, in order; its length is `tailIndex`. */
  datatype State<T> = State(
    items: seq<T>,
    head: nat,
    optimistic: nat,
    overcommit: nat,
    pc: seq<Pc>,
    log: seq<Event<T>>)

  datatype Action<T> = Enqueue(values: seq<T>) | Consume(t: Tid, mode: Mode)

  /** How many elements a dequeue asks for, given the index it expects and the tail it saw; zero
      if it gives up. */
  function Desired(mode: Mode, expected: int, tail: nat): (d: nat)
    ensures d > 0 ==> expected < tail
  {
    match mode
    case Single => if expected < tail then 1 else 0
    case Bulk(max) => if expected < tail then (if tail - expected < max then tail - expected else max) else 0
  }

  /** The dequeue goes on: `max` may be 0 in a bulk dequeue, which then claims no element. */
  predicate Enters(expected: int, tail: nat) {
    expected < tail
  }

  /** How many elements it gets once it knows its place in line. */
  function Granted(desired: nat, expected: int, tail: nat): nat {
    if expected < tail then (if desired < tail - expected then desired else tail - expected) else 0
  }

  /** Memory past the constructed elements holds nothing. */
  function Cells<T>(items: seq<T>, first: nat, count: nat): (r: seq<Option<T>>)
    ensures |r| == count
  {
    seq(count, i requires 0 <= i => if first + i < |items| then Some(items[first + i]) else None)
  }

  function Init<T>(threads: nat): State<T> {
    State([], 0, 0, 0, seq(threads, _ => Idle), [])
  }

  function Move<T>(s: State<T>, pc: Pc, mode: Mode): Pc {
    match pc
    case Idle => LoadTail(mode)
    case LoadTail(m) => LoadOvercommit(m, |s.items|)
    case LoadOvercommit(m, tail) => LoadOptimistic(m, tail, s.overcommit)
    case LoadOptimistic(m, tail, over) =>
      if Enters(s.optimistic - over, tail) then AddOptimistic(m, Desired(m, s.optimistic - over, tail), over) else Idle
    case AddOptimistic(m, desired, over) => ReloadTail(m, desired, over, s.optimistic)
    case ReloadTail(m, desired, over, mine) =>
      if !Enters(mine - over, |s.items|) then Refuse(desired)
      else
        var granted := Granted(desired, mine - over, |s.items|);
        if granted < desired then GiveBack(granted, desired - granted) else Claim(granted)
    case GiveBack(claim, _) => Claim(claim)
    case Claim(claim) => Read(s.head, claim)
    case Refuse(_) => Idle
    case Read(_, _) => Idle
  }

  function Effect<T>(s: State<T>, pc: Pc): State<T> {
    match pc
    case AddOptimistic(_, desired, _) => s.(optimistic := s.optimistic + desired)
    case GiveBack(_, excess) => s.(overcommit := s.overcommit + excess)
    case Claim(claim) => s.(head := s.head + claim)
    case Refuse(desired) => s.(overcommit := s.overcommit + desired)
    case Read(first, count) => s.(log := s.log + [Returned(first, Cells(s.items, first, count))])
    case _ => s
  }

  function Step<T>(s: State<T>, a: Action<T>): State<T> {
    match a
    case Enqueue(values) => s.(items := s.items + values)
    case Consume(t, mode) =>
      if t >= |s.pc| then s else Effect(s, s.pc[t]).(pc := s.pc[t := Move(s, s.pc[t], mode)])
  }

  function Run<T>(threads: nat, acts: seq<Action<T>>): (s: State<T>)
    ensures |s.pc| == threads
  {
    if acts == [] then Init(threads) else Step(Run(threads, acts[..|acts| - 1]), acts[|acts| - 1])
  }

  // ---------------------------------------------------------------- counting over threads

  /** Elements the thread has won but not yet claimed. */
  function Won(pc: Pc): nat {
    match pc
    case GiveBack(claim, _) => claim
    case Claim(claim) => claim
    case _ => 0
  }

  /** Tickets the thread has lost but not yet given back. */
  function Lost(pc: Pc): nat {
    match pc
    case GiveBack(_, excess) => excess
    case Refuse(desired) => desired
    case _ => 0
  }

  /** Tickets the thread has drawn and not yet decided. */
  function Open(pc: Pc): nat {
    if pc.ReloadTail? then pc.desired else 0
  }

  /** The claims in flight. */
  function InFlight(pc: Pc): nat {
    Won(pc) + Lost(pc) + Open(pc)
  }

  lemma {:induction false} SumInFlight(pcs: seq<Pc>)
    ensures Sum(pcs, InFlight) == Sum(pcs, Won) + Sum(pcs, Lost) + Sum(pcs, Open)
  {
    if pcs != [] {
      SumInFlight(pcs[1..]);
    }
  }

  // ---------------------------------------------------------------- tickets

  /** Every unit added to `dequeueOptimisticCount` is a ticket, and this is what became of it. */
  datatype Fate = Win | Loss | Undecided(t: Tid)

  function Wins(f: seq<Fate>): nat {
    if f == [] then 0 else Wins(f[..|f| - 1]) + if f[|f| - 1] == Win then 1 else 0
  }

  function Losses(f: seq<Fate>): nat {
    if f == [] then 0 else Losses(f[..|f| - 1]) + if f[|f| - 1] == Loss then 1 else 0
  }

  lemma {:induction false} CountConcat(f: seq<Fate>, g: seq<Fate>)
    ensures Wins(f + g) == Wins(f) + Wins(g) && Losses(f + g) == Losses(f) + Losses(g)
  {
    if g == [] {
      assert f + g == f;
    } else {
      assert (f + g)[..|f + g| - 1] == f + g[..|g| - 1];
      CountConcat(f, g[..|g| - 1]);
    }
  }

  lemma {:induction false} CountConstant(n: nat, x: Fate)
    ensures Wins(seq(n, _ => x)) == (if x == Win then n else 0)
    ensures Losses(seq(n, _ => x)) == (if x == Loss then n else 0)
  {
    if n > 0 {
      assert seq(n, _ => x)[..n - 1] == seq(n - 1, _ => x);
      CountConstant(n - 1, x);
    }
  }

  lemma {:induction false} CountBound(f: seq<Fate>)
    ensures Wins(f) + Losses(f) <= |f|
  {
    if f != [] {
      CountBound(f[..|f| - 1]);
    }
  }

  /** Losses only accumulate. */
  lemma {:induction false} LossesGrow(f: seq<Fate>, f': seq<Fate>)
    requires |f| == |f'|
    requires forall i :: 0 <= i < |f| && f[i] == Loss ==> f'[i] == Loss
    ensures Losses(f) <= Losses(f')
  {
    if f != [] {
      LossesGrow(f[..|f| - 1], f'[..|f| - 1]);
    }
  }

  /** Ticket p stands for element index p minus the losses before it; a winning ticket's element
      exists. */
  predicate WinsExist(f: seq<Fate>, tail: nat) {
    forall p :: 0 <= p < |f| && f[p] == Win ==> p + 1 - Losses(f[..p]) <= tail
  }

  lemma {:induction false} WinsBounded(f: seq<Fate>, tail: nat)
    requires WinsExist(f, tail)
    ensures Wins(f) <= tail
  {
    if f != [] {
      var last := |f| - 1;
      if f[last] == Win {
        CountBound(f[..last]);
      } else {
        forall p | 0 <= p < last && f[..last][p] == Win ensures p + 1 - Losses(f[..last][..p]) <= tail {
          assert f[..last][..p] == f[..p];
        }
        WinsBounded(f[..last], tail);
      }
    }
  }

  /** A thread decides its tickets: the first `won` win, the others lose. */
  function Decide(f: seq<Fate>, mine: nat, won: nat, lost: nat): seq<Fate>
    requires mine + won + lost <= |f|
  {
    f[..mine] + seq(won, _ => Win) + seq(lost, _ => Loss) + f[mine + won + lost..]
  }

  predicate Drawn(f: seq<Fate>, t: Tid, mine: nat, desired: nat) {
    mine + desired <= |f| && forall p :: mine <= p < mine + desired ==> f[p] == Undecided(t)
  }

  lemma DecideCounts(f: seq<Fate>, t: Tid, mine: nat, won: nat, lost: nat)
    requires Drawn(f, t, mine, won + lost)
    ensures mine + won + lost <= |f| && |Decide(f, mine, won, lost)| == |f|
    ensures Wins(Decide(f, mine, won, lost)) == Wins(f) + won
    ensures Losses(Decide(f, mine, won, lost)) == Losses(f) + lost
  {
    var d := won + lost;
    var a, z := f[..mine], f[mine + d..];
    var w, l, u := seq(won, _ => Win), seq(lost, _ => Loss), seq(d, _ => Undecided(t));
    assert f == a + u + z;
    CountConcat(a + u, z);
    CountConcat(a, u);
    CountConstant(d, Undecided(t));
    CountConcat(a + w + l, z);
    CountConcat(a + w, l);
    CountConcat(a, w);
    CountConstant(won, Win);
    CountConstant(lost, Loss);
  }

  /** A thread's undecided tickets and the losses before them survive another thread's decision. */
  lemma DecideKeepsDrawn(f: seq<Fate>, t: Tid, mine: nat, won: nat, lost: nat, u: Tid, theirs: nat, desired: nat)
    requires t != u && Drawn(f, t, mine, won + lost) && Drawn(f, u, theirs, desired)
    ensures var f' := Decide(f, mine, won, lost);
      Drawn(f', u, theirs, desired) && Losses(f'[..theirs]) >= Losses(f[..theirs])
  {
    var f' := Decide(f, mine, won, lost);
    forall p | theirs <= p < theirs + desired ensures f'[p] == Undecided(u) {
      assert f[p] == Undecided(u);
      assert !(mine <= p < mine + won + lost);
    }
    LossesGrow(f[..theirs], f'[..theirs]);
  }

  lemma DecideKeepsWins(f: seq<Fate>, t: Tid, mine: nat, won: nat, lost: nat, tail: nat)
    requires Drawn(f, t, mine, won + lost) && WinsExist(f, tail)
    requires won > 0 ==> mine + won - Losses(f[..mine]) <= tail
    ensures WinsExist(Decide(f, mine, won, lost), tail)
  {
    hide Losses;
    var f' := Decide(f, mine, won, lost);
    forall p | 0 <= p < |f'| && f'[p] == Win ensures p + 1 - Losses(f'[..p]) <= tail {
      if mine <= p < mine + won {
        LossesOfLonger(f[..mine], f'[..p]);
      } else {
        DecideKeepsLosses(f, t, mine, won, lost, p);
        assert f[p] == Win;
      }
    }
  }

  lemma LossesOfLonger(f: seq<Fate>, f': seq<Fate>)
    requires f <= f'
    ensures Losses(f') >= Losses(f)
  {
    hide Losses;
    assert f' == f + f'[|f|..];
    CountConcat(f, f'[|f|..]);
  }

  lemma DecideKeepsLosses(f: seq<Fate>, t: Tid, mine: nat, won: nat, lost: nat, p: nat)
    requires Drawn(f, t, mine, won + lost) && p <= |f|
    ensures var f' := Decide(f, mine, won, lost); |f'| == |f| && Losses(f'[..p]) >= Losses(f[..p])
  {
    hide Losses;
    LossesGrow(f[..p], Decide(f, mine, won, lost)[..p]);
  }

  // ---------------------------------------------------------------- the invariant

  /** `f` is what became of the tickets drawn so far. */
  predicate ThreadOk<T>(s: State<T>, f: seq<Fate>, t: Tid)
    requires t < |s.pc|
  {
    match s.pc[t]
    case LoadOptimistic(_, _, over) => over <= s.overcommit
    case AddOptimistic(_, _, over) => over <= s.overcommit
    case ReloadTail(_, desired, over, mine) => Drawn(f, t, mine, desired) && over <= Losses(f[..mine])
    case Read(first, count) => first + count <= s.head
    case _ => true
  }

  ghost predicate ReturnedOk<T>(s: State<T>, e: Event<T>) {
    && e.first + |e.values| <= s.head
    && e.first + |e.values| <= |s.items|
    && forall i :: 0 <= i < |e.values| ==> e.values[i] == Some(s.items[e.first + i])
  }

  /** The exact accounts: the counters are the fates decided less what threads have still to add. */
  ghost predicate Accounts<T>(s: State<T>, f: seq<Fate>) {
    |f| == s.optimistic && Wins(f) == s.head + Sum(s.pc, Won) && Losses(f) == s.overcommit + Sum(s.pc, Lost)
  }

  ghost predicate Inv<T>(s: State<T>, f: seq<Fate>) {
    && Accounts(s, f)
    && WinsExist(f, |s.items|)
    && (forall t :: 0 <= t < |s.pc| ==> ThreadOk(s, f, t))
    && (forall i :: 0 <= i < |s.log| ==> ReturnedOk(s, s.log[i]))
  }

  function Track<T>(s: State<T>, f: seq<Fate>, a: Action<T>): seq<Fate> {
    if a.Enqueue? || a.t >= |s.pc| then f else
    match s.pc[a.t]
    case AddOptimistic(_, desired, _) => f + seq(desired, _ => Undecided(a.t))
    case ReloadTail(_, desired, over, mine) =>
      var won := Granted(desired, mine - over, |s.items|);
      if mine + desired <= |f| then Decide(f, mine, won, desired - won) else f
    case _ => f
  }

  /** No step undoes what other threads rely on. */
  lemma OtherThreadKept<T>(s: State<T>, f: seq<Fate>, a: Action<T>, u: Tid)
    requires a.Consume? && a.t < |s.pc| && u < |s.pc| && u != a.t
    requires ThreadOk(s, f, a.t) && ThreadOk(s, f, u)
    ensures ThreadOk(Step(s, a), Track(s, f, a), u)
  {
    hide Desired, Cells, Decide;
    if s.pc[u].ReloadTail? {
      var theirs, want := s.pc[u].mine, s.pc[u].desired;
      match s.pc[a.t]
      case AddOptimistic(_, _, _) => assert Track(s, f, a)[..theirs] == f[..theirs];
      case ReloadTail(_, desired, over, mine) =>
        var won := Granted(desired, mine - over, |s.items|);
        DecideKeepsDrawn(f, a.t, mine, won, desired - won, u, theirs, want);
      case _ =>
    }
  }

  lemma OwnThreadKept<T>(s: State<T>, f: seq<Fate>, a: Action<T>)
    requires a.Consume? && a.t < |s.pc| && ThreadOk(s, f, a.t)
    requires |f| == s.optimistic && s.overcommit <= Losses(f)
    ensures ThreadOk(Step(s, a), Track(s, f, a), a.t)
  {
    if s.pc[a.t].AddOptimistic? {
      assert Track(s, f, a)[..|f|] == f;
    }
  }

  lemma DecidedAccounts<T>(s: State<T>, f: seq<Fate>, a: Action<T>)
    requires a.Consume? && a.t < |s.pc| && ThreadOk(s, f, a.t) && s.pc[a.t].ReloadTail? && Accounts(s, f)
    ensures Accounts(Step(s, a), Track(s, f, a))
  {
    hide Decide, Drawn, Cells, Desired;
    var pc' := Step(s, a).pc[a.t];
    SumUpdate(s.pc, a.t, pc', Won);
    SumUpdate(s.pc, a.t, pc', Lost);
    var pc := s.pc[a.t];
    var won := Granted(pc.desired, pc.mine - pc.over, |s.items|);
    DecideCounts(f, a.t, pc.mine, won, pc.desired - won);
  }

  lemma AccountsKept<T>(s: State<T>, f: seq<Fate>, a: Action<T>)
    requires a.Consume? && a.t < |s.pc| && ThreadOk(s, f, a.t) && Accounts(s, f)
    ensures Accounts(Step(s, a), Track(s, f, a))
  {
    if s.pc[a.t].ReloadTail? {
      DecidedAccounts(s, f, a);
    } else {
      hide Decide, Desired, Drawn, Cells;
      var pc' := Step(s, a).pc[a.t];
      SumUpdate(s.pc, a.t, pc', Won);
      SumUpdate(s.pc, a.t, pc', Lost);
      if s.pc[a.t].AddOptimistic? {
        var desired := s.pc[a.t].desired;
        CountConcat(f, seq(desired, _ => Undecided(a.t)));
        CountConstant(desired, Undecided(a.t));
      }
    }
  }

  lemma DrawnKeepsWins(f: seq<Fate>, t: Tid, desired: nat, tail: nat)
    requires WinsExist(f, tail)
    ensures WinsExist(f + seq(desired, _ => Undecided(t)), tail)
  {
    hide Losses;
    var f' := f + seq(desired, _ => Undecided(t));
    forall p | 0 <= p < |f'| && f'[p] == Win ensures p + 1 - Losses(f'[..p]) <= tail {
      assert f'[..p] == f[..p];
    }
  }

  lemma WinsStillExist<T>(s: State<T>, f: seq<Fate>, a: Action<T>)
    requires a.Consume? && a.t < |s.pc| && ThreadOk(s, f, a.t) && WinsExist(f, |s.items|)
    ensures WinsExist(Track(s, f, a), |s.items|)
  {
    hide WinsExist, Decide, Losses;
    match s.pc[a.t]
    case AddOptimistic(_, desired, _) => DrawnKeepsWins(f, a.t, desired, |s.items|);
    case ReloadTail(_, desired, over, mine) =>
      var won := Granted(desired, mine - over, |s.items|);
      DecideKeepsWins(f, a.t, mine, won, desired - won, |s.items|);
    case _ =>
  }

  lemma HeadBounded<T>(s: State<T>, f: seq<Fate>)
    requires Inv(s, f)
    ensures s.head + Sum(s.pc, Won) <= |s.items|
  {
    WinsBounded(f, |s.items|);
  }

  lemma StepKeepsInv<T>(s: State<T>, f: seq<Fate>, a: Action<T>)
    requires Inv(s, f)
    ensures Inv(Step(s, a), Track(s, f, a))
  {
    var s', f' := Step(s, a), Track(s, f, a);
    if a.Consume? && a.t < |s.pc| {
      assert ThreadOk(s, f, a.t);
      AccountsKept(s, f, a);
      WinsStillExist(s, f, a);
      OwnThreadKept(s, f, a);
      forall u | 0 <= u < |s.pc| ensures ThreadOk(s', f', u) {
        if u != a.t {
          OtherThreadKept(s, f, a, u);
        }
      }
      HeadBounded(s, f);
      LogKept(s, f, a);
    } else {
      forall u | 0 <= u < |s'.pc| ensures ThreadOk(s', f', u) {
        assert ThreadOk(s, f, u);
      }
      forall i | 0 <= i < |s.log| ensures ReturnedOk(s', s.log[i]) {
        assert ReturnedOk(s, s.log[i]);
      }
    }
  }

  lemma LogKept<T>(s: State<T>, f: seq<Fate>, a: Action<T>)
    requires a.Consume? && a.t < |s.pc| && ThreadOk(s, f, a.t) && s.head <= |s.items|
    requires forall i :: 0 <= i < |s.log| ==> ReturnedOk(s, s.log[i])
    ensures var s' := Step(s, a); forall i :: 0 <= i < |s'.log| ==> ReturnedOk(s', s'.log[i])
  {
    var s' := Step(s, a);
    forall i | 0 <= i < |s'.log| ensures ReturnedOk(s', s'.log[i]) {
      if i < |s.log| {
        assert ReturnedOk(s, s.log[i]);
      }
    }
  }

  function TrackRun<T>(threads: nat, acts: seq<Action<T>>): seq<Fate> {
    if acts == [] then []
    else
      var before := acts[..|acts| - 1];
      Track(Run(threads, before), TrackRun(threads, before), acts[|acts| - 1])
  }

  lemma {:induction false} RunKeepsInv<T>(threads: nat, acts: seq<Action<T>>)
    ensures Inv(Run(threads, acts), TrackRun(threads, acts))
  {
    if acts == [] {
      SumOfZeros(Init<T>(threads).pc, Won);
      SumOfZeros(Init<T>(threads).pc, Lost);
    } else {
      var before := acts[..|acts| - 1];
      RunKeepsInv(threads, before);
      StepKeepsInv(Run(threads, before), TrackRun(threads, before), acts[|acts| - 1]);
    }
  }

  // ---------------------------------------------------------------- every run

  /** The account of the counters and the safety of claims, over every run: `headIndex` never passes
      `tailIndex`, even once every claim already granted is made. */
  lemma ClaimsAreBacked<T>(threads: nat, acts: seq<Action<T>>)
    ensures var s := Run(threads, acts);
      && s.optimistic == s.head + s.overcommit + Sum(s.pc, InFlight)
      && s.head + Sum(s.pc, Won) <= |s.items|
  {
    RunKeepsInv(threads, acts);
    var s, f := Run(threads, acts), TrackRun(threads, acts);
    HeadBounded(s, f);
    SumInFlight(s.pc);
    OpenTickets(threads, acts);
  }

  /** The tickets not yet decided are the ones the threads hold. */
  lemma {:induction false} OpenTickets<T>(threads: nat, acts: seq<Action<T>>)
    ensures var s, f := Run(threads, acts), TrackRun(threads, acts);
      |f| == Wins(f) + Losses(f) + Sum(s.pc, Open)
  {
    if acts == [] {
      SumOfZeros(Init<T>(threads).pc, Open);
    } else {
      var before, a := acts[..|acts| - 1], acts[|acts| - 1];
      var s, f := Run(threads, before), TrackRun(threads, before);
      OpenTickets(threads, before);
      RunKeepsInv(threads, before);
      RunKeepsInv(threads, acts);
      if a.Consume? && a.t < threads {
        assert ThreadOk(s, f, a.t);
        OpenStep(s, f, a);
      }
    }
  }

  lemma OpenStep<T>(s: State<T>, f: seq<Fate>, a: Action<T>)
    requires a.Consume? && a.t < |s.pc| && ThreadOk(s, f, a.t) && |f| == s.optimistic
    requires |f| == Wins(f) + Losses(f) + Sum(s.pc, Open)
    ensures var s', f' := Step(s, a), Track(s, f, a); |f'| == Wins(f') + Losses(f') + Sum(s'.pc, Open)
  {
    hide Decide, Drawn, Cells, Desired, Sum, Wins, Losses;
    var pc, pc' := s.pc[a.t], Move(s, s.pc[a.t], a.mode);
    SumUpdate(s.pc, a.t, pc', Open);
    if pc.AddOptimistic? {
      CountConcat(f, seq(pc.desired, _ => Undecided(a.t)));
      CountConstant(pc.desired, Undecided(a.t));
    } else if pc.ReloadTail? {
      var won := Granted(pc.desired, pc.mine - pc.over, |s.items|);
      DecideCounts(f, a.t, pc.mine, won, pc.desired - won);
    }
  }

  /** 1 if a thread has claimed element `i` and not returned it yet. */
  function Covering(i: nat): Pc -> nat {
    (pc: Pc) => if pc.Read? && pc.first <= i < pc.first + pc.count then 1 else 0
  }

  /** How often element `i` was returned. */
  function Returns<T>(log: seq<Event<T>>, i: nat): nat {
    if log == [] then 0
    else
      var e := log[|log| - 1];
      Returns(log[..|log| - 1], i) + if e.first <= i < e.first + |e.values| then 1 else 0
  }

  /** Every element below `headIndex` is returned exactly once or is in the hands of exactly one
      thread; no other element was touched.  What is returned is what was enqueued there. */
  lemma {:induction false} DeliveredOnce<T>(threads: nat, acts: seq<Action<T>>, i: nat)
    ensures var s := Run(threads, acts);
      Returns(s.log, i) + Sum(s.pc, Covering(i)) == if i < s.head then 1 else 0
  {
    if acts == [] {
      SumOfZeros(Init<T>(threads).pc, Covering(i));
    } else {
      var before, a := acts[..|acts| - 1], acts[|acts| - 1];
      DeliveredOnce(threads, before, i);
      if a.Consume? && a.t < threads {
        DeliveryStep(Run(threads, before), a, i);
      }
    }
  }

  lemma ReturnsOneMore<T>(log: seq<Event<T>>, e: Event<T>, i: nat)
    ensures Returns(log + [e], i) == Returns(log, i) + if e.first <= i < e.first + |e.values| then 1 else 0
  {
    assert (log + [e])[..|log|] == log;
  }

  /** A claim takes over the elements from `headIndex` on. */
  lemma ClaimDelivers(pcs: seq<Pc>, t: Tid, head: nat, claim: nat, i: nat, returned: nat)
    requires t < |pcs| && pcs[t] == Claim(claim)
    requires returned + Sum(pcs, Covering(i)) == if i < head then 1 else 0
    ensures returned + Sum(pcs[t := Read(head, claim)], Covering(i)) == if i < head + claim then 1 else 0
  {
    hide Sum;
    SumUpdate(pcs, t, Read(head, claim), Covering(i));
  }

  /** A return hands on what its thread had claimed. */
  lemma ReadDelivers<T>(pcs: seq<Pc>, t: Tid, log: seq<Event<T>>, e: Event<T>, i: nat)
    requires t < |pcs| && pcs[t] == Read(e.first, |e.values|)
    ensures Returns(log + [e], i) + Sum(pcs[t := Idle], Covering(i)) == Returns(log, i) + Sum(pcs, Covering(i))
  {
    hide Sum, Returns;
    SumUpdate(pcs, t, Idle, Covering(i));
    ReturnsOneMore(log, e, i);
  }

  /** Every other step changes neither the log, nor `headIndex`, nor who holds element `i`. */
  lemma QuietStep<T>(s: State<T>, a: Action<T>, i: nat)
    requires a.Consume? && a.t < |s.pc| && !s.pc[a.t].Claim? && !s.pc[a.t].Read?
    ensures var s' := Step(s, a);
      s'.log == s.log && s'.head == s.head && Sum(s'.pc, Covering(i)) == Sum(s.pc, Covering(i))
  {
    hide Sum, Desired, Granted, Enters;
    SumUpdate(s.pc, a.t, Move(s, s.pc[a.t], a.mode), Covering(i));
  }

  lemma DeliveryStep<T>(s: State<T>, a: Action<T>, i: nat)
    requires a.Consume? && a.t < |s.pc|
    requires Returns(s.log, i) + Sum(s.pc, Covering(i)) == if i < s.head then 1 else 0
    ensures var s' := Step(s, a);
      Returns(s'.log, i) + Sum(s'.pc, Covering(i)) == if i < s'.head then 1 else 0
  {
    hide Sum, Returns, Covering, Cells;
    match s.pc[a.t]
    case Claim(claim) => ClaimDelivers(s.pc, a.t, s.head, claim, i, Returns(s.log, i));
    case Read(first, count) => ReadDelivers(s.pc, a.t, s.log, Returned(first, Cells(s.items, first, count)), i);
    case _ => QuietStep(s, a, i);
  }

  /** What the producer enqueued, read off the actions. */
  function Enqueued<T>(acts: seq<Action<T>>): seq<T> {
    if acts == [] then []
    else
      var a := acts[|acts| - 1];
      Enqueued(acts[..|acts| - 1]) + if a.Enqueue? then a.values else []
  }

  lemma {:induction false} ItemsAreEnqueued<T>(threads: nat, acts: seq<Action<T>>)
    ensures Run(threads, acts).items == Enqueued(acts)
  {
    if acts != [] {
      hide Move;
      ItemsAreEnqueued(threads, acts[..|acts| - 1]);
    }
  }

  lemma ReturnsWhatWasEnqueued<T>(threads: nat, acts: seq<Action<T>>, k: nat)
    requires k < |Run(threads, acts).log|
    ensures var s := Run(threads, acts); var e := s.log[k];
      && e.first + |e.values| <= s.head <= |s.items|
      && s.items == Enqueued(acts)
      && forall i :: 0 <= i < |e.values| ==> e.values[i] == Some(s.items[e.first + i])
  {
    ItemsAreEnqueued(threads, acts);
    RunKeepsInv(threads, acts);
    HeadBounded(Run(threads, acts), TrackRun(threads, acts));
    assert ReturnedOk(Run(threads, acts), Run(threads, acts).log[k]);
  }

  /** When every dequeue has returned, the counters agree again. */
  lemma QuiescentCounters<T>(threads: nat, acts: seq<Action<T>>)
    requires forall t :: 0 <= t < threads ==> Run(threads, acts).pc[t] == Idle
    ensures var s := Run(threads, acts); s.optimistic - s.overcommit == s.head <= |s.items|
  {
    ClaimsAreBacked(threads, acts);
    assert Run(threads, acts).pc == seq(threads, _ => Idle);
    SumOfZeros(Init<T>(threads).pc, InFlight);
  }

  /** `n` steps of thread `t` alone. */
  function Alone<T>(s: State<T>, t: Tid, mode: Mode, n: nat): State<T> {
    if n == 0 then s else Step(Alone(s, t, mode, n - 1), Consume(t, mode))
  }

  lemma AloneOneMore<T>(s: State<T>, t: Tid, mode: Mode, n: nat)
    ensures Alone(s, t, mode, n + 1) == Step(Alone(s, t, mode, n), Consume(t, mode))
  {
    hide Step;
  }

  lemma {:induction false} AloneAdds<T>(s: State<T>, t: Tid, mode: Mode, m: nat, n: nat)
    ensures Alone(Alone(s, t, mode, m), t, mode, n) == Alone(s, t, mode, m + n)
  {
    hide Step, Move, Effect;
    if n > 0 {
      AloneOneMore(s, t, mode, m + n - 1);
      AloneOneMore(Alone(s, t, mode, m), t, mode, n - 1);
      AloneAdds(s, t, mode, m, n - 1);
    }
  }

  lemma AskAlone<T>(s: State<T>, t: Tid, mode: Mode)
    requires t < |s.pc| && s.pc[t] == Idle && s.optimistic - s.overcommit == s.head < |s.items|
    ensures Alone(s, t, mode, 4)
         == s.(pc := s.pc[t := AddOptimistic(mode, Desired(mode, s.head, |s.items|), s.overcommit)])
  {
    assert Alone(s, t, mode, 1) == s.(pc := s.pc[t := LoadTail(mode)]);
    assert Alone(s, t, mode, 2) == s.(pc := s.pc[t := LoadOvercommit(mode, |s.items|)]);
    assert Alone(s, t, mode, 3) == s.(pc := s.pc[t := LoadOptimistic(mode, |s.items|, s.overcommit)]);
  }

  lemma TakeAlone<T>(s: State<T>, t: Tid, mode: Mode, count: nat)
    requires t < |s.pc| && s.pc[t] == AddOptimistic(mode, count, s.overcommit)
    requires s.optimistic - s.overcommit == s.head < s.head + 1 <= |s.items| && s.head + count <= |s.items|
    ensures Alone(s, t, mode, 4)
         == s.(pc := s.pc[t := Idle], head := s.head + count, optimistic := s.optimistic + count,
               log := s.log + [Returned(s.head, Cells(s.items, s.head, count))])
  {
    var o := s.optimistic + count;
    assert Alone(s, t, mode, 1)
        == s.(pc := s.pc[t := ReloadTail(mode, count, s.overcommit, s.optimistic)], optimistic := o);
    assert Alone(s, t, mode, 2) == s.(pc := s.pc[t := Claim(count)], optimistic := o);
    assert Alone(s, t, mode, 3) == s.(pc := s.pc[t := Read(s.head, count)], optimistic := o, head := s.head + count);
  }

  /** Without interference a dequeue gets what it asked for, as far as there is any: one element, or
      the smaller of `max` and the number of elements. */
  lemma SoloDequeueSucceeds<T>(threads: nat, acts: seq<Action<T>>, t: Tid, mode: Mode)
    requires t < threads && forall u :: 0 <= u < threads ==> Run(threads, acts).pc[u] == Idle
    requires var s := Run(threads, acts); s.head < |s.items|
    ensures var s := Run(threads, acts);
      var count := if mode.Single? then 1 else if mode.max < |s.items| - s.head then mode.max else |s.items| - s.head;
      Alone(s, t, mode, 8)
        == s.(head := s.head + count, optimistic := s.optimistic + count,
              log := s.log + [Returned(s.head, Cells(s.items, s.head, count))])
  {
    hide Alone, Sum;
    QuiescentCounters(threads, acts);
    hide Run, Step, Cells;
    var s := Run(threads, acts);
    AskAlone(s, t, mode);
    var asking := Alone(s, t, mode, 4);
    TakeAlone(asking, t, mode, Desired(mode, s.head, |s.items|));
    AloneAdds(s, t, mode, 4, 4);
    assert asking.pc[t := Idle] == s.pc;
  }

  // ---------------------------------------------------------------- what a dequeue returns

  /** What a consumer loaded in its last call: the tail, the overcommit and the optimistic count (1958-1960,
      2251-2253), the ticket it drew (1980, 2258) and the tail it then loaded (1992, 2260); and how many
      elements it returned, if any. */
  datatype Look = Look(mode: Mode, tail: nat, over: nat, seen: nat, mine: Option<nat>, again: Option<nat>,
    got: Option<nat>)

  function Looked<T>(s: State<T>, pc: Pc, mode: Mode, look: Look): Look {
    match pc
    case Idle => Look(mode, 0, 0, 0, None, None, None)
    case LoadTail(_) => look.(tail := |s.items|)
    case LoadOvercommit(_, _) => look.(over := s.overcommit)
    case LoadOptimistic(_, _, _) => look.(seen := s.optimistic)
    case AddOptimistic(_, _, _) => look.(mine := Some(s.optimistic))
    case ReloadTail(_, _, _, _) => look.(again := Some(|s.items|))
    case Read(first, count) => look.(got := Some(|Cells(s.items, first, count)|))
    case _ => look
  }

  function Looks<T>(threads: nat, acts: seq<Action<T>>): (looks: seq<Look>)
    ensures |looks| == threads
  {
    if acts == [] then seq(threads, _ => Look(Single, 0, 0, 0, None, None, None))
    else
      var before, a := acts[..|acts| - 1], acts[|acts| - 1];
      var s, looks := Run(threads, before), Looks(threads, before);
      if a.Enqueue? || a.t >= threads then looks
      else looks[a.t := Looked(s, s.pc[a.t], a.mode, looks[a.t])]
  }

  /** One element, or up to max, of those there. */
  function Wanted(mode: Mode, there: nat): nat {
    match mode
    case Single => 1
    case Bulk(max) => if there < max then there else max
  }

  /** There was no element past those already asked for. */
  predicate NothingAtFirst(look: Look) {
    look.seen - look.over >= look.tail
  }

  /** There was none at its place in line. */
  predicate NothingInLine(look: Look) {
    look.mine.Some? && look.again.Some? && look.mine.value - look.over >= look.again.value
  }

  /** What a call returns, going by what it loaded: nothing if it saw no element past those already asked
      for, neither at first nor when it knew its place in line; else what it wanted of the elements there
      both times. */
  function Result(look: Look): Option<nat> {
    if NothingAtFirst(look) || NothingInLine(look) then None
    else
      var wanted := Wanted(look.mode, look.tail - (look.seen - look.over));
      if look.mine.None? || look.again.None? then Some(wanted)
      else
        var there := look.again.value - (look.mine.value - look.over);
        Some(if wanted < there then wanted else there)
  }

  /** It saw elements and wants some of them. */
  predicate Wants(look: Look, desired: nat) {
    !NothingAtFirst(look) && desired == Wanted(look.mode, look.tail - (look.seen - look.over))
  }

  predicate LookOk(pc: Pc, look: Look) {
    match pc
    case Idle => look.got == Result(look)
    case LoadTail(m) => look.got == None && look.mode == m
    case LoadOvercommit(m, tail) => look.got == None && look.mode == m && look.tail == tail
    case LoadOptimistic(m, tail, over) =>
      look.got == None && look.mode == m && look.tail == tail && look.over == over
    case AddOptimistic(m, desired, over) => look.got == None && look.over == over && Wants(look, desired)
    case ReloadTail(m, desired, over, mine) =>
      look.got == None && look.over == over && Wants(look, desired) && look.mine == Some(mine)
    case GiveBack(claim, _) => Result(look) == Some(claim)
    case Claim(claim) => Result(look) == Some(claim)
    case Read(_, count) => Result(look) == Some(count)
    case Refuse(_) => look.got == None && Result(look) == None
  }

  lemma LookKept<T>(s: State<T>, pc: Pc, mode: Mode, look: Look)
    requires LookOk(pc, look)
    ensures LookOk(Move(s, pc, mode), Looked(s, pc, mode, look))
  {
  }

  lemma {:induction false} LooksKept<T>(threads: nat, acts: seq<Action<T>>, t: Tid)
    requires t < threads
    ensures LookOk(Run(threads, acts).pc[t], Looks(threads, acts)[t])
  {
    if acts != [] {
      hide Move, LookOk, Looked, Effect;
      var before, a := acts[..|acts| - 1], acts[|acts| - 1];
      LooksKept(threads, before, t);
      if a.Consume? && a.t == t {
        LookKept(Run(threads, before), Run(threads, before).pc[t], a.mode, Looks(threads, before)[t]);
      }
    } else {
      assert LookOk(Idle, Look(Single, 0, 0, 0, None, None, None));
    }
  }

  /** In every interleaving a dequeue returns nothing only if the index it expected was not below the tail
      it saw, and otherwise exactly as many elements as it wanted of those there. */
  lemma ReturnsWhatItSaw<T>(threads: nat, acts: seq<Action<T>>, t: Tid)
    requires t < threads && Run(threads, acts).pc[t] == Idle
    ensures var look := Looks(threads, acts)[t]; look.got == Result(look)
    ensures var look := Looks(threads, acts)[t];
      look.got == None <==> NothingAtFirst(look) || NothingInLine(look)
  {
    LooksKept(threads, acts, t);
  }

  // ---------------------------------------------------------------- 64-bit indices

  const RANGE: nat := 0x1_0000_0000_0000_0000

  function Wrap(i: int): nat {
    i % RANGE
  }

  /** `circular_less_than` on 64-bit indices (477-484). */
  predicate CircularLessThan(a: nat, b: nat) {
    (a - b) % RANGE > RANGE / 2
  }

  /** It is `<` on the true indices while these are less than half the range apart, and exactly: it
      looks only at the distance around the circle. */
  lemma CircularAgrees(a: int, b: int)
    ensures CircularLessThan(Wrap(a), Wrap(b)) <==> 0 < Wrap(b - a) < RANGE / 2
    ensures -(RANGE / 2) < b - a < RANGE / 2 ==> (CircularLessThan(Wrap(a), Wrap(b)) <==> a < b)
  {
    WrapDifference(a, b);
    WrapDifference(b, a);
  }

  lemma WrapDifference(a: int, b: int)
    ensures (Wrap(a) - Wrap(b)) % RANGE == Wrap(a - b)
  {
    var qa, qb := a / RANGE, b / RANGE;
    var r := Wrap(a) - Wrap(b);
    assert a - b == r + (qa - qb) * RANGE;
    WrapPeriod(r, qa - qb);
  }

  lemma WrapPeriod(r: int, k: int)
    ensures (r + k * RANGE) % RANGE == r % RANGE
  {
  }

  /** What the two loads and the comparison at 1960 / 2253-2255 compute on wrapped indices. */
  function WrappedDesired(mode: Mode, optimistic: nat, over: nat, tail: nat): nat {
    match mode
    case Single => if CircularLessThan((optimistic - over) % RANGE, tail) then 1 else 0
    case Bulk(max) =>
      var desired := (tail - (optimistic - over) % RANGE) % RANGE;
      if CircularLessThan(0, desired) then (if desired < max then desired else max) else 0
  }

  /** The decision on wrapped indices is the one on true indices, as long as fewer than half the
      range of elements are queued or asked for. */
  lemma WrappedDecisionAgrees(mode: Mode, optimistic: nat, over: nat, tail: nat)
    requires -(RANGE / 2) < tail - (optimistic - over) < RANGE / 2
    ensures WrappedDesired(mode, Wrap(optimistic), Wrap(over), Wrap(tail)) == Desired(mode, optimistic - over, tail)
  {
    WrapDifference(optimistic, over);
    var expected := optimistic - over;
    WrapDifference(tail, expected);
    CircularAgrees(expected, tail);
    CircularAgrees(0, tail - expected);
  }
}
