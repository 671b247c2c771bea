/** The lock-free free list of src/util/concurrentqueue.h, lines 1451-1551.

    Every atomic load, store or read-modify-write is one step of one thread, any number of threads
    run `add` and `try_get`, and a run is any interleaving of their steps.  Nodes and threads are
    numbered; `Refs(s, n)` and `Next(s, n)` are the fields `freeListRefs` and `freeListNext` of node n.
    A node starts outside the list and a client may add it only while it owns it: it has never
    been added, or it was the result of the last `try_get` that concerned it.  `log` records the
    calls to `add` and the results of `try_get`. */
module FreeList {
  import opened Sums
  import opened Wrappers

  type Node = nat
  type Tid = nat

  const SHOULD_BE_ON_FREELIST: nat := 0x8000_0000
  const UINT32: nat := 0x1_0000_0000

  /** `refs & REFS_MASK`. */
  function Masked(refs: nat): nat {
    refs % SHOULD_BE_ON_FREELIST
  }

  /** What `add_knowing_refcount_is_zero` returns to: the caller of `add`, or the loop of
      `try_get` with the value its local `head` then has. */
  datatype Cont = Done | Resume(head: Option<Node>)

  /** Where a thread is: the next atomic step it will make, with the locals it still needs. */
  datatype Pc =
    | Idle
    | AddRef(node: Node)                                          // 1467
    | LoadHead(node: Node, k: Cont)                               // 1527
    | StoreNext(node: Node, head: Option<Node>, k: Cont)          // 1529
    | StoreRefs(node: Node, head: Option<Node>, k: Cont)          // 1530
    | CasHead(node: Node, head: Option<Node>, k: Cont)            // 1531
    | Retry(node: Node, head: Option<Node>, k: Cont)              // 1533
    | GetHead                                                     // 1479, 1484
    | GetRefs(node: Node)                                         // 1482
    | CasRefs(node: Node, refs: nat)                              // 1483
    | GetNext(node: Node)                                         // 1490
    | CasPop(node: Node, link: Option<Node>)                      // 1491
    | CheckFlag(node: Node)                                       // 1494
    | DropTwo(node: Node)                                         // 1497
    | DropOne(node: Node, head: Option<Node>)                     // 1504

  datatype Event = Added(node: Node) | Got(node: Node)

  /** `refs` and `next` list the nodes whose fields were written; all others are still as the node
      constructor left them. */
  datatype State = State(
    head: Option<Node>,
    refs: map<Node, nat>,
    next: map<Node, Option<Node>>,
    pc: seq<Pc>,
    log: seq<Event>)

  function Refs(s: State, n: Node): nat {
    if n in s.refs then s.refs[n] else 0
  }

  function Next(s: State, n: Node): Option<Node> {
    if n in s.next then s.next[n] else None
  }

  /** The call an idle thread makes. */
  datatype Call = CallAdd(node: Node) | CallTryGet

  datatype Action = Action(t: Tid, call: Call)

  /** The client owns `n`: no call of `add` for it is without a later result of `try_get`. */
  predicate Owned(log: seq<Event>, n: Node) {
    if log == [] then true
    else if log[|log| - 1].node == n then log[|log| - 1].Got?
    else Owned(log[..|log| - 1], n)
  }

  function Init(threads: nat): State {
    State(None, map[], map[], seq(threads, _ => Idle), [])
  }

  /** The top of the `while (head != nullptr)` loop. */
  function LoopTop(head: Option<Node>): Pc {
    match head
    case None => Idle
    case Some(h) => GetRefs(h)
  }

  function Return(k: Cont): Pc {
    match k
    case Done => Idle
    case Resume(head) => LoopTop(head)
  }

  function SetRefs(s: State, n: Node, r: nat): State {
    s.(refs := s.refs[n := r])
  }

  /** A `fetch_add` (or, with a negative delta, `fetch_sub`) on the 32-bit counter of `n`. */
  function FetchAdd(s: State, n: Node, delta: int): State {
    SetRefs(s, n, (Refs(s, n) + delta) % UINT32)
  }

  /** The memory after thread `t` made its step, without the thread's own move. */
  function Effect(s: State, pc: Pc, call: Call): State {
    match pc
    case Idle =>
      if call.CallAdd? && Owned(s.log, call.node) then s.(log := s.log + [Added(call.node)]) else s
    case AddRef(n) => FetchAdd(s, n, SHOULD_BE_ON_FREELIST)
    case StoreNext(n, h, k) => s.(next := s.next[n := h])
    case StoreRefs(n, h, k) => SetRefs(s, n, 1)
    case CasHead(n, h, k) => if s.head == h then s.(head := Some(n)) else s
    case Retry(n, h, k) => FetchAdd(s, n, SHOULD_BE_ON_FREELIST - 1)
    case CasRefs(n, r) => if Refs(s, n) == r then FetchAdd(s, n, 1) else s
    case CasPop(n, l) => if s.head == Some(n) then s.(head := l) else s
    case DropTwo(n) => FetchAdd(s, n, -2).(log := s.log + [Got(n)])
    case DropOne(n, h) => FetchAdd(s, n, -1)
    case _ => s
  }

  /** Where the thread goes; a compare-exchange that fails reloads the expected value. */
  function Move(s: State, pc: Pc, call: Call): Pc {
    match pc
    case Idle =>
      if call.CallTryGet? then GetHead else if Owned(s.log, call.node) then AddRef(call.node) else Idle
    case AddRef(n) => if Refs(s, n) == 0 then LoadHead(n, Done) else Idle
    case LoadHead(n, k) => StoreNext(n, s.head, k)
    case StoreNext(n, h, k) => StoreRefs(n, h, k)
    case StoreRefs(n, h, k) => CasHead(n, h, k)
    case CasHead(n, h, k) => if s.head == h then Return(k) else Retry(n, s.head, k)
    case Retry(n, h, k) => if Refs(s, n) == 1 then StoreNext(n, h, k) else Return(k)
    case GetHead => LoopTop(s.head)
    case GetRefs(n) => if Masked(Refs(s, n)) == 0 then GetHead else CasRefs(n, Refs(s, n))
    case CasRefs(n, r) => if Refs(s, n) == r then GetNext(n) else GetHead
    case GetNext(n) => CasPop(n, Next(s, n))
    case CasPop(n, l) => if s.head == Some(n) then CheckFlag(n) else DropOne(n, s.head)
    case CheckFlag(n) => DropTwo(n)
    case DropTwo(n) => Idle
    case DropOne(n, h) =>
      if Refs(s, n) == SHOULD_BE_ON_FREELIST + 1 then LoadHead(n, Resume(h)) else LoopTop(h)
  }

  /** One atomic step of thread `a.t`. */
  function Step(s: State, a: Action): State {
    if a.t >= |s.pc| then s
    else Effect(s, s.pc[a.t], a.call).(pc := s.pc[a.t := Move(s, s.pc[a.t], a.call)])
  }

  /** Any interleaving: the state after the given actions. */
  function Run(threads: nat, acts: seq<Action>): (s: State)
    ensures |s.pc| == threads
  {
    if acts == [] then Init(threads) else Step(Run(threads, acts[..|acts| - 1]), acts[|acts| - 1])
  }

  // ---------------------------------------------------------------- the invariant

  /** Thread state `pc` keeps a counted reference to `n`. */
  predicate Holds(pc: Pc, n: Node) {
    (pc.GetNext? || pc.CasPop? || pc.CheckFlag? || pc.DropTwo? || pc.DropOne?) && pc.node == n
  }

  function Holding(n: Node): Pc -> nat {
    (pc: Pc) => if Holds(pc, n) then 1 else 0
  }

  function Holders(pcs: seq<Pc>, n: Node): nat {
    Sum(pcs, Holding(n))
  }

  /** What a thread state means for the node it works on. */
  datatype Role =
    | Flagging     // adding: the flag is up and nobody holds a reference
    | Announced    // adding: the flag is not up yet
    | Listing      // adding: holds the reference the list will have
    | Popping      // took it off the list, still holding the list's reference
    | NoRole

  function RoleOf(pc: Pc): Role {
    match pc
    case AddRef(_) => Announced
    case LoadHead(_, _) => Flagging
    case StoreNext(_, _, _) => Flagging
    case StoreRefs(_, _, _) => Flagging
    case CasHead(_, _, _) => Listing
    case Retry(_, _, _) => Listing
    case CheckFlag(_) => Popping
    case DropTwo(_) => Popping
    case _ => NoRole
  }

  /** Who is responsible for a node. */
  datatype Place =
    | Client                   // outside the list
    | By(t: Tid, role: Role)   // one thread is adding it or has just popped it
    | Listed                   // on the list
    | Flagged                  // flagged: whoever drops the last reference adds it

  /** The abstract list and the nodes' places: what the concrete fields are proved to encode. */
  datatype Ghosts = Ghosts(list: seq<Node>, places: map<Node, Place>) {
    function At(n: Node): Place {
      if n in places then places[n] else Client
    }
  }

  predicate Chain(s: State, head: Option<Node>, list: seq<Node>)
    decreases list
  {
    if list == [] then head == None
    else head == Some(list[0]) && Chain(s, Next(s, list[0]), list[1..])
  }

  predicate Distinct(list: seq<Node>) {
    forall i, j :: 0 <= i < j < |list| ==> list[i] != list[j]
  }

  /** The value of `freeListRefs`: the flag, the list's reference and the holders'. */
  function Count(p: Place, holders: nat): nat {
    holders
    + (if p == Flagged || (p.By? && p.role == Flagging) then SHOULD_BE_ON_FREELIST else 0)
    + (if p == Listed || (p.By? && (p.role == Listing || p.role == Popping)) then 1 else 0)
  }

  ghost predicate NodeOk(s: State, g: Ghosts, n: Node) {
    var p := g.At(n);
    && (n in g.list <==> p == Listed)
    && (p == Client <==> Owned(s.log, n))
    && (p.By? ==> p.t < |s.pc| && p.role != NoRole && RoleOf(s.pc[p.t]) == p.role && s.pc[p.t].node == n)
    && Refs(s, n) == Count(p, Holders(s.pc, n))
    && (p == Flagged ==> Holders(s.pc, n) > 0)
    && (p.By? && p.role == Flagging ==> Holders(s.pc, n) == 0)
  }

  predicate ThreadOk(s: State, g: Ghosts, t: Tid)
    requires t < |s.pc|
  {
    var pc := s.pc[t];
    && (RoleOf(pc) != NoRole ==> g.At(pc.node) == By(t, RoleOf(pc)))
    && (pc.StoreRefs? || pc.CasHead? ==> Next(s, pc.node) == pc.head)
    && (pc.CasPop? ==> Next(s, pc.node) == pc.link)
    && (pc.CasRefs? ==> Masked(pc.refs) != 0)
  }

  ghost predicate Inv(s: State, g: Ghosts) {
    && |s.pc| < SHOULD_BE_ON_FREELIST - 1
    && Distinct(g.list)
    && Chain(s, s.head, g.list)
    && (forall n :: NodeOk(s, g, n))
    && (forall t :: 0 <= t < |s.pc| ==> ThreadOk(s, g, t))
  }

  function Put(g: Ghosts, n: Node, p: Place): Ghosts {
    g.(places := g.places[n := p])
  }

  /** How one step moves the abstract list and the places. */
  function Track(s: State, g: Ghosts, a: Action): Ghosts {
    var t := a.t;
    if t >= |s.pc| then g else
    match s.pc[t]
    case Idle => if a.call.CallAdd? && Owned(s.log, a.call.node) then Put(g, a.call.node, By(t, Announced)) else g
    case AddRef(n) => Put(g, n, if Refs(s, n) == 0 then By(t, Flagging) else Flagged)
    case StoreRefs(n, h, k) => Put(g, n, By(t, Listing))
    case CasHead(n, h, k) => if s.head == h then Put(g, n, Listed).(list := [n] + g.list) else g
    case Retry(n, h, k) => Put(g, n, if Refs(s, n) == 1 then By(t, Flagging) else Flagged)
    case CasPop(n, l) =>
      if s.head == Some(n) && g.list != [] then Put(g, n, By(t, Popping)).(list := g.list[1..]) else g
    case DropTwo(n) => Put(g, n, Client)
    case DropOne(n, h) =>
      if Refs(s, n) == SHOULD_BE_ON_FREELIST + 1 then Put(g, n, By(t, Flagging)) else g
    case _ => g
  }

  lemma {:induction false} ChainFrame(s: State, s': State, head: Option<Node>, list: seq<Node>)
    requires Chain(s, head, list)
    requires forall n <- list :: Next(s', n) == Next(s, n)
    ensures Chain(s', head, list)
    decreases list
  {
    if list != [] {
      ChainFrame(s, s', Next(s, list[0]), list[1..]);
    }
  }

  /** The node a thread's step is about. */
  function Subject(pc: Pc, call: Call): Option<Node> {
    match pc
    case Idle => if call.CallAdd? then Some(call.node) else None
    case GetHead => None
    case _ => Some(pc.node)
  }

  /** A step leaves every other node as it is. */
  lemma OtherNodeKept(s: State, g: Ghosts, a: Action, n: Node)
    requires a.t < |s.pc| && ThreadOk(s, g, a.t)
    requires NodeOk(s, g, n) && Subject(s.pc[a.t], a.call) != Some(n)
    requires PoppedIsFirst(s, g, a.t)
    ensures NodeOk(Step(s, a), Track(s, g, a), n)
  {
    SumUpdate(s.pc, a.t, Move(s, s.pc[a.t], a.call), Holding(n));
    OtherNodeUntouched(s, g, a, n);
  }

  lemma OtherNodeUntouched(s: State, g: Ghosts, a: Action, n: Node)
    requires a.t < |s.pc| && Subject(s.pc[a.t], a.call) != Some(n)
    requires PoppedIsFirst(s, g, a.t)
    ensures var s', g' := Step(s, a), Track(s, g, a);
      && g'.At(n) == g.At(n) && Refs(s', n) == Refs(s, n) && Next(s', n) == Next(s, n)
      && (n in g'.list <==> n in g.list) && Owned(s'.log, n) == Owned(s.log, n)
      && !Holds(s.pc[a.t], n) && !Holds(s'.pc[a.t], n)
  {
    MemoryElsewhere(s, s.pc[a.t], a.call, n);
    TrackElsewhere(s, g, a, n);
  }

  lemma MemoryElsewhere(s: State, pc: Pc, call: Call, n: Node)
    requires Subject(pc, call) != Some(n)
    ensures var s' := Effect(s, pc, call);
      && Refs(s', n) == Refs(s, n) && Next(s', n) == Next(s, n) && Owned(s'.log, n) == Owned(s.log, n)
    ensures !Holds(Move(s, pc, call), n)
  {
  }

  lemma TrackElsewhere(s: State, g: Ghosts, a: Action, n: Node)
    requires a.t < |s.pc| && Subject(s.pc[a.t], a.call) != Some(n) && PoppedIsFirst(s, g, a.t)
    ensures var g' := Track(s, g, a); g'.At(n) == g.At(n) && (n in g'.list <==> n in g.list)
  {
  }

  /** A compare-exchange that would take `node` off the list finds it at the front. */
  predicate PoppedIsFirst(s: State, g: Ghosts, t: Tid)
    requires t < |s.pc|
  {
    s.pc[t].CasPop? && s.head == Some(s.pc[t].node) ==>
      g.list != [] && g.list[0] == s.pc[t].node && Distinct(g.list)
  }

  /** The step's own node: a step that writes no count and moves no node. */
  lemma QuietStepKept(s: State, g: Ghosts, a: Action, n: Node)
    requires a.t < |s.pc| < SHOULD_BE_ON_FREELIST - 1 && ThreadOk(s, g, a.t) && NodeOk(s, g, n)
    requires (s.pc[a.t].LoadHead? || s.pc[a.t].StoreNext?
              || s.pc[a.t].GetRefs? || s.pc[a.t].GetNext? || s.pc[a.t].CheckFlag?) && s.pc[a.t].node == n
    ensures NodeOk(Step(s, a), Track(s, g, a), n)
  {
    hide Return, LoopTop, Owned;
    SumUpdate(s.pc, a.t, Move(s, s.pc[a.t], a.call), Holding(n));
    SumBound(s.pc, Holding(n));
  }

  /** The step's own node: a `fetch_add` that raises the flag, by a first `add` or after a lost race for the head. */
  lemma FlaggingKept(s: State, g: Ghosts, a: Action, n: Node)
    requires a.t < |s.pc| < SHOULD_BE_ON_FREELIST - 1 && ThreadOk(s, g, a.t) && NodeOk(s, g, n)
    requires (s.pc[a.t].AddRef? || s.pc[a.t].Retry?) && s.pc[a.t].node == n
    ensures NodeOk(Step(s, a), Track(s, g, a), n)
  {
    hide Sum, Owned;
    SumUpdate(s.pc, a.t, Move(s, s.pc[a.t], a.call), Holding(n));
    SumBound(s.pc, Holding(n));
  }

  /** The step's own node: taking the list's reference, and the compare-exchange that publishes it. */
  lemma ListingKept(s: State, g: Ghosts, a: Action, n: Node)
    requires a.t < |s.pc| < SHOULD_BE_ON_FREELIST - 1 && ThreadOk(s, g, a.t) && NodeOk(s, g, n)
    requires (s.pc[a.t].StoreRefs? || s.pc[a.t].CasHead?) && s.pc[a.t].node == n
    ensures NodeOk(Step(s, a), Track(s, g, a), n)
  {
    SumUpdate(s.pc, a.t, Move(s, s.pc[a.t], a.call), Holding(n));
    SumBound(s.pc, Holding(n));
  }

  /** The step's own node: taking a counted reference. */
  lemma HoldingKept(s: State, g: Ghosts, a: Action, n: Node)
    requires a.t < |s.pc| < SHOULD_BE_ON_FREELIST - 1 && ThreadOk(s, g, a.t) && NodeOk(s, g, n)
    requires s.pc[a.t].CasRefs? && s.pc[a.t].node == n
    ensures NodeOk(Step(s, a), Track(s, g, a), n)
  {
    hide Sum, Owned;
    SumUpdate(s.pc, a.t, Move(s, s.pc[a.t], a.call), Holding(n));
    SumBound(s.pc, Holding(n));
  }

  /** The step's own node: the compare-exchange that takes the node off the list. */
  lemma PoppingKept(s: State, g: Ghosts, a: Action, n: Node)
    requires a.t < |s.pc| < SHOULD_BE_ON_FREELIST - 1 && ThreadOk(s, g, a.t) && NodeOk(s, g, n)
    requires s.pc[a.t].CasPop? && s.pc[a.t].node == n
    requires PoppedIsFirst(s, g, a.t)
    ensures NodeOk(Step(s, a), Track(s, g, a), n)
  {
    SumUpdate(s.pc, a.t, Move(s, s.pc[a.t], a.call), Holding(n));
    SumBound(s.pc, Holding(n));
  }

  /** The step's own node: dropping both references and handing the node to the caller. */
  lemma HandingOutKept(s: State, g: Ghosts, a: Action, n: Node)
    requires a.t < |s.pc| < SHOULD_BE_ON_FREELIST - 1 && ThreadOk(s, g, a.t) && NodeOk(s, g, n)
    requires s.pc[a.t].DropTwo? && s.pc[a.t].node == n
    ensures NodeOk(Step(s, a), Track(s, g, a), n)
  {
    SumUpdate(s.pc, a.t, Move(s, s.pc[a.t], a.call), Holding(n));
    SumBound(s.pc, Holding(n));
  }

  /** The step's own node: dropping one reference, perhaps the last one of a flagged node. */
  lemma DroppingKept(s: State, g: Ghosts, a: Action, n: Node)
    requires a.t < |s.pc| < SHOULD_BE_ON_FREELIST - 1 && ThreadOk(s, g, a.t) && NodeOk(s, g, n)
    requires s.pc[a.t].DropOne? && s.pc[a.t].node == n
    ensures NodeOk(Step(s, a), Track(s, g, a), n)
  {
    hide Sum, Owned;
    SumUpdate(s.pc, a.t, Move(s, s.pc[a.t], a.call), Holding(n));
    SumBound(s.pc, Holding(n));
  }

  /** The step's own node: an idle thread calls `add` or `try_get`. */
  lemma CallKept(s: State, g: Ghosts, a: Action, n: Node)
    requires a.t < |s.pc| && NodeOk(s, g, n)
    requires s.pc[a.t].Idle? && Subject(s.pc[a.t], a.call) == Some(n)
    ensures NodeOk(Step(s, a), Track(s, g, a), n)
  {
    SumUpdate(s.pc, a.t, Move(s, s.pc[a.t], a.call), Holding(n));
  }

  lemma NodesKept(s: State, g: Ghosts, a: Action, n: Node)
    requires Inv(s, g) && a.t < |s.pc|
    ensures NodeOk(Step(s, a), Track(s, g, a), n)
  {
    var pc := s.pc[a.t];
    assert ThreadOk(s, g, a.t) && NodeOk(s, g, n);
    if Subject(pc, a.call) != Some(n) {
      OtherNodeKept(s, g, a, n);
    } else {
      match pc
      case Idle => CallKept(s, g, a, n);
      case AddRef(_) => FlaggingKept(s, g, a, n);
      case Retry(_, _, _) => FlaggingKept(s, g, a, n);
      case StoreRefs(_, _, _) => ListingKept(s, g, a, n);
      case CasHead(_, _, _) => ListingKept(s, g, a, n);
      case CasRefs(_, _) => HoldingKept(s, g, a, n);
      case CasPop(_, _) => PoppingKept(s, g, a, n);
      case DropTwo(_) => HandingOutKept(s, g, a, n);
      case DropOne(_, _) => DroppingKept(s, g, a, n);
      case _ => QuietStepKept(s, g, a, n);
    }
  }

  /** No step disturbs the node another thread is responsible for. */
  lemma ResponsibilityKept(s: State, g: Ghosts, a: Action, u: Tid, n: Node)
    requires a.t < |s.pc| && ThreadOk(s, g, a.t) && NodeOk(s, g, n) && PoppedIsFirst(s, g, a.t)
    requires g.At(n).By? && g.At(n).t == u != a.t && |s.pc| < SHOULD_BE_ON_FREELIST - 1
    ensures Track(s, g, a).At(n) == g.At(n)
  {
    if Subject(s.pc[a.t], a.call) != Some(n) {
      TrackElsewhere(s, g, a, n);
    } else {
      SumUpdate(s.pc, a.t, s.pc[a.t], Holding(n));
      SumBound(s.pc, Holding(n));
    }
  }

  /** `freeListNext` of a node never changes under another thread that is listing it or holds a
      counted reference to it. */
  lemma NextKept(s: State, g: Ghosts, a: Action, u: Tid, n: Node)
    requires a.t < |s.pc| && u < |s.pc| && u != a.t
    requires ThreadOk(s, g, a.t) && NodeOk(s, g, n)
    requires Holds(s.pc[u], n) || (g.At(n).By? && g.At(n).t == u)
    ensures Next(Step(s, a), n) == Next(s, n)
  {
    SumUpdate(s.pc, u, s.pc[u], Holding(n));
  }

  lemma ThreadsKept(s: State, g: Ghosts, a: Action, u: Tid)
    requires Inv(s, g) && a.t < |s.pc| && u < |s.pc|
    ensures ThreadOk(Step(s, a), Track(s, g, a), u)
  {
    assert ThreadOk(s, g, a.t) && ThreadOk(s, g, u);
    if u == a.t {
      OwnThreadKept(s, g, a);
    } else {
      var pc := s.pc[u];
      if RoleOf(pc) != NoRole {
        assert NodeOk(s, g, pc.node);
        ResponsibilityKept(s, g, a, u, pc.node);
        NextKept(s, g, a, u, pc.node);
      } else if pc.CasPop? {
        assert NodeOk(s, g, pc.node);
        NextKept(s, g, a, u, pc.node);
      }
    }
  }

  lemma OwnThreadKept(s: State, g: Ghosts, a: Action)
    requires a.t < |s.pc| && ThreadOk(s, g, a.t) && PoppedIsFirst(s, g, a.t)
    ensures ThreadOk(Step(s, a), Track(s, g, a), a.t)
  {
  }

  /** Nodes on the list keep their successor. */
  lemma ListedNextKept(s: State, g: Ghosts, a: Action, n: Node)
    requires a.t < |s.pc| && ThreadOk(s, g, a.t) && NodeOk(s, g, n) && n in g.list
    ensures Next(Step(s, a), n) == Next(s, n)
  {
  }

  lemma Pushed(s: State, g: Ghosts, a: Action)
    requires a.t < |s.pc| && ThreadOk(s, g, a.t) && s.pc[a.t].CasHead? && NodeOk(s, g, s.pc[a.t].node)
    requires Distinct(g.list) && Chain(Step(s, a), s.head, g.list)
    ensures var s', g' := Step(s, a), Track(s, g, a); Distinct(g'.list) && Chain(s', s'.head, g'.list)
  {
    var n := s.pc[a.t].node;
    assert ([n] + g.list)[1..] == g.list;
  }

  lemma ChainSplits(s: State, head: Option<Node>, list: seq<Node>)
    requires Chain(s, head, list) && head.Some?
    ensures list != [] && head == Some(list[0]) && Chain(s, Next(s, list[0]), list[1..])
  {
  }

  lemma Popped(s: State, g: Ghosts, a: Action)
    requires a.t < |s.pc| && ThreadOk(s, g, a.t) && s.pc[a.t].CasPop?
    requires Distinct(g.list) && Chain(s, s.head, g.list) && Chain(Step(s, a), s.head, g.list)
    ensures var s', g' := Step(s, a), Track(s, g, a); Distinct(g'.list) && Chain(s', s'.head, g'.list)
  {
    hide Distinct, RoleOf, Masked, Owned, Chain;
    DistinctRest(g.list);
    if s.head.Some? {
      ChainSplits(s, s.head, g.list);
      ChainSplits(Step(s, a), s.head, g.list);
    }
  }

  lemma DistinctRest(list: seq<Node>)
    requires Distinct(list)
    ensures list != [] ==> Distinct(list[1..])
  {
  }

  lemma ListKept(s: State, g: Ghosts, a: Action)
    requires Inv(s, g) && a.t < |s.pc|
    ensures var s', g' := Step(s, a), Track(s, g, a); Distinct(g'.list) && Chain(s', s'.head, g'.list)
  {
    var s' := Step(s, a);
    assert ThreadOk(s, g, a.t);
    forall n <- g.list ensures Next(s', n) == Next(s, n) {
      assert NodeOk(s, g, n);
      ListedNextKept(s, g, a, n);
    }
    ChainFrame(s, s', s.head, g.list);
    if s.pc[a.t].CasHead? {
      assert NodeOk(s, g, s.pc[a.t].node);
      Pushed(s, g, a);
    } else if s.pc[a.t].CasPop? {
      Popped(s, g, a);
    }
  }

  lemma StepKeepsInv(s: State, g: Ghosts, a: Action)
    requires Inv(s, g)
    ensures Inv(Step(s, a), Track(s, g, a))
  {
    if a.t < |s.pc| {
      forall n ensures NodeOk(Step(s, a), Track(s, g, a), n) {
        NodesKept(s, g, a, n);
      }
      forall u | 0 <= u < |s.pc| ensures ThreadOk(Step(s, a), Track(s, g, a), u) {
        ThreadsKept(s, g, a, u);
      }
      ListKept(s, g, a);
    }
  }

  // ---------------------------------------------------------------- every run

  function TrackRun(threads: nat, acts: seq<Action>): Ghosts {
    if acts == [] then Ghosts([], map[])
    else
      var before := acts[..|acts| - 1];
      Track(Run(threads, before), TrackRun(threads, before), acts[|acts| - 1])
  }

  /** The counts fit: fewer threads than the 31 bits of the reference count can hold. */
  predicate FewThreads(threads: nat) {
    threads < SHOULD_BE_ON_FREELIST - 1
  }

  lemma {:induction false} RunKeepsInv(threads: nat, acts: seq<Action>)
    requires FewThreads(threads)
    ensures Inv(Run(threads, acts), TrackRun(threads, acts))
  {
    if acts == [] {
      forall n: Node ensures NodeOk(Init(threads), Ghosts([], map[]), n) {
        SumOfZeros(Init(threads).pc, Holding(n));
      }
    } else {
      RunKeepsInv(threads, acts[..|acts| - 1]);
      StepKeepsInv(Run(threads, acts[..|acts| - 1]), TrackRun(threads, acts[..|acts| - 1]), acts[|acts| - 1]);
    }
  }

  /** Each result of `try_get` hands out a node that was added and not handed out since, and each
      node is added only while it is outside. */
  predicate Alternates(log: seq<Event>) {
    forall i :: 0 <= i < |log| ==> (log[i].Got? <==> !Owned(log[..i], log[i].node))
  }

  lemma AlternatesOneMore(log: seq<Event>, e: Event)
    requires Alternates(log) && (e.Got? <==> !Owned(log, e.node))
    ensures Alternates(log + [e])
  {
    hide Owned;
    var log' := log + [e];
    assert log'[..|log|] == log;
    forall i | 0 <= i < |log'| ensures log'[i].Got? <==> !Owned(log'[..i], log'[i].node) {
      if i < |log| {
        assert log'[..i] == log[..i];
      }
    }
  }

  /** The client owns a node added, and does not own a node handed out. */
  lemma StepAlternates(s: State, g: Ghosts, a: Action)
    requires a.t < |s.pc| && ThreadOk(s, g, a.t) && Alternates(s.log)
    requires s.pc[a.t].DropTwo? ==> NodeOk(s, g, s.pc[a.t].node)
    ensures Alternates(Step(s, a).log)
  {
    hide Alternates, Owned, Holders, Count;
    match s.pc[a.t]
    case Idle =>
      if a.call.CallAdd? && Owned(s.log, a.call.node) {
        AlternatesOneMore(s.log, Added(a.call.node));
      }
    case DropTwo(n) => AlternatesOneMore(s.log, Got(n));
    case _ =>
  }

  /** Exclusivity, over every run. */
  lemma {:induction false} HandedOutOnce(threads: nat, acts: seq<Action>)
    requires FewThreads(threads)
    ensures Alternates(Run(threads, acts).log)
  {
    hide ThreadOk, NodeOk, Owned;
    if acts != [] {
      var before, a := acts[..|acts| - 1], acts[|acts| - 1];
      HandedOutOnce(threads, before);
      RunKeepsInv(threads, before);
      if a.t < threads {
        StepAlternates(Run(threads, before), TrackRun(threads, before), a);
      }
    }
  }

  /** The same in terms of the calls: between two `try_get`s that return a node there is a call of
      `add` for it, and between two calls of `add` for it a `try_get` that returned it. */
  lemma AddedBetween(threads: nat, acts: seq<Action>, i: nat, j: nat)
    requires FewThreads(threads)
    requires var log := Run(threads, acts).log;
      i < j < |log| && log[i].node == log[j].node && log[i].Got? == log[j].Got?
    ensures var log := Run(threads, acts).log;
      exists k :: i < k < j && log[k].node == log[i].node && log[k].Got? != log[i].Got?
  {
    HandedOutOnce(threads, acts);
    var log := Run(threads, acts).log;
    SomethingBetween(log[..j], i);
    var k :| i < k < j && log[..j][k].node == log[i].node && log[..j][k].Got? != log[i].Got?;
    assert log[k].node == log[i].node && log[k].Got? != log[i].Got?;
  }

  /** If ownership is not what the event at `i` left, a later event changed it. */
  lemma {:induction false} SomethingBetween(log: seq<Event>, i: nat)
    requires i < |log| && Owned(log, log[i].node) != log[i].Got?
    ensures exists k :: i < k < |log| && log[k].node == log[i].node && log[k].Got? != log[i].Got?
  {
    var last := |log| - 1;
    if log[last].node != log[i].node || last == i {
      assert last != i;
      SomethingBetween(log[..last], i);
      var k :| i < k < last && log[..last][k].node == log[i].node && log[..last][k].Got? != log[i].Got?;
      assert log[k].node == log[i].node;
    }
  }

  /** The assertion at line 1494 never fails. */
  lemma PoppedNodeIsNotFlagged(threads: nat, acts: seq<Action>, t: Tid)
    requires FewThreads(threads) && t < threads && Run(threads, acts).pc[t].CheckFlag?
    ensures var s := Run(threads, acts); Refs(s, s.pc[t].node) < SHOULD_BE_ON_FREELIST
  {
    RunKeepsInv(threads, acts);
    var s, g := Run(threads, acts), TrackRun(threads, acts);
    var n := s.pc[t].node;
    assert ThreadOk(s, g, t) && NodeOk(s, g, n);
    SumBound(s.pc, Holding(n));
  }

  /** The head is always the front of an acyclic list, and when the compare-exchange at line 1491
      succeeds the head moves to the popped node's true successor: the list loses exactly its first
      node. */
  lemma PopInstallsSuccessor(threads: nat, acts: seq<Action>, t: Tid, call: Call)
    requires FewThreads(threads) && t < threads
    ensures var s, list := Run(threads, acts), TrackRun(threads, acts).list;
      && Chain(s, s.head, list) && Distinct(list)
      && (s.pc[t].CasPop? && s.head == Some(s.pc[t].node) ==>
            && list != [] && list[0] == s.pc[t].node
            && var s' := Step(s, Action(t, call)); Chain(s', s'.head, list[1..]))
  {
    RunKeepsInv(threads, acts);
    var s, g := Run(threads, acts), TrackRun(threads, acts);
    assert ThreadOk(s, g, t);
    if s.pc[t].CasPop? && s.head == Some(s.pc[t].node) {
      ListKept(s, g, Action(t, call));
    }
  }

  /** While any thread holds a counted reference to a node, no step of any thread changes the
      node's `freeListNext`. */
  lemma HeldNextIsStable(threads: nat, acts: seq<Action>, a: Action, u: Tid, n: Node)
    requires FewThreads(threads) && u < threads
    requires Holds(Run(threads, acts).pc[u], n)
    ensures Next(Step(Run(threads, acts), a), n) == Next(Run(threads, acts), n)
  {
    RunKeepsInv(threads, acts);
    var s, g := Run(threads, acts), TrackRun(threads, acts);
    if a.t < threads && a.t != u {
      assert ThreadOk(s, g, a.t) && NodeOk(s, g, n);
      NextKept(s, g, a, u, n);
    }
  }

  /** Exactly what the reference count of a node is, and that nothing is lost: a node the clients do
      not own is on the list, or one thread is adding it or handing it out, or it is flagged while
      some thread still holds a reference that it must drop. */
  lemma NothingIsLost(threads: nat, acts: seq<Action>, n: Node)
    requires FewThreads(threads)
    ensures var s, g := Run(threads, acts), TrackRun(threads, acts);
      && Refs(s, n) == Count(g.At(n), Holders(s.pc, n)) <= SHOULD_BE_ON_FREELIST + threads
      && (Owned(s.log, n) <==> g.At(n) == Client)
      && (g.At(n) == Listed <==> n in g.list)
      && (g.At(n).By? ==> g.At(n).t < threads && RoleOf(s.pc[g.At(n).t]) == g.At(n).role != NoRole
                          && s.pc[g.At(n).t].node == n)
      && (g.At(n) == Flagged ==> exists u :: 0 <= u < threads && Holds(s.pc[u], n))
  {
    RunKeepsInv(threads, acts);
    var s, g := Run(threads, acts), TrackRun(threads, acts);
    assert NodeOk(s, g, n);
    SumBound(s.pc, Holding(n));
    if Holders(s.pc, n) > 0 {
      SomeTerm(s.pc, Holding(n));
    }
  }

  /** When every call has returned, the nodes on the list are exactly the ones added and not handed
      out again; their count is one, every other count is zero. */
  lemma QuiescentListIsComplete(threads: nat, acts: seq<Action>)
    requires FewThreads(threads)
    requires forall t :: 0 <= t < threads ==> Run(threads, acts).pc[t].Idle?
    ensures var s := Run(threads, acts);
      exists list :: Chain(s, s.head, list) && Distinct(list)
        && forall n :: (n in list <==> !Owned(s.log, n)) && Refs(s, n) == (if n in list then 1 else 0)
  {
    RunKeepsInv(threads, acts);
    var s, g := Run(threads, acts), TrackRun(threads, acts);
    forall n
      ensures (n in g.list <==> !Owned(s.log, n)) && Refs(s, n) == (if n in g.list then 1 else 0)
    {
      assert NodeOk(s, g, n);
      if Holders(s.pc, n) > 0 {
        SomeTerm(s.pc, Holding(n));
      }
    }
  }

  // ---------------------------------------------------------------- one thread alone

  /** Thread `t` makes n steps while all others stand still. */
  function Alone(s: State, t: Tid, call: Call, n: nat): State {
    if n == 0 then s else Step(Alone(s, t, call, n - 1), Action(t, call))
  }

  function Steps(t: Tid, call: Call, n: nat): seq<Action> {
    seq(n, _ => Action(t, call))
  }

  lemma AloneOneMore(s: State, t: Tid, call: Call, n: nat)
    ensures Alone(s, t, call, 0) == s && Alone(s, t, call, n + 1) == Step(Alone(s, t, call, n), Action(t, call))
  {
  }

  lemma {:induction false} AloneIsRun(threads: nat, acts: seq<Action>, t: Tid, call: Call, n: nat)
    ensures Run(threads, acts + Steps(t, call, n)) == Alone(Run(threads, acts), t, call, n)
  {
    hide Step;
    if n == 0 {
      assert acts + Steps(t, call, 0) == acts;
    } else {
      AloneIsRun(threads, acts, t, call, n - 1);
      var all := acts + Steps(t, call, n);
      assert all[..|all| - 1] == acts + Steps(t, call, n - 1);
    }
  }

  lemma {:induction false} AloneAdds(s: State, t: Tid, call: Call, m: nat, n: nat)
    ensures Alone(Alone(s, t, call, m), t, call, n) == Alone(s, t, call, m + n)
  {
    hide Alone, Step;
    AloneOneMore(s, t, call, m);
    AloneOneMore(Alone(s, t, call, m), t, call, n);
    if n > 0 {
      AloneOneMore(s, t, call, m + n - 1);
      AloneOneMore(Alone(s, t, call, m), t, call, n - 1);
      AloneAdds(s, t, call, m, n - 1);
    }
  }

  lemma TwoSteps(s: State, t: Tid, call: Call)
    ensures Alone(s, t, call, 2) == Step(Step(s, Action(t, call)), Action(t, call))
  {
    hide Step, Alone;
    AloneOneMore(s, t, call, 0);
    AloneOneMore(s, t, call, 1);
  }

  /** The head of the list has the list's reference, and room for one more. */
  lemma HeadIsCounted(s: State, g: Ghosts)
    requires Inv(s, g)
    ensures s.head.None? <==> g.list == []
    ensures s.head.Some? ==> s.head == Some(g.list[0]) && 1 <= Refs(s, g.list[0]) < SHOULD_BE_ON_FREELIST
  {
    if g.list != [] {
      assert NodeOk(s, g, g.list[0]);
      SumBound(s.pc, Holding(g.list[0]));
    }
  }

  lemma ReadHeadAlone(s: State, t: Tid, n: Node)
    requires t < |s.pc| && s.pc[t].Idle? && s.head == Some(n)
    ensures Alone(s, t, CallTryGet, 2) == s.(pc := s.pc[t := GetRefs(n)])
  {
    hide Alone, Owned;
    TwoSteps(s, t, CallTryGet);
  }

  lemma CountAlone(s: State, t: Tid, n: Node, call: Call)
    requires t < |s.pc| && s.pc[t] == GetRefs(n) && 1 <= Refs(s, n) < SHOULD_BE_ON_FREELIST
    ensures Alone(s, t, call, 2) == s.(pc := s.pc[t := GetNext(n)], refs := s.refs[n := Refs(s, n) + 1])
  {
    hide Alone, Owned;
    TwoSteps(s, t, call);
  }

  lemma UnlinkAlone(s: State, t: Tid, n: Node, call: Call)
    requires t < |s.pc| && s.pc[t] == GetNext(n) && s.head == Some(n)
    ensures Alone(s, t, call, 2) == s.(pc := s.pc[t := CheckFlag(n)], head := Next(s, n))
  {
    hide Alone, Owned;
    TwoSteps(s, t, call);
  }

  lemma TakeAlone(s: State, t: Tid, n: Node, call: Call)
    requires t < |s.pc| && s.pc[t] == CheckFlag(n) && 2 <= Refs(s, n) <= SHOULD_BE_ON_FREELIST
    ensures Alone(s, t, call, 2)
      == s.(pc := s.pc[t := Idle], refs := s.refs[n := Refs(s, n) - 2], log := s.log + [Got(n)])
  {
    hide Alone, Owned;
    TwoSteps(s, t, call);
  }

  /** A `try_get` that no other thread interrupts takes the first node off the list, whatever the others
      were doing when they stopped. */
  lemma TryGetAlone(s: State, g: Ghosts, t: Tid)
    requires Inv(s, g) && t < |s.pc| && s.pc[t].Idle? && g.list != []
    ensures var n := g.list[0];
      && s.head == Some(n) && Refs(s, n) >= 1
      && Alone(s, t, CallTryGet, 8)
         == s.(head := Next(s, n), refs := s.refs[n := Refs(s, n) - 1], log := s.log + [Got(n)])
  {
    hide Alone, Step, Inv;
    HeadIsCounted(s, g);
    var n := g.list[0];
    ReadHeadAlone(s, t, n);
    var s2 := Alone(s, t, CallTryGet, 2);
    CountAlone(s2, t, n, CallTryGet);
    var s4 := Alone(s2, t, CallTryGet, 2);
    UnlinkAlone(s4, t, n, CallTryGet);
    var s6 := Alone(s4, t, CallTryGet, 2);
    TakeAlone(s6, t, n, CallTryGet);
    AloneAdds(s, t, CallTryGet, 2, 2);
    AloneAdds(s, t, CallTryGet, 4, 2);
    AloneAdds(s, t, CallTryGet, 6, 2);
    assert Alone(s6, t, CallTryGet, 2).pc == s.pc;
  }

  /** From any state of any run: a call of `try_get` that runs alone returns the node at the head, and
      nothing exactly if there is none. */
  lemma SoloTryGetTakesHead(threads: nat, acts: seq<Action>, t: Tid)
    requires FewThreads(threads) && t < threads && Run(threads, acts).pc[t].Idle?
    ensures var s := Run(threads, acts);
      match s.head
      case Some(n) =>
        var s' := Run(threads, acts + Steps(t, CallTryGet, 8));
        s'.pc == s.pc && s'.log == s.log + [Got(n)] && s'.head == Next(s, n)
      case None => Run(threads, acts + Steps(t, CallTryGet, 2)) == s
  {
    hide Alone, Inv, Run, Owned;
    var s, g := Run(threads, acts), TrackRun(threads, acts);
    RunKeepsInv(threads, acts);
    HeadIsCounted(s, g);
    if s.head.Some? {
      AloneIsRun(threads, acts, t, CallTryGet, 8);
      TryGetAlone(s, g, t);
    } else {
      AloneIsRun(threads, acts, t, CallTryGet, 2);
      TwoSteps(s, t, CallTryGet);
      assert Step(Step(s, Action(t, CallTryGet)), Action(t, CallTryGet)).pc == s.pc;
    }
  }

  /** What `add` works on: nobody holds a reference, so the count is zero; or somebody does. */
  lemma AddedIsCounted(s: State, g: Ghosts, n: Node)
    requires Inv(s, g) && Owned(s.log, n)
    ensures Refs(s, n) == Holders(s.pc, n) < SHOULD_BE_ON_FREELIST
  {
    assert NodeOk(s, g, n);
    SumBound(s.pc, Holding(n));
  }

  lemma AnnounceAlone(s: State, t: Tid, n: Node)
    requires t < |s.pc| && s.pc[t].Idle? && Owned(s.log, n) && Refs(s, n) < SHOULD_BE_ON_FREELIST
    ensures Alone(s, t, CallAdd(n), 2)
      == s.(pc := s.pc[t := if Refs(s, n) == 0 then LoadHead(n, Done) else Idle],
            refs := s.refs[n := Refs(s, n) + SHOULD_BE_ON_FREELIST], log := s.log + [Added(n)])
  {
    hide Alone, Owned;
    TwoSteps(s, t, CallAdd(n));
  }

  lemma LinkAlone(s: State, t: Tid, n: Node, k: Cont, call: Call)
    requires t < |s.pc| && s.pc[t] == LoadHead(n, k)
    ensures Alone(s, t, call, 2) == s.(pc := s.pc[t := StoreRefs(n, s.head, k)], next := s.next[n := s.head])
  {
    hide Alone, Owned;
    TwoSteps(s, t, call);
  }

  lemma PublishAlone(s: State, t: Tid, n: Node, k: Cont, call: Call)
    requires t < |s.pc| && s.pc[t] == StoreRefs(n, s.head, k)
    ensures Alone(s, t, call, 2) == s.(pc := s.pc[t := Return(k)], refs := s.refs[n := 1], head := Some(n))
  {
    hide Alone, Owned;
    TwoSteps(s, t, call);
  }

  lemma ListAlone(s: State, t: Tid, n: Node, k: Cont, call: Call)
    requires t < |s.pc| && s.pc[t] == LoadHead(n, k)
    ensures Alone(s, t, call, 4)
      == s.(pc := s.pc[t := Return(k)], next := s.next[n := s.head], refs := s.refs[n := 1], head := Some(n))
  {
    hide Alone, Step, Return;
    LinkAlone(s, t, n, k, call);
    PublishAlone(Alone(s, t, call, 2), t, n, k, call);
    AloneAdds(s, t, call, 2, 2);
  }

  /** From any state of any run: an `add` that runs alone puts the node at the head if nobody holds a
      reference to it, and otherwise leaves it flagged for the last holder. */
  lemma SoloAddLists(threads: nat, acts: seq<Action>, t: Tid, n: Node)
    requires FewThreads(threads) && t < threads && Run(threads, acts).pc[t].Idle?
    requires Owned(Run(threads, acts).log, n)
    ensures var s := Run(threads, acts);
      if Holders(s.pc, n) == 0 then
        var s' := Run(threads, acts + Steps(t, CallAdd(n), 6));
        && s'.pc == s.pc && s'.log == s.log + [Added(n)]
        && s'.head == Some(n) && Next(s', n) == s.head && Refs(s', n) == 1
      else
        var s' := Run(threads, acts + Steps(t, CallAdd(n), 2));
        && s'.pc == s.pc && s'.log == s.log + [Added(n)]
        && s'.head == s.head && Refs(s', n) == SHOULD_BE_ON_FREELIST + Holders(s.pc, n)
  {
    hide Alone, Inv, Run, Owned, Step, Holders;
    var s := Run(threads, acts);
    RunKeepsInv(threads, acts);
    AddedIsCounted(s, TrackRun(threads, acts), n);
    AnnounceAlone(s, t, n);
    AloneIsRun(threads, acts, t, CallAdd(n), 2);
    if Holders(s.pc, n) == 0 {
      ListAlone(Alone(s, t, CallAdd(n), 2), t, n, Done, CallAdd(n));
      AloneAdds(s, t, CallAdd(n), 2, 4);
      AloneIsRun(threads, acts, t, CallAdd(n), 6);
    }
  }

  /** A thread that drops the last reference to a flagged node and runs alone puts it at the head. */
  lemma SoloDropLists(threads: nat, acts: seq<Action>, t: Tid, call: Call)
    requires t < threads && Run(threads, acts).pc[t].DropOne?
    requires var s := Run(threads, acts); Refs(s, s.pc[t].node) == SHOULD_BE_ON_FREELIST + 1
    ensures var s, s' := Run(threads, acts), Run(threads, acts + Steps(t, call, 5));
      var n := s.pc[t].node;
      && s'.pc == s.pc[t := LoopTop(s.pc[t].head)] && s'.log == s.log
      && s'.head == Some(n) && Next(s', n) == s.head && Refs(s', n) == 1
  {
    hide Alone, Run, Owned, LoopTop;
    var s := Run(threads, acts);
    var n, k := s.pc[t].node, Resume(s.pc[t].head);
    AloneOneMore(s, t, call, 0);
    assert Alone(s, t, call, 1)
      == s.(pc := s.pc[t := LoadHead(n, k)], refs := s.refs[n := SHOULD_BE_ON_FREELIST]);
    ListAlone(Alone(s, t, call, 1), t, n, k, call);
    AloneAdds(s, t, call, 1, 4);
    AloneIsRun(threads, acts, t, call, 5);
  }

  // ---------------------------------------------------------------- every thread comes back alone

  ghost predicate Good(s: State) {
    exists g :: Inv(s, g)
  }

  lemma GoodStep(s: State, a: Action)
    requires Good(s)
    ensures Good(Step(s, a))
  {
    hide Inv, Step;
    var g :| Inv(s, g);
    StepKeepsInv(s, g, a);
  }

  /** Thread t comes back from its call if the others stand still. */
  ghost predicate Returns(s: State, t: Tid, call: Call)
    requires t < |s.pc|
  {
    exists n: nat :: ReturnsIn(s, t, call, n)
  }

  predicate ReturnsIn(s: State, t: Tid, call: Call, n: nat)
    requires t < |s.pc|
  {
    t < |Alone(s, t, call, n).pc| && Alone(s, t, call, n).pc[t].Idle?
  }

  function After(s: State, t: Tid, call: Call): (s': State)
    ensures |s'.pc| == |s.pc|
  {
    AfterKeepsThreads(s, t, call);
    Step(s, Action(t, call))
  }

  lemma AfterKeepsThreads(s: State, t: Tid, call: Call)
    ensures |Step(s, Action(t, call)).pc| == |s.pc|
  {
  }

  lemma IdleReturns(s: State, t: Tid, call: Call)
    requires t < |s.pc| && s.pc[t].Idle?
    ensures Returns(s, t, call)
  {
    assert ReturnsIn(s, t, call, 0);
  }

  lemma OneStepBefore(s: State, t: Tid, call: Call)
    requires t < |s.pc| && Returns(After(s, t, call), t, call)
    ensures Returns(s, t, call)
  {
    hide Step, Alone;
    var n: nat :| ReturnsIn(After(s, t, call), t, call, n);
    AloneOneMore(s, t, call, 0);
    AloneAdds(s, t, call, 1, n);
    assert ReturnsIn(s, t, call, 1 + n);
  }

  lemma AfterIsGood(s: State, t: Tid, call: Call)
    requires Good(s)
    ensures Good(After(s, t, call))
  {
    GoodStep(s, Action(t, call));
  }

  lemma GoodHead(s: State)
    requires Good(s)
    ensures s.head.Some? ==> 1 <= Refs(s, s.head.value) < SHOULD_BE_ON_FREELIST
  {
    var g :| Inv(s, g);
    HeadIsCounted(s, g);
  }

  /** With its node off the list `try_get` only has to hand it out. */
  lemma PoppedReturns(s: State, t: Tid, call: Call)
    requires t < |s.pc| && (s.pc[t].CheckFlag? || s.pc[t].DropTwo?)
    ensures Returns(s, t, call)
  {
    var s1 := After(s, t, call);
    if s.pc[t].CheckFlag? {
      IdleReturns(After(s1, t, call), t, call);
      OneStepBefore(s1, t, call);
    } else {
      IdleReturns(s1, t, call);
    }
    OneStepBefore(s, t, call);
  }

  /** The node it is at is the head, and nobody takes it away. */
  lemma HeadReturns(s: State, t: Tid, call: Call)
    requires Good(s) && t < |s.pc| && s.pc[t].GetRefs? && s.head == Some(s.pc[t].node)
    ensures Returns(s, t, call)
  {
    hide Alone, Step, Inv, Refs, Next;
    var n := s.pc[t].node;
    GoodHead(s);
    CountAlone(s, t, n, call);
    var s2 := Alone(s, t, call, 2);
    UnlinkAlone(s2, t, n, call);
    var s4 := Alone(s2, t, call, 2);
    PoppedReturns(s4, t, call);
    TwoBefore(s2, t, call);
    TwoBefore(s, t, call);
  }

  lemma TwoBefore(s: State, t: Tid, call: Call)
    requires t < |s.pc| && t < |Alone(s, t, call, 2).pc| && Returns(Alone(s, t, call, 2), t, call)
    ensures Returns(s, t, call)
  {
    hide Alone, Step;
    var n: nat :| ReturnsIn(Alone(s, t, call, 2), t, call, n);
    AloneAdds(s, t, call, 2, n);
    assert ReturnsIn(s, t, call, 2 + n);
  }

  lemma AfterIs(s: State, t: Tid, call: Call)
    requires t < |s.pc|
    ensures After(s, t, call) == Effect(s, s.pc[t], call).(pc := s.pc[t := Move(s, s.pc[t], call)])
  {
    hide Effect, Move;
  }

  /** It is at the top of the loop with the head it will find. */
  lemma TopReturns(s: State, t: Tid, call: Call)
    requires Good(s) && t < |s.pc| && s.pc[t] == LoopTop(s.head)
    ensures Returns(s, t, call)
  {
    hide Inv;
    if s.head.Some? {
      HeadReturns(s, t, call);
    } else {
      IdleReturns(s, t, call);
    }
  }

  lemma GetHeadReturns(s: State, t: Tid, call: Call)
    requires Good(s) && t < |s.pc| && s.pc[t].GetHead?
    ensures Returns(s, t, call)
  {
    AfterIs(s, t, call);
    AfterIsGood(s, t, call);
    hide After, Good, Returns, LoopTop;
    TopReturns(After(s, t, call), t, call);
    OneStepBefore(s, t, call);
  }

  /** It gives its reference back and goes on with the head. */
  lemma DropReturns(s: State, t: Tid, call: Call)
    requires Good(s) && t < |s.pc| && s.pc[t].DropOne? && s.pc[t].head == s.head
    requires Refs(s, s.pc[t].node) != SHOULD_BE_ON_FREELIST + 1
    ensures Returns(s, t, call)
  {
    AfterIs(s, t, call);
    AfterIsGood(s, t, call);
    hide After, Good, Returns, LoopTop;
    TopReturns(After(s, t, call), t, call);
    OneStepBefore(s, t, call);
  }

  /** A node with the list's reference, which is the head or loses the race for it. */
  lemma ListedReturns(s: State, t: Tid, call: Call)
    requires Good(s) && t < |s.pc| && s.pc[t].GetRefs?
    requires 1 <= Refs(s, s.pc[t].node) < SHOULD_BE_ON_FREELIST
    ensures Returns(s, t, call)
  {
    hide Alone, Good, Returns, Next;
    var n := s.pc[t].node;
    if s.head == Some(n) {
      HeadReturns(s, t, call);
    } else {
      CountAlone(s, t, n, call);
      GoodAlone(s, t, call, 2);
      var s2 := Alone(s, t, call, 2);
      MissAlone(s2, t, n, call);
      GoodAlone(s2, t, call, 2);
      DropReturns(Alone(s2, t, call, 2), t, call);
      TwoBefore(s2, t, call);
      TwoBefore(s, t, call);
    }
  }

  lemma MissAlone(s: State, t: Tid, n: Node, call: Call)
    requires t < |s.pc| && s.pc[t] == GetNext(n) && s.head != Some(n)
    ensures Alone(s, t, call, 2) == s.(pc := s.pc[t := DropOne(n, s.head)])
  {
    hide Alone, Owned;
    TwoSteps(s, t, call);
  }

  lemma {:induction false} GoodAlone(s: State, t: Tid, call: Call, n: nat)
    requires Good(s)
    ensures Good(Alone(s, t, call, n))
  {
    hide Good, Step;
    if n > 0 {
      GoodAlone(s, t, call, n - 1);
      GoodStep(Alone(s, t, call, n - 1), Action(t, call));
    }
  }

  lemma FourBefore(s: State, t: Tid, call: Call)
    requires t < |s.pc| && t < |Alone(s, t, call, 4).pc| && Returns(Alone(s, t, call, 4), t, call)
    ensures Returns(s, t, call)
  {
    hide Alone, Step;
    var n: nat :| ReturnsIn(Alone(s, t, call, 4), t, call, n);
    AloneAdds(s, t, call, 4, n);
    assert ReturnsIn(s, t, call, 4 + n);
  }

  /** It has dropped the last reference to a flagged node, and saw the head just before. */
  lemma RelistingReturns(s: State, t: Tid, call: Call)
    requires Good(s) && t < |s.pc| && s.pc[t].LoadHead? && s.pc[t].k == Resume(s.head)
    ensures Returns(s, t, call)
  {
    hide Alone, Good, Returns;
    ListAlone(s, t, s.pc[t].node, s.pc[t].k, call);
    GoodAlone(s, t, call, 4);
    GoodHead(s);
    if s.head.Some? {
      ListedReturns(Alone(s, t, call, 4), t, call);
    } else {
      IdleReturns(Alone(s, t, call, 4), t, call);
    }
    FourBefore(s, t, call);
  }

  lemma MissedReturns(s: State, t: Tid, call: Call)
    requires Good(s) && t < |s.pc| && s.pc[t].DropOne? && s.pc[t].head == s.head
    ensures Returns(s, t, call)
  {
    hide Good, Returns, LoopTop;
    if Refs(s, s.pc[t].node) == SHOULD_BE_ON_FREELIST + 1 {
      AfterIs(s, t, call);
      AfterIsGood(s, t, call);
      hide After;
      RelistingReturns(After(s, t, call), t, call);
      OneStepBefore(s, t, call);
    } else {
      DropReturns(s, t, call);
    }
  }

  lemma GetNextReturns(s: State, t: Tid, call: Call)
    requires Good(s) && t < |s.pc| && s.pc[t].GetNext?
    ensures Returns(s, t, call)
  {
    hide Alone, Good, Returns, Next;
    GoodAlone(s, t, call, 2);
    if s.head == Some(s.pc[t].node) {
      UnlinkAlone(s, t, s.pc[t].node, call);
      PoppedReturns(Alone(s, t, call, 2), t, call);
    } else {
      MissAlone(s, t, s.pc[t].node, call);
      MissedReturns(Alone(s, t, call, 2), t, call);
    }
    TwoBefore(s, t, call);
  }

  lemma CasPopReturns(s: State, t: Tid, call: Call)
    requires Good(s) && t < |s.pc| && s.pc[t].CasPop?
    ensures Returns(s, t, call)
  {
    AfterIs(s, t, call);
    AfterIsGood(s, t, call);
    hide After, Good, Returns;
    if s.head == Some(s.pc[t].node) {
      PoppedReturns(After(s, t, call), t, call);
    } else {
      MissedReturns(After(s, t, call), t, call);
    }
    OneStepBefore(s, t, call);
  }

  lemma CasRefsReturns(s: State, t: Tid, call: Call)
    requires Good(s) && t < |s.pc| && s.pc[t].CasRefs?
    ensures Returns(s, t, call)
  {
    AfterIs(s, t, call);
    AfterIsGood(s, t, call);
    hide After, Good, Returns;
    if Refs(s, s.pc[t].node) == s.pc[t].refs {
      GetNextReturns(After(s, t, call), t, call);
    } else {
      GetHeadReturns(After(s, t, call), t, call);
    }
    OneStepBefore(s, t, call);
  }

  lemma GetRefsReturns(s: State, t: Tid, call: Call)
    requires Good(s) && t < |s.pc| && s.pc[t].GetRefs?
    ensures Returns(s, t, call)
  {
    AfterIs(s, t, call);
    AfterIsGood(s, t, call);
    hide After, Good, Returns;
    if Masked(Refs(s, s.pc[t].node)) == 0 {
      GetHeadReturns(After(s, t, call), t, call);
    } else {
      CasRefsReturns(After(s, t, call), t, call);
    }
    OneStepBefore(s, t, call);
  }

  /** The node is added, or left to others; the caller goes on. */
  lemma CallerReturns(s: State, t: Tid, call: Call, k: Cont)
    requires Good(s) && t < |s.pc| && s.pc[t] == Return(k)
    ensures Returns(s, t, call)
  {
    hide Good, Returns;
    if s.pc[t].Idle? {
      IdleReturns(s, t, call);
    } else {
      GetRefsReturns(s, t, call);
    }
  }

  lemma LoadHeadReturns(s: State, t: Tid, call: Call)
    requires Good(s) && t < |s.pc| && s.pc[t].LoadHead?
    ensures Returns(s, t, call)
  {
    hide Alone, Good, Returns, Return;
    ListAlone(s, t, s.pc[t].node, s.pc[t].k, call);
    GoodAlone(s, t, call, 4);
    CallerReturns(Alone(s, t, call, 4), t, call, s.pc[t].k);
    FourBefore(s, t, call);
  }

  lemma DropOneReturns(s: State, t: Tid, call: Call)
    requires Good(s) && t < |s.pc| && s.pc[t].DropOne?
    ensures Returns(s, t, call)
  {
    AfterIs(s, t, call);
    AfterIsGood(s, t, call);
    hide After, Good, Returns;
    if Refs(s, s.pc[t].node) == SHOULD_BE_ON_FREELIST + 1 {
      LoadHeadReturns(After(s, t, call), t, call);
    } else {
      CallerReturns(After(s, t, call), t, call, Resume(s.pc[t].head));
    }
    OneStepBefore(s, t, call);
  }

  /** With the head it last saw still there the compare-exchange succeeds. */
  lemma PublishingReturns(s: State, t: Tid, call: Call)
    requires Good(s) && t < |s.pc| && s.pc[t].CasHead? && s.pc[t].head == s.head
    ensures Returns(s, t, call)
  {
    AfterIs(s, t, call);
    AfterIsGood(s, t, call);
    hide After, Good, Returns, Return;
    CallerReturns(After(s, t, call), t, call, s.pc[t].k);
    OneStepBefore(s, t, call);
  }

  lemma StoringReturns(s: State, t: Tid, call: Call)
    requires Good(s) && t < |s.pc| && s.pc[t].StoreNext? && s.pc[t].head == s.head
    ensures Returns(s, t, call)
  {
    hide Alone, Good, Returns;
    StoreAlone(s, t, call);
    GoodAlone(s, t, call, 2);
    PublishingReturns(Alone(s, t, call, 2), t, call);
    TwoBefore(s, t, call);
  }

  lemma StoreAlone(s: State, t: Tid, call: Call)
    requires t < |s.pc| && s.pc[t].StoreNext?
    ensures var pc := s.pc[t];
      Alone(s, t, call, 2)
        == s.(pc := s.pc[t := CasHead(pc.node, pc.head, pc.k)],
              next := s.next[pc.node := pc.head], refs := s.refs[pc.node := 1])
  {
    hide Alone, Owned;
    TwoSteps(s, t, call);
  }

  lemma RetryReturns(s: State, t: Tid, call: Call)
    requires Good(s) && t < |s.pc| && s.pc[t].Retry? && s.pc[t].head == s.head
    ensures Returns(s, t, call)
  {
    AfterIs(s, t, call);
    AfterIsGood(s, t, call);
    hide After, Good, Returns, Return;
    if Refs(s, s.pc[t].node) == 1 {
      StoringReturns(After(s, t, call), t, call);
    } else {
      CallerReturns(After(s, t, call), t, call, s.pc[t].k);
    }
    OneStepBefore(s, t, call);
  }

  lemma CasHeadReturns(s: State, t: Tid, call: Call)
    requires Good(s) && t < |s.pc| && s.pc[t].CasHead?
    ensures Returns(s, t, call)
  {
    if s.pc[t].head == s.head {
      PublishingReturns(s, t, call);
    } else {
      AfterIs(s, t, call);
      AfterIsGood(s, t, call);
      hide After, Good, Returns;
      RetryReturns(After(s, t, call), t, call);
      OneStepBefore(s, t, call);
    }
  }

  lemma StoreNextReturns(s: State, t: Tid, call: Call)
    requires Good(s) && t < |s.pc| && s.pc[t].StoreNext?
    ensures Returns(s, t, call)
  {
    hide Alone, Good, Returns;
    StoreAlone(s, t, call);
    GoodAlone(s, t, call, 2);
    CasHeadReturns(Alone(s, t, call, 2), t, call);
    TwoBefore(s, t, call);
  }

  lemma StoreRefsReturns(s: State, t: Tid, call: Call)
    requires Good(s) && t < |s.pc| && s.pc[t].StoreRefs?
    ensures Returns(s, t, call)
  {
    AfterIs(s, t, call);
    AfterIsGood(s, t, call);
    hide After, Good, Returns;
    CasHeadReturns(After(s, t, call), t, call);
    OneStepBefore(s, t, call);
  }

  lemma StaleRetryReturns(s: State, t: Tid, call: Call)
    requires Good(s) && t < |s.pc| && s.pc[t].Retry?
    ensures Returns(s, t, call)
  {
    AfterIs(s, t, call);
    AfterIsGood(s, t, call);
    hide After, Good, Returns, Return;
    if Refs(s, s.pc[t].node) == 1 {
      StoreNextReturns(After(s, t, call), t, call);
    } else {
      CallerReturns(After(s, t, call), t, call, s.pc[t].k);
    }
    OneStepBefore(s, t, call);
  }

  lemma AddRefReturns(s: State, t: Tid, call: Call)
    requires Good(s) && t < |s.pc| && s.pc[t].AddRef?
    ensures Returns(s, t, call)
  {
    AfterIs(s, t, call);
    AfterIsGood(s, t, call);
    hide After, Good, Returns;
    if Refs(s, s.pc[t].node) == 0 {
      LoadHeadReturns(After(s, t, call), t, call);
    } else {
      IdleReturns(After(s, t, call), t, call);
    }
    OneStepBefore(s, t, call);
  }

  /** From any state of any run, wherever the others stopped, each thread comes back from its call alone. */
  lemma SoloReturns(threads: nat, acts: seq<Action>, t: Tid, call: Call)
    requires FewThreads(threads) && t < threads
    ensures exists n :: Run(threads, acts + Steps(t, call, n)).pc[t].Idle?
  {
    hide Run, Returns, Alone;
    RunKeepsInv(threads, acts);
    var s := Run(threads, acts);
    assert Good(s);
    hide Good, Inv;
    EveryPcReturns(s, t, call);
    ReturnsByRun(threads, acts, t, call);
  }

  lemma ReturnsByRun(threads: nat, acts: seq<Action>, t: Tid, call: Call)
    requires t < threads && Returns(Run(threads, acts), t, call)
    ensures exists n :: Run(threads, acts + Steps(t, call, n)).pc[t].Idle?
  {
    hide Run, Alone;
    var n: nat :| ReturnsIn(Run(threads, acts), t, call, n);
    AloneIsRun(threads, acts, t, call, n);
    assert Run(threads, acts + Steps(t, call, n)).pc[t].Idle?;
  }

  lemma EveryPcReturns(s: State, t: Tid, call: Call)
    requires Good(s) && t < |s.pc|
    ensures Returns(s, t, call)
  {
    hide Good, Returns;
    match s.pc[t]
    case Idle => IdleReturns(s, t, call);
    case AddRef(_) => AddRefReturns(s, t, call);
    case LoadHead(_, _) => LoadHeadReturns(s, t, call);
    case StoreNext(_, _, _) => StoreNextReturns(s, t, call);
    case StoreRefs(_, _, _) => StoreRefsReturns(s, t, call);
    case CasHead(_, _, _) => CasHeadReturns(s, t, call);
    case Retry(_, _, _) => StaleRetryReturns(s, t, call);
    case GetHead => GetHeadReturns(s, t, call);
    case GetRefs(_) => GetRefsReturns(s, t, call);
    case CasRefs(_, _) => CasRefsReturns(s, t, call);
    case GetNext(_) => GetNextReturns(s, t, call);
    case CasPop(_, _) => CasPopReturns(s, t, call);
    case CheckFlag(_) => PoppedReturns(s, t, call);
    case DropTwo(_) => PoppedReturns(s, t, call);
    case DropOne(_, _) => DropOneReturns(s, t, call);
  }

  // ---------------------------------------------------------------- a result of nothing

  /** What the last call of a thread was, and of a `try_get` that has not returned a node the value of the
      head it last loaded, if it loaded any. */
  datatype Sight = NoGet | Getting(last: Option<Option<Node>>) | Returned(node: Node)

  /** What thread `a.t` has seen after its step: line 1479 or 1484 loads the head, and so does the
      compare-exchange at 1491 if it fails. */
  function Looked(s: State, pc: Pc, call: Call, seen: Sight): Sight {
    match pc
    case Idle => if call.CallTryGet? then Getting(None) else NoGet
    case GetHead => Getting(Some(s.head))
    case CasPop(n, _) => if s.head == Some(n) then seen else Getting(Some(s.head))
    case DropTwo(n) => Returned(n)
    case _ => seen
  }

  function Sights(threads: nat, acts: seq<Action>): (seen: seq<Sight>)
    ensures |seen| == threads
  {
    if acts == [] then seq(threads, _ => NoGet)
    else
      var before, a := acts[..|acts| - 1], acts[|acts| - 1];
      var s, seen := Run(threads, before), Sights(threads, before);
      if a.t >= threads then seen else seen[a.t := Looked(s, s.pc[a.t], a.call, seen[a.t])]
  }

  /** A thread inside `try_get` works on the node it saw at the head; one that adds a node on its way out
      of a lost race keeps the head it saw. */
  predicate SightOk(pc: Pc, seen: Sight) {
    match pc
    case Idle => seen.Getting? ==> seen.last == Some(None)
    case GetHead => seen.Getting?
    case AddRef(_) => seen.NoGet?
    case LoadHead(_, k) => CameFrom(k, seen)
    case StoreNext(_, _, k) => CameFrom(k, seen)
    case StoreRefs(_, _, k) => CameFrom(k, seen)
    case CasHead(_, _, k) => CameFrom(k, seen)
    case Retry(_, _, k) => CameFrom(k, seen)
    case DropOne(_, h) => seen == Getting(Some(h))
    case _ => seen == Getting(Some(Some(pc.node)))
  }

  predicate CameFrom(k: Cont, seen: Sight) {
    match k
    case Done => seen.NoGet?
    case Resume(h) => seen == Getting(Some(h))
  }

  lemma SightKept(s: State, pc: Pc, call: Call, seen: Sight)
    requires SightOk(pc, seen)
    ensures SightOk(Move(s, pc, call), Looked(s, pc, call, seen))
  {
    hide Owned;
  }

  lemma {:induction false} SightsKept(threads: nat, acts: seq<Action>, t: Tid)
    requires t < threads
    ensures SightOk(Run(threads, acts).pc[t], Sights(threads, acts)[t])
  {
    if acts != [] {
      hide Move, SightOk, Looked, Effect;
      var before, a := acts[..|acts| - 1], acts[|acts| - 1];
      var s := Run(threads, before);
      SightsKept(threads, before, t);
      if a.t == t {
        SightKept(s, s.pc[t], a.call, Sights(threads, before)[t]);
      }
    }
  }

  /** In every interleaving a `try_get` comes back without a node only if the last head it saw was null. */
  lemma NothingOnlyFromEmpty(threads: nat, acts: seq<Action>, t: Tid)
    requires t < threads && Run(threads, acts).pc[t].Idle? && Sights(threads, acts)[t].Getting?
    ensures Sights(threads, acts)[t].last == Some(None)
  {
    SightsKept(threads, acts, t);
  }
}
