/** `get_or_add_implicit_producer` with any number of threads in it at once (src/util/concurrentqueue.h:
    3389-3534), any thread calling it any number of times: each key it loads or exchanges, the count's
    fetch_add and fetch_sub, the resize flag and the publication of a new table is one step.

    A thread's number is its id.  Only a thread itself reads the value stored beside its id, so the
    exchange of a key and the store of its value are one step.  Threads do not exit here, so no slot
    is a tombstone and no producer is recycled. */
module ConcurrentTable {
  import opened ProducerTables
  import opened Sums
  import opened Wrappers

  type Tid = nat

  /** The next step of a thread.  `main` is the table its local mainHash points to. */
  datatype Pc =
    | Ready                                                       // 3408
    | Search(main: nat, k: nat, j: nat)                           // 3416
    | Migrate(main: nat, value: nat, j: nat)                      // 3431
    | FetchAdd(main: nat)                                         // 3453
    | TestFlag(main: nat, newCount: nat)                          // 3456
    | LoadMain(newCount: nat)                                     // 3461
    | Allocate(main: nat, newCount: nat)                          // 3467-3483
    | FailSub                                                     // 3470
    | FailClear                                                   // 3471
    | Unlock(main: nat, newCount: nat)                            // 3484, 3488
    | Reload(newCount: nat)                                       // 3532
    | Create(main: nat, newCount: nat)                            // 3496
    | CreateFailed                                                // 3498
    | Place(main: nat, newCount: nat, producer: nat, j: nat)      // 3520
    | Return(r: Option<nat>)

  /** `made` producers exist.  `live` and `tickets` are history: the producers of the threads that have
      one, and the counts of the threads counted, as their fetch_add gave them. */
  datatype State = State(
    hash: nat -> nat, tables: seq<Table>, count: nat, resizing: bool, made: nat, pc: seq<Pc>,
    live: Live, tickets: map<Tid, nat>)

  /** `memory` is false where an allocation fails. */
  datatype Action = Action(t: Tid, memory: bool)

  function Capacity(s: State, i: nat): nat
    requires i < |s.tables|
  {
    |s.tables[i].keys|
  }

  /** Three quarters, as computed (3495). */
  function Quarters(cap: nat): nat {
    cap / 2 + cap / 4
  }

  /** The doubling loop (3462-3465). */
  function Doubled(newCount: nat, cap: nat): (r: nat)
    requires cap > 0
    ensures r >= cap && newCount < r / 2 && (r == cap || newCount >= r / 4)
    decreases newCount + 1 - cap / 2
  {
    if newCount >= cap / 2 then Doubled(newCount, 2 * cap) else cap
  }

  predicate TableFormed(t: Table) {
    |t.keys| == |t.values| && |t.keys| > 0
  }

  function MainOf(pc: Pc): nat {
    match pc
    case Search(main, _, _) => main
    case Migrate(main, _, _) => main
    case FetchAdd(main) => main
    case TestFlag(main, _) => main
    case Allocate(main, _) => main
    case Unlock(main, _) => main
    case Create(main, _) => main
    case Place(main, _, _, _) => main
    case _ => 0
  }

  /** Pointers are to tables. */
  predicate Formed(s: State) {
    && s.tables != []
    && (forall i :: 0 <= i < |s.tables| ==> TableFormed(s.tables[i]))
    && (forall t :: 0 <= t < |s.pc| ==> MainOf(s.pc[t]) < |s.tables| && (s.pc[t].Search? ==> s.pc[t].k < |s.tables|))
  }

  /** The slot of probe j of thread t in table i. */
  function Probe(s: State, i: nat, t: Tid, j: nat): nat
    requires i < |s.tables| && TableFormed(s.tables[i])
  {
    Pos(Capacity(s, i), s.hash(t), j)
  }

  function KeyAt(s: State, i: nat, t: Tid, j: nat): Key
    requires i < |s.tables| && TableFormed(s.tables[i])
  {
    s.tables[i].keys[Probe(s, i, t, j)]
  }

  /** Below three quarters the table takes the thread, else it has to wait (3495). */
  function Decide(cap: nat, main: nat, newCount: nat): Pc {
    if newCount < Quarters(cap) then Create(main, newCount) else Reload(newCount)
  }

  function Move(s: State, t: Tid, memory: bool): Pc
    requires Formed(s) && t < |s.pc|
  {
    var newest := |s.tables| - 1;
    match s.pc[t]
    case Ready => Search(newest, newest, 0)
    case Search(main, k, j) =>
      if KeyAt(s, k, t, j) == Id(t) then
        (var value := s.tables[k].values[Probe(s, k, t, j)];
         if k == main then Return(Some(value)) else Migrate(main, value, 0))
      else if KeyAt(s, k, t, j) == Key.Empty then (if k == 0 then FetchAdd(main) else Search(main, k - 1, 0))
      else Search(main, k, j + 1)
    case Migrate(main, value, j) =>
      if KeyAt(s, main, t, j) == Key.Empty then Return(Some(value)) else Migrate(main, value, j + 1)
    case FetchAdd(main) => TestFlag(main, s.count + 1)
    case TestFlag(main, newCount) =>
      if newCount >= Capacity(s, main) / 2 && !s.resizing then LoadMain(newCount)
      else Decide(Capacity(s, main), main, newCount)
    case LoadMain(newCount) =>
      if newCount >= Capacity(s, newest) / 2 then Allocate(newest, newCount) else Unlock(newest, newCount)
    case Allocate(_, newCount) => if memory then Unlock(newest + 1, newCount) else FailSub
    case FailSub => FailClear
    case FailClear => Return(None)
    case Unlock(main, newCount) => Decide(Capacity(s, main), main, newCount)
    case Reload(newCount) => TestFlag(newest, newCount)
    case Create(main, newCount) => if memory then Place(main, newCount, s.made, 0) else CreateFailed
    case CreateFailed => Return(None)
    case Place(main, newCount, producer, j) =>
      if KeyAt(s, main, t, j) == Key.Empty then Return(Some(producer)) else Place(main, newCount, producer, j + 1)
    case Return(_) => Ready
  }

  /** The exchange of an empty key. */
  function Placed(s: State, i: nat, t: Tid, j: nat, value: nat): (s': State)
    requires i < |s.tables| && TableFormed(s.tables[i])
    ensures s' == s.(tables := s'.tables) && |s'.tables| == |s.tables|
  {
    s.(tables := s.tables[i := WithSlot(s.tables[i], Probe(s, i, t, j), Id(t), value)])
  }

  function NewTable(cap: nat): Table {
    Table(seq(cap, _ => Key.Empty), seq(cap, _ => 0))
  }

  function Effect(s: State, t: Tid, memory: bool): State
    requires Formed(s) && t < |s.pc|
  {
    match s.pc[t]
    case Migrate(main, value, j) => if KeyAt(s, main, t, j) == Key.Empty then Placed(s, main, t, j, value) else s
    case FetchAdd(_) => s.(count := s.count + 1, tickets := s.tickets[t := s.count + 1])
    case TestFlag(main, newCount) => if newCount >= Capacity(s, main) / 2 then s.(resizing := true) else s
    case Allocate(main, newCount) =>
      if memory then s.(tables := s.tables + [NewTable(Doubled(newCount, 2 * Capacity(s, main)))]) else s
    case FailSub => s.(count := if s.count > 0 then s.count - 1 else 0, tickets := s.tickets - {t})
    case FailClear => s.(resizing := false)
    case Unlock(_, _) => s.(resizing := false)
    case Create(_, _) => if memory then s.(made := s.made + 1) else s
    case CreateFailed => s.(count := if s.count > 0 then s.count - 1 else 0, tickets := s.tickets - {t})
    case Place(main, _, producer, j) =>
      if KeyAt(s, main, t, j) == Key.Empty then Placed(s, main, t, j, producer).(live := s.live[t := producer]) else s
    case _ => s
  }

  function Step(s: State, a: Action): State
    requires Formed(s)
  {
    if a.t >= |s.pc| then s
    else Effect(s, a.t, a.memory).(pc := s.pc[a.t := Move(s, a.t, a.memory)])
  }

  function Init(hash: nat -> nat, cap: nat, threads: nat): State {
    State(hash, [NewTable(cap)], 0, false, 0, seq(threads, _ => Ready), map[], map[])
  }

  lemma TablesStayFormed(s: State, t: Tid, memory: bool)
    requires Formed(s) && t < |s.pc|
    ensures var s' := Effect(s, t, memory);
      |s.tables| <= |s'.tables| && s'.pc == s.pc && forall i :: 0 <= i < |s'.tables| ==> TableFormed(s'.tables[i])
  {
    hide Doubled, Quarters, Pos;
    assert TableFormed(s.tables[MainOf(s.pc[t])]);
  }

  lemma PcStaysFormed(s: State, t: Tid, memory: bool)
    requires Formed(s) && t < |s.pc|
    ensures var pc, n := Move(s, t, memory), |Effect(s, t, memory).tables|;
      MainOf(pc) < n && (pc.Search? ==> pc.k < n)
  {
    hide Doubled, Quarters, Probe, KeyAt, Placed;
    TablesStayFormed(s, t, memory);
  }

  lemma StepStaysFormed(s: State, a: Action)
    requires Formed(s)
    ensures Formed(Step(s, a))
  {
    hide Effect, Move;
    if a.t < |s.pc| {
      TablesStayFormed(s, a.t, a.memory);
      PcStaysFormed(s, a.t, a.memory);
    }
  }

  function Run(hash: nat -> nat, cap: nat, threads: nat, acts: seq<Action>): (s: State)
    requires cap > 0
    ensures Formed(s)
  {
    if acts == [] then Init(hash, cap, threads)
    else
      var s, a := Run(hash, cap, threads, acts[..|acts| - 1]), acts[|acts| - 1];
      StepStaysFormed(s, a);
      Step(s, a)
  }

  // ---------------------------------------------------------------- counting tickets

  /** The threads counted with at most m. */
  function Low(tickets: map<Tid, nat>, m: nat): set<Tid> {
    set x | x in tickets && tickets[x] <= m
  }

  /** However fetch_add and fetch_sub interleave, at most m threads are counted with m or less. */
  ghost predicate Ordered(tickets: map<Tid, nat>) {
    && (forall x <- tickets :: tickets[x] >= 1)
    && forall m: nat :: |Low(tickets, m)| <= m
  }

  lemma CountedKeepsOrder(tickets: map<Tid, nat>, t: Tid)
    requires Ordered(tickets) && t !in tickets
    ensures Ordered(tickets[t := |tickets| + 1]) && |tickets[t := |tickets| + 1]| == |tickets| + 1
  {
    var tickets' := tickets[t := |tickets| + 1];
    assert tickets'.Keys == tickets.Keys + {t};
    forall m: nat ensures |Low(tickets', m)| <= m {
      if m <= |tickets| {
        assert Low(tickets', m) == Low(tickets, m);
      } else {
        SubsetSize(Low(tickets', m), tickets.Keys + {t});
      }
    }
  }

  lemma UncountedKeepsOrder(tickets: map<Tid, nat>, t: Tid)
    requires Ordered(tickets) && t in tickets
    ensures Ordered(tickets - {t}) && |tickets - {t}| == |tickets| - 1
  {
    var tickets' := tickets - {t};
    assert tickets.Keys == tickets'.Keys + {t};
    forall m: nat ensures |Low(tickets', m)| <= m {
      SubsetSize(Low(tickets', m), Low(tickets, m));
    }
  }

  // ---------------------------------------------------------------- one table

  /** The table, the threads in it with their producers, and with counts below three quarters. */
  ghost predicate TableOk(t: Table, hash: nat -> nat, live: Live, tickets: map<Tid, nat>) {
    && TableFormed(t) && TableInv(t, hash, live)
    && (forall s :: 0 <= s < |t.keys| ==> t.keys[s] != Tomb)
    && forall x <- Ids(t.keys) :: x in tickets && tickets[x] < Quarters(|t.keys|)
  }

  /** Without tombstones the used slots are those of threads. */
  lemma {:induction false} UsedAreIds(keys: seq<Key>)
    requires forall s :: 0 <= s < |keys| ==> keys[s] != Tomb
    requires forall s, u :: 0 <= s < u < |keys| && keys[s].Id? ==> keys[s] != keys[u]
    ensures Used(keys) == |Ids(keys)|
  {
    if keys == [] {
      assert Ids(keys) == {};
    } else {
      UsedAreIds(keys[1..]);
      FirstId(keys);
    }
  }

  lemma FirstId(keys: seq<Key>)
    requires keys != [] && keys[0] != Tomb
    requires forall u :: 0 < u < |keys| && keys[0].Id? ==> keys[0] != keys[u]
    ensures keys[0].Id? ==> keys[0].t !in Ids(keys[1..]) && Ids(keys) == {keys[0].t} + Ids(keys[1..])
    ensures !keys[0].Id? ==> Ids(keys) == Ids(keys[1..])
  {
    var rest := keys[1..];
    forall x | x in Ids(rest) ensures x in Ids(keys) {
      var s :| 0 <= s < |rest| && rest[s].Id? && rest[s].t == x;
      assert keys[s + 1] == Id(x);
    }
    forall x | x in Ids(keys) && !(keys[0].Id? && keys[0].t == x) ensures x in Ids(rest) {
      var s :| 0 <= s < |keys| && keys[s].Id? && keys[s].t == x;
      assert rest[s - 1] == Id(x);
    }
    if keys[0].Id? {
      IdsAre(rest, keys[0].t);
      assert keys[0].t in Ids(keys);
    }
  }

  /** Less than three quarters of a table in use, and room for a thread counted below that. */
  lemma Bounded(t: Table, hash: nat -> nat, live: Live, tickets: map<Tid, nat>)
    requires TableOk(t, hash, live, tickets) && Ordered(tickets)
    ensures Used(t.keys) == 0 || Used(t.keys) < Quarters(|t.keys|)
  {
    UsedAreIds(t.keys);
    if Used(t.keys) > 0 {
      var x :| x in Ids(t.keys);
      IdsAreLow(t, tickets);
    }
  }

  lemma IdsAreLow(t: Table, tickets: map<Tid, nat>)
    requires forall x <- Ids(t.keys) :: x in tickets && tickets[x] < Quarters(|t.keys|)
    requires Ordered(tickets) && Quarters(|t.keys|) > 0
    ensures |Ids(t.keys)| < Quarters(|t.keys|)
  {
    SubsetSize(Ids(t.keys), Low(tickets, Quarters(|t.keys|) - 1));
  }

  lemma RoomFor(t: Table, hash: nat -> nat, live: Live, tickets: map<Tid, nat>, x: Tid)
    requires TableOk(t, hash, live, tickets) && Ordered(tickets)
    requires x in tickets && tickets[x] < Quarters(|t.keys|) && Id(x) !in t.keys
    ensures Used(t.keys) + 1 < |t.keys|
  {
    UsedAreIds(t.keys);
    IdsAre(t.keys, x);
    SubsetSize(Ids(t.keys) + {x}, Low(tickets, Quarters(|t.keys|) - 1));
    assert |Ids(t.keys) + {x}| == |Ids(t.keys)| + 1;
  }

  /** A probe path without an empty slot is shorter than the table. */
  lemma PathIsShort(t: Table, hash: nat -> nat, live: Live, tickets: map<Tid, nat>, h: nat, j: nat)
    requires TableOk(t, hash, live, tickets) && PathUsed(t.keys, h, j)
    ensures j < |t.keys|
  {
    var e := SomeEmpty(t.keys);
    ProbesReach(|t.keys|, h, e);
    hide Pos;
  }

  /** The exchange succeeds: an empty slot on the thread's path. */
  lemma PlacedIsOk(t: Table, hash: nat -> nat, live: Live, tickets: map<Tid, nat>, x: Tid, value: nat, j: nat)
    requires TableOk(t, hash, live, tickets) && Ordered(tickets) && Id(x) !in t.keys && PathUsed(t.keys, hash(x), j)
    requires x in tickets && tickets[x] < Quarters(|t.keys|) && t.keys[Pos(|t.keys|, hash(x), j)].Empty?
    ensures var slot := Pos(|t.keys|, hash(x), j);
      && TableOk(WithSlot(t, slot, Id(x), value), hash, live[x := value], tickets)
      && Ids(WithSlot(t, slot, Id(x), value).keys) == Ids(t.keys) + {x}
      && |WithSlot(t, slot, Id(x), value).keys| == |t.keys|
  {
    RoomFor(t, hash, live, tickets, x);
    PathIsShort(t, hash, live, tickets, hash(x), j);
    PlacedKeepsTable(t, hash, live, x, value, j);
    hide TableInv, Pos, Quarters, Ids;
    PlacedIds(t.keys, Pos(|t.keys|, hash(x), j), x);
  }

  /** A table other threads are in does not mind a new thread or a change of the count. */
  lemma OtherTableOk(t: Table, hash: nat -> nat, live: Live, tickets: map<Tid, nat>, x: Tid, value: nat, live': Live,
                     tickets': map<Tid, nat>)
    requires TableOk(t, hash, live, tickets) && x !in Ids(t.keys)
    requires live' == live || live' == live[x := value]
    requires forall y <- tickets :: y != x ==> y in tickets' && tickets'[y] == tickets[y]
    ensures TableOk(t, hash, live', tickets')
  {
    hide Used, Pos, Quarters, Dist;
    IdsAre(t.keys, x);
    if live' != live {
      OtherTableStays(t, hash, live, x, value);
    }
  }

  lemma NewTableOk(cap: nat, hash: nat -> nat, live: Live, tickets: map<Tid, nat>)
    requires cap > 0
    ensures TableOk(NewTable(cap), hash, live, tickets) && Ids(NewTable(cap).keys) == {}
  {
    EmptyTableIsFine(hash, live, cap, seq(cap, _ => 0));
  }

  // ---------------------------------------------------------------- the invariant

  predicate IsIn(tables: seq<Table>, i: nat, t: Tid)
    requires i < |tables|
  {
    Id(t) in tables[i].keys
  }

  ghost predicate TablesOk(s: State) {
    && (forall i :: 0 <= i < |s.tables| ==> TableOk(s.tables[i], s.hash, s.live, s.tickets))
    && (forall i, k :: 0 <= i <= k < |s.tables| ==> |s.tables[i].keys| <= |s.tables[k].keys|)
    && (forall x <- s.live :: x in s.tickets && exists i :: 0 <= i < |s.tables| && IsIn(s.tables, i, x))
  }

  ghost predicate CountOk(s: State) {
    Ordered(s.tickets) && s.count == |s.tickets|
  }

  /** A thread that has the flag. */
  function Holding(pc: Pc): nat {
    if pc.LoadMain? || pc.Allocate? || pc.FailSub? || pc.FailClear? || pc.Unlock? then 1 else 0
  }

  ghost predicate FlagOk(s: State) {
    Sum(s.pc, Holding) == if s.resizing then 1 else 0
  }

  /** The thread is counted and not in a table yet. */
  function CountOfPc(pc: Pc): Option<nat> {
    match pc
    case TestFlag(_, n) => Some(n)
    case LoadMain(n) => Some(n)
    case Allocate(_, n) => Some(n)
    case Unlock(_, n) => Some(n)
    case Reload(n) => Some(n)
    case Create(_, n) => Some(n)
    case Place(_, n, _, _) => Some(n)
    case _ => None
  }

  /** Probes 0 to j-1 of thread t in table i found slots of other threads. */
  ghost predicate Passed(s: State, i: nat, t: Tid, j: nat)
    requires Formed(s) && i < |s.tables|
  {
    PathUsed(s.tables[i].keys, s.hash(t), j) && forall m: nat :: m < j ==> KeyAt(s, i, t, m) != Id(t)
  }

  ghost predicate SearchOk(s: State, t: Tid, k: nat, j: nat)
    requires Formed(s) && k < |s.tables|
  {
    Passed(s, k, t, j) && forall i :: k < i < |s.tables| ==> !IsIn(s.tables, i, t)
  }

  ghost predicate CountedOk(s: State, t: Tid) {
    && t < |s.pc|
    && (CountOfPc(s.pc[t]).Some? || s.pc[t].FailSub? || s.pc[t].CreateFailed? ==> t in s.tickets && t !in s.live)
    && (CountOfPc(s.pc[t]).Some? ==> t in s.tickets && s.tickets[t] == CountOfPc(s.pc[t]).value)
    && (CountOfPc(s.pc[t]).None? && !s.pc[t].FailSub? && !s.pc[t].CreateFailed? && t in s.tickets ==> t in s.live)
  }

  ghost predicate ThreadOk(s: State, t: Tid)
    requires Formed(s) && t < |s.pc|
  {
    match s.pc[t]
    case Search(main, k, j) => k <= main && SearchOk(s, t, k, j)
    case Migrate(main, value, j) =>
      && t in s.live && s.live[t] == value && t in s.tickets && s.tickets[t] < Quarters(Capacity(s, main))
      && !IsIn(s.tables, main, t) && Passed(s, main, t, j)
    case FetchAdd(_) => t !in s.live
    case Allocate(main, n) => main == |s.tables| - 1 && n >= Capacity(s, main) / 2
    case FailClear => t !in s.live
    case Create(main, n) => n < Quarters(Capacity(s, main))
    case Place(main, n, _, j) => n < Quarters(Capacity(s, main)) && Passed(s, main, t, j)
    case Return(r) => if r.None? then t !in s.live else t in s.live && s.live[t] == r.value
    case _ => true
  }

  /** The producer a thread has, or has just made. */
  function Owns(s: State, t: Tid): Option<nat>
    requires t < |s.pc|
  {
    if t in s.live then Some(s.live[t]) else if s.pc[t].Place? then Some(s.pc[t].producer) else None
  }

  ghost predicate OwnersOk(s: State) {
    && (forall t :: 0 <= t < |s.pc| && Owns(s, t).Some? ==> Owns(s, t).value < s.made)
    && (forall t, u :: 0 <= t < u < |s.pc| && Owns(s, t).Some? ==> Owns(s, t) != Owns(s, u))
    && (forall x <- s.live :: x < |s.pc|)
  }

  ghost predicate Inv(s: State) {
    && Formed(s) && TablesOk(s) && CountOk(s) && FlagOk(s) && OwnersOk(s)
    && (forall t :: 0 <= t < |s.pc| ==> CountedOk(s, t) && ThreadOk(s, t))
  }

  // ---------------------------------------------------------------- the tables and the count

  lemma IdsAreLive(s: State, i: nat, x: Tid)
    requires Formed(s) && TablesOk(s) && i < |s.tables| && (IsIn(s.tables, i, x) || x in Ids(s.tables[i].keys))
    ensures x in s.live && x in s.tickets && s.tickets[x] < Quarters(Capacity(s, i))
  {
    hide Quarters, Used;
    var t := s.tables[i];
    assert TableOk(t, s.hash, s.live, s.tickets);
    IdsAre(t.keys, x);
    var slot :| 0 <= slot < |t.keys| && t.keys[slot] == Id(x);
    FoundValue(t, s.hash, s.live, x, slot);
  }

  lemma OkOf(s: State, i: nat)
    requires TablesOk(s) && i < |s.tables|
    ensures TableOk(s.tables[i], s.hash, s.live, s.tickets)
  {
  }

  /** A thread that is in no table is counted or no longer counted. */
  lemma RecountKeepsTables(s: State, s': State, t: Tid)
    requires Formed(s) && TablesOk(s) && t !in s.live
    requires s'.tables == s.tables && s'.hash == s.hash && s'.live == s.live
    requires forall y <- s.tickets :: y != t ==> y in s'.tickets && s'.tickets[y] == s.tickets[y]
    ensures TablesOk(s')
  {
    hide TableOk, Ids;
    forall i | 0 <= i < |s'.tables| ensures TableOk(s'.tables[i], s'.hash, s'.live, s'.tickets) {
      if t in Ids(s.tables[i].keys) {
        IdsAreLive(s, i, t);
      }
      OkOf(s, i);
      OtherTableOk(s.tables[i], s.hash, s.live, s.tickets, t, 0, s'.live, s'.tickets);
    }
  }

  lemma FetchAddKeeps(s: State, t: Tid)
    requires Formed(s) && TablesOk(s) && CountOk(s) && t !in s.live && t !in s.tickets
    ensures var s' := s.(count := s.count + 1, tickets := s.tickets[t := s.count + 1]); TablesOk(s') && CountOk(s')
  {
    hide Ordered;
    CountedKeepsOrder(s.tickets, t);
    RecountKeepsTables(s, s.(count := s.count + 1, tickets := s.tickets[t := s.count + 1]), t);
  }

  lemma FetchSubKeeps(s: State, t: Tid)
    requires Formed(s) && TablesOk(s) && CountOk(s) && t !in s.live && t in s.tickets
    ensures s.count > 0
    ensures var s' := s.(count := s.count - 1, tickets := s.tickets - {t}); TablesOk(s') && CountOk(s')
  {
    hide Ordered;
    assert t in s.tickets.Keys;
    UncountedKeepsOrder(s.tickets, t);
    RecountKeepsTables(s, s.(count := s.count - 1, tickets := s.tickets - {t}), t);
  }

  /** Thread t takes a slot of table i, whether it is new or migrates. */
  lemma PlacedKeeps(s: State, i: nat, t: Tid, j: nat, value: nat)
    requires Formed(s) && TablesOk(s) && CountOk(s) && i < |s.tables| && t in s.tickets
    requires s.tickets[t] < Quarters(Capacity(s, i)) && !IsIn(s.tables, i, t) && Passed(s, i, t, j)
    requires KeyAt(s, i, t, j).Empty? && (t in s.live ==> s.live[t] == value)
    ensures TablesOk(Placed(s, i, t, j, value).(live := s.live[t := value]))
  {
    hide Quarters, TableOk, Ids, Pos, Ordered;
    var s' := Placed(s, i, t, j, value).(live := s.live[t := value]);
    OkOf(s, i);
    PlacedIsOk(s.tables[i], s.hash, s.live, s.tickets, t, value, j);
    forall k | 0 <= k < |s'.tables| ensures TableOk(s'.tables[k], s'.hash, s'.live, s'.tickets) {
      if k != i {
        OkOf(s, k);
        if t in s.live {
          assert s'.live == s.live;
        } else {
          if t in Ids(s.tables[k].keys) {
            IdsAreLive(s, k, t);
          }
          OtherTableOk(s.tables[k], s.hash, s.live, s.tickets, t, value, s'.live, s'.tickets);
        }
      }
    }
    forall x <- s'.live ensures x in s'.tickets && exists k :: 0 <= k < |s'.tables| && IsIn(s'.tables, k, x) {
      PlacedStaysIn(s, i, t, j, value, x);
    }
  }

  lemma PlacedStaysIn(s: State, i: nat, t: Tid, j: nat, value: nat, x: Tid)
    requires Formed(s) && TablesOk(s) && i < |s.tables| && (x == t || x in s.live) && KeyAt(s, i, t, j).Empty?
    ensures exists k :: 0 <= k < |s.tables| && IsIn(Placed(s, i, t, j, value).tables, k, x)
  {
    hide Pos, TableOk;
    var s', slot := Placed(s, i, t, j, value), Probe(s, i, t, j);
    if x == t {
      assert s'.tables[i].keys[slot] == Id(t);
      assert IsIn(s'.tables, i, x);
    } else {
      var k :| 0 <= k < |s.tables| && IsIn(s.tables, k, x);
      var at :| 0 <= at < |s.tables[k].keys| && s.tables[k].keys[at] == Id(x);
      assert s'.tables[k].keys[at] == Id(x);
      assert IsIn(s'.tables, k, x);
    }
  }

  lemma AllocatedKeeps(s: State, cap: nat)
    requires Formed(s) && TablesOk(s) && cap >= Capacity(s, |s.tables| - 1)
    ensures TablesOk(s.(tables := s.tables + [NewTable(cap)]))
  {
    hide TableOk;
    var s' := s.(tables := s.tables + [NewTable(cap)]);
    assert cap > 0 by {
      assert TableFormed(s.tables[|s.tables| - 1]);
    }
    NewTableOk(cap, s.hash, s.live, s.tickets);
    forall i, k | 0 <= i <= k < |s'.tables| ensures |s'.tables[i].keys| <= |s'.tables[k].keys| {
      if i < |s.tables| {
        assert |s.tables[i].keys| <= |s.tables[|s.tables| - 1].keys|;
      }
    }
    forall x <- s.live ensures exists i :: 0 <= i < |s'.tables| && IsIn(s'.tables, i, x) {
      var i :| 0 <= i < |s.tables| && IsIn(s.tables, i, x);
      assert IsIn(s'.tables, i, x);
    }
  }

  /** The tables and the count after any step. */
  lemma EffectKeeps(s: State, t: Tid, memory: bool)
    requires Formed(s) && TablesOk(s) && CountOk(s) && t < |s.pc| && CountedOk(s, t) && ThreadOk(s, t)
    ensures var s' := Effect(s, t, memory); TablesOk(s') && CountOk(s')
  {
    hide Formed, TablesOk, CountOk, CountedOk, ThreadOk, Effect;
    match s.pc[t]
    case Migrate(_, _, _) => PlacingKeeps(s, t, memory);
    case Place(_, _, _, _) => PlacingKeeps(s, t, memory);
    case Allocate(_, _) => AllocateKeeps(s, t, memory);
    case FetchAdd(_) => CountingKeeps(s, t, memory);
    case FailSub => CountingKeeps(s, t, memory);
    case CreateFailed => CountingKeeps(s, t, memory);
    case _ => QuietKeeps(s, t, memory);
  }

  lemma CountingKeeps(s: State, t: Tid, memory: bool)
    requires Formed(s) && TablesOk(s) && CountOk(s) && t < |s.pc| && CountedOk(s, t) && ThreadOk(s, t)
    requires s.pc[t].FetchAdd? || s.pc[t].FailSub? || s.pc[t].CreateFailed?
    ensures var s' := Effect(s, t, memory); TablesOk(s') && CountOk(s')
  {
    hide Formed, TablesOk, Ordered;
    if s.pc[t].FetchAdd? {
      FetchAddKeeps(s, t);
    } else {
      FetchSubKeeps(s, t);
    }
  }

  lemma QuietKeeps(s: State, t: Tid, memory: bool)
    requires Formed(s) && TablesOk(s) && CountOk(s) && t < |s.pc|
    requires !s.pc[t].Migrate? && !s.pc[t].Place? && !s.pc[t].Allocate?
    requires !s.pc[t].FetchAdd? && !s.pc[t].FailSub? && !s.pc[t].CreateFailed?
    ensures var s' := Effect(s, t, memory); TablesOk(s') && CountOk(s')
  {
    hide TablesOk, CountOk, KeyAt, Placed, Capacity, Doubled;
    NoTableChange(s, Effect(s, t, memory));
  }

  lemma NoTableChange(s: State, s': State)
    requires TablesOk(s) && CountOk(s) && s'.tables == s.tables && s'.hash == s.hash && s'.live == s.live
    requires s'.tickets == s.tickets && s'.count == s.count
    ensures TablesOk(s') && CountOk(s')
  {
  }

  lemma AllocateKeeps(s: State, t: Tid, memory: bool)
    requires Formed(s) && TablesOk(s) && CountOk(s) && t < |s.pc| && s.pc[t].Allocate? && ThreadOk(s, t)
    ensures var s' := Effect(s, t, memory); TablesOk(s') && CountOk(s')
  {
    hide TablesOk, Ordered, Quarters, Doubled;
    if memory {
      assert TableFormed(s.tables[s.pc[t].main]);
      AllocatedKeeps(s, Doubled(s.pc[t].newCount, 2 * Capacity(s, s.pc[t].main)));
    }
  }

  lemma PlacingKeeps(s: State, t: Tid, memory: bool)
    requires Formed(s) && TablesOk(s) && CountOk(s) && t < |s.pc| && CountedOk(s, t) && ThreadOk(s, t)
    requires s.pc[t].Migrate? || s.pc[t].Place?
    ensures var s' := Effect(s, t, memory); TablesOk(s') && CountOk(s')
  {
    hide TablesOk, Ordered, Quarters, Doubled, Passed, KeyAt, Placed, IsIn, SearchOk;
    var i, j := MainOf(s.pc[t]), s.pc[t].j;
    if KeyAt(s, i, t, j).Empty? {
      if s.pc[t].Place? {
        NotLiveNotIn(s, i, t);
        PlacedKeeps(s, i, t, j, s.pc[t].producer);
      } else {
        PlacedKeeps(s, i, t, j, s.pc[t].value);
        assert s.live[t := s.pc[t].value] == s.live;
      }
    }
  }

  lemma NotLiveNotIn(s: State, i: nat, t: Tid)
    requires Formed(s) && TablesOk(s) && i < |s.tables| && t !in s.live
    ensures !IsIn(s.tables, i, t)
  {
    hide TablesOk, Quarters;
    if IsIn(s.tables, i, t) {
      IdsAreLive(s, i, t);
    }
  }

  // ---------------------------------------------------------------- the flag

  lemma FlagKept(s: State, a: Action)
    requires Formed(s) && FlagOk(s) && a.t < |s.pc|
    ensures FlagOk(Step(s, a))
  {
    hide Sum, Doubled, Quarters, KeyAt, Placed, Pos;
    SumUpdate(s.pc, a.t, Move(s, a.t, a.memory), Holding);
  }

  /** Two threads never have the flag. */
  lemma OneHolder(s: State, t: Tid, u: Tid)
    requires FlagOk(s) && t < |s.pc| && u < |s.pc| && t != u && Holding(s.pc[t]) == 1
    ensures Holding(s.pc[u]) == 0
  {
    TwoTerms(s.pc, t, u, Holding);
  }

  // ---------------------------------------------------------------- the other threads

  /** Table b is table a after thread t took an empty slot. */
  ghost predicate SlotTaken(a: Table, b: Table, slot: nat, t: Tid) {
    slot < |a.keys| && a.keys[slot].Empty? && b.keys == a.keys[slot := Id(t)]
  }

  ghost predicate SameOrTaken(a: Table, b: Table, t: Tid) {
    b == a || exists slot :: SlotTaken(a, b, slot, t)
  }

  ghost predicate Untouched(t: Table) {
    forall slot :: 0 <= slot < |t.keys| ==> t.keys[slot].Empty?
  }

  /** All that a step of thread t does to what other threads rely on. */
  ghost predicate Grew(s: State, s': State, t: Tid) {
    && s'.hash == s.hash && t < |s.pc| && |s'.pc| == |s.pc|
    && (forall u :: 0 <= u < |s.pc| && u != t ==> s'.pc[u] == s.pc[u])
    && |s.tables| <= |s'.tables|
    && (forall i :: 0 <= i < |s.tables| ==> SameOrTaken(s.tables[i], s'.tables[i], t))
    && (forall i :: |s.tables| <= i < |s'.tables| ==> Untouched(s'.tables[i]))
    && (|s'.tables| > |s.tables| ==> s.pc[t].Allocate?)
    && (forall u: Tid :: u != t ==> (u in s'.live <==> u in s.live) && (u in s.live ==> s'.live[u] == s.live[u]))
    && (forall u: Tid :: u != t ==>
         (u in s'.tickets <==> u in s.tickets) && (u in s.tickets ==> s'.tickets[u] == s.tickets[u]))
  }

  lemma PlacedTakes(s: State, i: nat, t: Tid, j: nat, value: nat, k: nat)
    requires Formed(s) && i < |s.tables| && k < |s.tables| && KeyAt(s, i, t, j).Empty?
    ensures SameOrTaken(s.tables[k], Placed(s, i, t, j, value).tables[k], t)
  {
    hide Pos;
    if k == i {
      assert SlotTaken(s.tables[i], Placed(s, i, t, j, value).tables[i], Probe(s, i, t, j), t);
    }
  }

  lemma StepGrows(s: State, a: Action)
    requires Formed(s) && a.t < |s.pc|
    ensures Grew(s, Step(s, a), a.t)
  {
    hide SameOrTaken, Doubled, Quarters, KeyAt, Placed, Move, Pos;
    forall k | 0 <= k < |s.tables|
      ensures |s.tables| <= |Effect(s, a.t, a.memory).tables|
      ensures SameOrTaken(s.tables[k], Effect(s, a.t, a.memory).tables[k], a.t)
    {
      TableGrows(s, a.t, a.memory, k);
    }
    LiveGrows(s, a.t, a.memory);
    TicketsGrow(s, a.t, a.memory);
    NewTablesUntouched(s, a.t, a.memory);
    hide Effect, Untouched;
  }

  lemma TableGrows(s: State, t: Tid, memory: bool, k: nat)
    requires Formed(s) && t < |s.pc| && k < |s.tables|
    ensures |s.tables| <= |Effect(s, t, memory).tables| && SameOrTaken(s.tables[k], Effect(s, t, memory).tables[k], t)
  {
    hide Doubled, Quarters, Pos, SlotTaken;
    match s.pc[t]
    case Migrate(main, value, j) => if KeyAt(s, main, t, j).Empty? { PlacedTakes(s, main, t, j, value, k); }
    case Place(main, _, producer, j) => if KeyAt(s, main, t, j).Empty? { PlacedTakes(s, main, t, j, producer, k); }
    case _ =>
  }

  lemma NewTablesUntouched(s: State, t: Tid, memory: bool)
    requires Formed(s) && t < |s.pc|
    ensures var s' := Effect(s, t, memory);
      && |s.tables| <= |s'.tables| && (|s'.tables| > |s.tables| ==> s.pc[t].Allocate?)
      && (forall i :: |s.tables| <= i < |s'.tables| ==> Untouched(s'.tables[i]))
  {
    hide Doubled, Quarters, Probe, KeyAt, Placed;
  }

  lemma LiveGrows(s: State, t: Tid, memory: bool)
    requires Formed(s) && t < |s.pc|
    ensures var s' := Effect(s, t, memory);
      && s'.hash == s.hash && s'.pc == s.pc
      && forall u: Tid :: u != t ==> (u in s'.live <==> u in s.live) && (u in s.live ==> s'.live[u] == s.live[u])
  {
    hide Formed, Placed, Pos, Doubled, Quarters, Probe, KeyAt, Placed, Capacity, NewTable, TableFormed;
  }

  lemma TicketsGrow(s: State, t: Tid, memory: bool)
    requires Formed(s) && t < |s.pc|
    ensures var s' := Effect(s, t, memory);
      forall u: Tid :: u != t ==>
        (u in s'.tickets <==> u in s.tickets) && (u in s.tickets ==> s'.tickets[u] == s.tickets[u])
  {
    hide Doubled, Quarters, Probe, KeyAt, Placed, Capacity, NewTable, TableFormed;
  }

  /** No other thread puts thread u into a table, and no slot becomes empty. */
  lemma TakenByOther(a: Table, b: Table, t: Tid, u: Tid)
    requires SameOrTaken(a, b, t) && t != u
    ensures |b.keys| == |a.keys| && (Id(u) in b.keys <==> Id(u) in a.keys)
    ensures forall s :: 0 <= s < |a.keys| ==>
      (!a.keys[s].Empty? ==> b.keys[s] == a.keys[s]) && (a.keys[s] != Id(u) ==> b.keys[s] != Id(u))
  {
    if b != a {
      var slot :| SlotTaken(a, b, slot, t);
      assert forall s :: 0 <= s < |a.keys| ==> (a.keys[s] == Id(u) <==> b.keys[s] == Id(u));
    }
  }

  lemma PassedKept(s: State, s': State, t: Tid, u: Tid, i: nat, j: nat)
    requires Formed(s) && Formed(s') && Grew(s, s', t) && t != u && i < |s.tables| && Passed(s, i, u, j)
    ensures Passed(s', i, u, j)
  {
    hide Pos;
    var a, b := s.tables[i], s'.tables[i];
    TakenByOther(a, b, t, u);
    forall m: nat | m < j ensures !b.keys[Pos(|b.keys|, s.hash(u), m)].Empty? && KeyAt(s', i, u, m) != Id(u) {
      assert !a.keys[Pos(|a.keys|, s.hash(u), m)].Empty? && KeyAt(s, i, u, m) != Id(u);
    }
  }

  lemma StillNotIn(s: State, s': State, t: Tid, u: Tid, i: nat)
    requires Formed(s) && Formed(s') && Grew(s, s', t) && t != u
    requires i < |s'.tables| && (i < |s.tables| ==> !IsIn(s.tables, i, u))
    ensures !IsIn(s'.tables, i, u)
  {
    if i < |s.tables| {
      TakenByOther(s.tables[i], s'.tables[i], t, u);
    } else {
      assert Untouched(s'.tables[i]);
    }
  }

  lemma SearchKept(s: State, s': State, t: Tid, u: Tid, k: nat, j: nat)
    requires Formed(s) && Formed(s') && Grew(s, s', t) && t != u && k < |s.tables| && SearchOk(s, u, k, j)
    ensures SearchOk(s', u, k, j)
  {
    hide Grew, Passed, IsIn;
    PassedKept(s, s', t, u, k, j);
    forall i | k < i < |s'.tables| ensures !IsIn(s'.tables, i, u) {
      StillNotIn(s, s', t, u, i);
    }
  }

  lemma CapacityKept(s: State, s': State, t: Tid, i: nat)
    requires Grew(s, s', t) && i < |s.tables|
    ensures i < |s'.tables| && Capacity(s', i) == Capacity(s, i)
  {
    if s'.tables[i] != s.tables[i] {
      var slot :| SlotTaken(s.tables[i], s'.tables[i], slot, t);
    }
  }

  lemma OtherThreadKept(s: State, s': State, t: Tid, u: Tid)
    requires Formed(s) && Formed(s') && Grew(s, s', t) && t != u && u < |s.pc| && ThreadOk(s, u)
    requires FlagOk(s)
    ensures ThreadOk(s', u)
  {
    OtherPc(s, s', t, u);
    hide Grew, Passed, SearchOk, IsIn, Capacity, Quarters, FlagOk;
    match s.pc[u]
    case Search(main, k, j) => SearchKept(s, s', t, u, k, j);
    case Migrate(main, value, j) =>
      PassedKept(s, s', t, u, main, j);
      StillNotIn(s, s', t, u, main);
      CapacityKept(s, s', t, main);
    case Allocate(main, n) =>
      NobodyAllocates(s, s', t, u);
      CapacityKept(s, s', t, main);
    case Create(main, n) => CapacityKept(s, s', t, main);
    case Place(main, n, producer, j) =>
      PassedKept(s, s', t, u, main, j);
      CapacityKept(s, s', t, main);
    case _ =>
  }

  lemma OtherPc(s: State, s': State, t: Tid, u: Tid)
    requires Grew(s, s', t) && t != u && u < |s.pc|
    ensures |s'.pc| == |s.pc| && s'.pc[u] == s.pc[u] && |s.tables| <= |s'.tables|
    ensures (u in s'.live <==> u in s.live) && (u in s.live ==> s'.live[u] == s.live[u])
    ensures (u in s'.tickets <==> u in s.tickets) && (u in s.tickets ==> s'.tickets[u] == s.tickets[u])
  {
  }

  lemma NobodyAllocates(s: State, s': State, t: Tid, u: Tid)
    requires Grew(s, s', t) && FlagOk(s) && t != u && u < |s.pc| && s.pc[u].Allocate?
    ensures |s'.tables| == |s.tables|
  {
    OneHolder(s, u, t);
  }

  // ---------------------------------------------------------------- the thread itself

  lemma PassedOneMore(s: State, i: nat, t: Tid, j: nat)
    requires Formed(s) && i < |s.tables| && Passed(s, i, t, j)
    requires !KeyAt(s, i, t, j).Empty? && KeyAt(s, i, t, j) != Id(t)
    ensures Passed(s, i, t, j + 1)
  {
    hide Pos;
  }

  lemma KeyIsIn(s: State, i: nat, t: Tid, j: nat)
    requires Formed(s) && i < |s.tables| && KeyAt(s, i, t, j) == Id(t)
    ensures IsIn(s.tables, i, t)
  {
    hide Pos;
  }

  /** The search's step. */
  lemma SearchStep(s: State, a: Action)
    requires Inv(s) && a.t < |s.pc| && s.pc[a.t].Search? && Formed(Step(s, a))
    ensures ThreadOk(Step(s, a), a.t)
  {
    hide CountOk, FlagOk, OwnersOk, Pos, Quarters, TablesOk, Passed, IsIn;
    var t := a.t;
    assert ThreadOk(s, t);
    var main, k, j := s.pc[t].main, s.pc[t].k, s.pc[t].j;
    var s' := Step(s, a);
    if KeyAt(s, k, t, j) == Id(t) {
      SearchHits(s, t, main, k, j);
      NothingPassed(s', main, t);
    } else if KeyAt(s, k, t, j).Empty? {
      SearchMisses(s, t, k, j);
      if k > 0 {
        NothingPassed(s', k - 1, t);
      }
    } else {
      PassedOneMore(s, k, t, j);
      PassedFrame(s, s', k, t, j + 1);
    }
  }

  lemma NothingPassed(s: State, i: nat, t: Tid)
    requires Formed(s) && i < |s.tables|
    ensures Passed(s, i, t, 0)
  {
  }

  lemma PassedFrame(s: State, s': State, i: nat, t: Tid, j: nat)
    requires Formed(s) && Formed(s') && i < |s.tables| && s'.tables == s.tables && s'.hash == s.hash
    ensures Passed(s', i, t, j) == Passed(s, i, t, j)
  {
    hide Pos;
    assert forall m: nat :: KeyAt(s', i, t, m) == KeyAt(s, i, t, m);
  }

  lemma SearchHits(s: State, t: Tid, main: nat, k: nat, j: nat)
    requires Formed(s) && TablesOk(s) && k <= main < |s.tables| && SearchOk(s, t, k, j) && KeyAt(s, k, t, j) == Id(t)
    ensures t in s.live && s.tables[k].values[Probe(s, k, t, j)] == s.live[t]
    ensures t in s.tickets && s.tickets[t] < Quarters(Capacity(s, main)) && (k < main ==> !IsIn(s.tables, main, t))
    ensures Passed(s, main, t, 0)
  {
    hide Pos, Quarters;
    OkOf(s, k);
    KeyIsIn(s, k, t, j);
    IdsAreLive(s, k, t);
    FoundValue(s.tables[k], s.hash, s.live, t, Probe(s, k, t, j));
    QuartersMonotone(Capacity(s, k), Capacity(s, main));
  }

  lemma QuartersMonotone(a: nat, b: nat)
    requires a <= b
    ensures Quarters(a) <= Quarters(b)
  {
  }

  lemma NotInThisTable(s: State, t: Tid, k: nat, j: nat)
    requires Formed(s) && TablesOk(s) && k < |s.tables| && SearchOk(s, t, k, j) && KeyAt(s, k, t, j).Empty?
    ensures !IsIn(s.tables, k, t)
  {
    hide Pos, Quarters, Formed;
    OkOf(s, k);
    hide TablesOk, TableInv;
    var table := s.tables[k];
    forall m: nat | m < j ensures table.keys[Pos(|table.keys|, s.hash(t), m)] != Id(t) {
      assert KeyAt(s, k, t, m) != Id(t);
    }
    EmptyMeansAbsent(table, s.hash, s.live, t, j);
  }

  lemma FoundNowhere(s: State, t: Tid)
    requires TablesOk(s) && forall i :: 0 <= i < |s.tables| ==> !IsIn(s.tables, i, t)
    ensures t !in s.live
  {
    hide IsIn, TableOk;
  }

  lemma SearchMisses(s: State, t: Tid, k: nat, j: nat)
    requires Formed(s) && TablesOk(s) && k < |s.tables| && SearchOk(s, t, k, j) && KeyAt(s, k, t, j).Empty?
    ensures !IsIn(s.tables, k, t) && (k == 0 ==> t !in s.live)
  {
    hide TablesOk, Formed, IsIn, Passed, KeyAt;
    NotInThisTable(s, t, k, j);
    if k == 0 {
      FoundNowhere(s, t);
    }
  }

  /** The exchanges of keys. */
  lemma PlacingStep(s: State, a: Action)
    requires Inv(s) && a.t < |s.pc| && (s.pc[a.t].Migrate? || s.pc[a.t].Place?) && Formed(Step(s, a))
    ensures ThreadOk(Step(s, a), a.t)
  {
    hide CountOk, FlagOk, OwnersOk, Pos, Quarters, TableOk, Passed, TablesOk;
    var t := a.t;
    assert ThreadOk(s, t) && CountedOk(s, t);
    var i, j := MainOf(s.pc[t]), s.pc[t].j;
    if s.pc[t].Place? {
      NotLiveNotIn(s, i, t);
    }
    if !KeyAt(s, i, t, j).Empty? {
      if KeyAt(s, i, t, j) == Id(t) {
        KeyIsIn(s, i, t, j);
      }
      PassedOneMore(s, i, t, j);
      PassedFrame(s, Step(s, a), i, t, j + 1);
    }
  }

  lemma CreateStep(s: State, a: Action)
    requires Inv(s) && a.t < |s.pc| && s.pc[a.t].Create? && Formed(Step(s, a))
    ensures ThreadOk(Step(s, a), a.t)
  {
    hide CountOk, FlagOk, OwnersOk, TablesOk, IsIn, Passed;
    assert ThreadOk(s, a.t);
    NothingPassed(Step(s, a), s.pc[a.t].main, a.t);
  }

  lemma ReadyStep(s: State, a: Action)
    requires Inv(s) && a.t < |s.pc| && s.pc[a.t].Ready? && Formed(Step(s, a))
    ensures ThreadOk(Step(s, a), a.t)
  {
    hide CountOk, FlagOk, OwnersOk, TablesOk, IsIn, Passed;
    NothingPassed(Step(s, a), |s.tables| - 1, a.t);
  }

  /** The steps around the resize flag and the decision after them. */
  lemma FlagStep(s: State, a: Action)
    requires Formed(s) && a.t < |s.pc| && Formed(Step(s, a))
    requires s.pc[a.t].TestFlag? || s.pc[a.t].LoadMain? || s.pc[a.t].Allocate? || s.pc[a.t].Unlock? || s.pc[a.t].Reload?
    ensures ThreadOk(Step(s, a), a.t)
  {
    hide Doubled, KeyAt, Placed, Passed, SearchOk, Probe, Quarters, IsIn;
  }

  /** The steps that count the thread, or end its call. */
  lemma OtherStep(s: State, a: Action)
    requires Formed(s) && a.t < |s.pc| && ThreadOk(s, a.t) && CountedOk(s, a.t) && Formed(Step(s, a))
    requires s.pc[a.t].FetchAdd? || s.pc[a.t].FailSub? || s.pc[a.t].FailClear? || s.pc[a.t].CreateFailed? ||
      s.pc[a.t].Return?
    ensures ThreadOk(Step(s, a), a.t)
  {
    hide Doubled, KeyAt, Placed, Passed, SearchOk, Probe, Quarters, IsIn, Capacity;
  }

  lemma OwnThreadKept(s: State, a: Action)
    requires Inv(s) && a.t < |s.pc| && Formed(Step(s, a))
    ensures ThreadOk(Step(s, a), a.t)
  {
    assert ThreadOk(s, a.t) && CountedOk(s, a.t) && Formed(s);
    hide ThreadOk, CountedOk, Inv, Step, Formed;
    match s.pc[a.t]
    case Ready => ReadyStep(s, a);
    case Search(_, _, _) => SearchStep(s, a);
    case Create(_, _) => CreateStep(s, a);
    case Migrate(_, _, _) => PlacingStep(s, a);
    case Place(_, _, _, _) => PlacingStep(s, a);
    case FetchAdd(_) => OtherStep(s, a);
    case FailSub => OtherStep(s, a);
    case FailClear => OtherStep(s, a);
    case CreateFailed => OtherStep(s, a);
    case Return(_) => OtherStep(s, a);
    case _ => FlagStep(s, a);
  }

  lemma CountedStep(s: State, a: Action)
    requires Formed(s) && a.t < |s.pc| && CountedOk(s, a.t) && CountOfPc(s.pc[a.t]).Some? && !s.pc[a.t].Place?
    ensures CountedOk(Step(s, a), a.t)
  {
    hide Ordered, Probe, Doubled, Quarters, KeyAt, Placed, Passed, SearchOk, IsIn, Capacity;
  }

  lemma UncountedStep(s: State, a: Action)
    requires Formed(s) && a.t < |s.pc| && CountedOk(s, a.t) && CountOfPc(s.pc[a.t]).None?
    requires !s.pc[a.t].FetchAdd? && !s.pc[a.t].FailSub? && !s.pc[a.t].CreateFailed?
    ensures CountedOk(Step(s, a), a.t)
  {
    hide Ordered, Probe, Doubled, Quarters, KeyAt, Placed, Passed, SearchOk, IsIn, Capacity;
  }

  lemma CountingStep(s: State, a: Action)
    requires Formed(s) && a.t < |s.pc| && CountedOk(s, a.t) && ThreadOk(s, a.t)
    requires s.pc[a.t].FetchAdd? || s.pc[a.t].FailSub? || s.pc[a.t].CreateFailed? || s.pc[a.t].Place?
    ensures CountedOk(Step(s, a), a.t)
  {
    hide Ordered, Probe, Doubled, Quarters, KeyAt, Placed, Passed, SearchOk, IsIn, Capacity;
  }

  lemma OwnCountedKept(s: State, a: Action)
    requires Formed(s) && a.t < |s.pc| && CountedOk(s, a.t) && ThreadOk(s, a.t)
    ensures CountedOk(Step(s, a), a.t)
  {
    hide CountedOk, ThreadOk, Step, Formed;
    var pc := s.pc[a.t];
    if pc.FetchAdd? || pc.FailSub? || pc.CreateFailed? || pc.Place? {
      CountingStep(s, a);
    } else if CountOfPc(pc).Some? {
      CountedStep(s, a);
    } else {
      UncountedStep(s, a);
    }
  }

  // ---------------------------------------------------------------- the producers

  lemma MadeOfStep(s: State, a: Action)
    requires Formed(s) && a.t < |s.pc|
    ensures Step(s, a).made == if s.pc[a.t].Create? && a.memory then s.made + 1 else s.made
    ensures forall x <- Step(s, a).live :: x in s.live || x == a.t
  {
    hide Probe, Doubled, Quarters, KeyAt, Placed, Move, Capacity;
  }

  lemma OwnerOfStep(s: State, a: Action)
    requires Formed(s) && a.t < |s.pc| && ThreadOk(s, a.t) && CountedOk(s, a.t)
    ensures var s' := Step(s, a);
      Owns(s', a.t) == Owns(s, a.t) || (Owns(s', a.t) == Some(s.made) && s.pc[a.t].Create? && a.memory) ||
        Owns(s', a.t).None?
  {
    hide Probe, Doubled, Quarters, KeyAt, Placed, Passed, SearchOk, IsIn, Capacity;
  }

  lemma OwnersKept(s: State, a: Action)
    requires Inv(s) && a.t < |s.pc|
    ensures OwnersOk(Step(s, a))
  {
    hide TablesOk, CountOk, FlagOk, ThreadOk, CountedOk;
    assert ThreadOk(s, a.t) && CountedOk(s, a.t);
    OwnerOfStep(s, a);
    MadeOfStep(s, a);
    StepGrows(s, a);
    hide Step;
    var s' := Step(s, a);
    forall u | 0 <= u < |s.pc| && u != a.t ensures |s'.pc| == |s.pc| && Owns(s', u) == Owns(s, u) {
      OtherPc(s, s', a.t, u);
    }
  }

  // ---------------------------------------------------------------- every step and every run

  lemma StepKeepsInv(s: State, a: Action)
    requires Inv(s)
    ensures Inv(Step(s, a))
  {
    if a.t < |s.pc| {
      StepStaysFormed(s, a);
      var s' := Step(s, a);
      hide TablesOk, CountOk, FlagOk, OwnersOk, Formed;
      assert ThreadOk(s, a.t) && CountedOk(s, a.t);
      EffectKeeps(s, a.t, a.memory);
      PcIsNoTable(Effect(s, a.t, a.memory), s');
      hide ThreadOk, CountedOk;
      FlagKept(s, a);
      OwnersKept(s, a);
      StepGrows(s, a);
      OwnThreadKept(s, a);
      OwnCountedKept(s, a);
      hide Step, Grew;
      assert |s'.pc| == |s.pc| by { GrewPcs(s, s', a.t); }
      forall u | 0 <= u < |s'.pc| ensures CountedOk(s', u) && ThreadOk(s', u) {
        if u != a.t {
          assert CountedOk(s, u) && ThreadOk(s, u);
          OtherThreadKept(s, s', a.t, u);
          OtherCountedKept(s, s', a.t, u);
        }
      }
    }
  }

  lemma GrewPcs(s: State, s': State, t: Tid)
    requires Grew(s, s', t)
    ensures |s'.pc| == |s.pc|
  {
  }

  lemma PcIsNoTable(s: State, s': State)
    requires TablesOk(s) && CountOk(s) && s' == s.(pc := s'.pc)
    ensures TablesOk(s') && CountOk(s')
  {
  }

  lemma OtherCountedKept(s: State, s': State, t: Tid, u: Tid)
    requires Grew(s, s', t) && t != u && u < |s.pc| && CountedOk(s, u)
    ensures CountedOk(s', u)
  {
    OtherPc(s, s', t, u);
    hide Grew;
  }

  lemma InitIsOk(hash: nat -> nat, cap: nat, threads: nat)
    requires cap > 0
    ensures Inv(Init(hash, cap, threads))
  {
    NewTableOk(cap, hash, map[], map[]);
    SumOfZeros(Init(hash, cap, threads).pc, Holding);
    assert forall m: nat :: Low(map[], m) == {};
  }

  lemma {:induction false} RunKeepsInv(hash: nat -> nat, cap: nat, threads: nat, acts: seq<Action>)
    requires cap > 0
    ensures Inv(Run(hash, cap, threads, acts))
  {
    if acts == [] {
      InitIsOk(hash, cap, threads);
    } else {
      hide Inv, Step;
      RunKeepsInv(hash, cap, threads, acts[..|acts| - 1]);
      StepKeepsInv(Run(hash, cap, threads, acts[..|acts| - 1]), acts[|acts| - 1]);
    }
  }

  /** The search and claiming loops end (3414, 3509): in every table, at every time, less than three
      quarters of the slots are in use, so one is empty, and no thread probes a table round. */
  lemma ProbingEnds(hash: nat -> nat, cap: nat, threads: nat, acts: seq<Action>, i: nat, t: Tid)
    requires cap > 0 && i < |Run(hash, cap, threads, acts).tables| && t < |Run(hash, cap, threads, acts).pc|
    ensures var s := Run(hash, cap, threads, acts); var used := Used(s.tables[i].keys);
      && (used == 0 || used < Quarters(Capacity(s, i))) && used < Capacity(s, i)
      && (s.pc[t].Search? ==> s.pc[t].j < Capacity(s, s.pc[t].k))
      && (s.pc[t].Migrate? || s.pc[t].Place? ==> s.pc[t].j < Capacity(s, s.pc[t].main))
  {
    var s := Run(hash, cap, threads, acts);
    RunKeepsInv(hash, cap, threads, acts);
    assert ThreadOk(s, t);
    hide Run, Pos, CountedOk, FlagOk, OwnersOk;
    OkOf(s, i);
    Bounded(s.tables[i], s.hash, s.live, s.tickets);
    match s.pc[t]
    case Search(_, k, j) => OkOf(s, k); PathIsShort(s.tables[k], s.hash, s.live, s.tickets, s.hash(t), j);
    case Migrate(main, _, j) => OkOf(s, main); PathIsShort(s.tables[main], s.hash, s.live, s.tickets, s.hash(t), j);
    case Place(main, _, _, j) => OkOf(s, main); PathIsShort(s.tables[main], s.hash, s.live, s.tickets, s.hash(t), j);
    case _ =>
  }

  /** A call gives the thread's own producer: the one the thread always gets, and no other thread has. */
  lemma OwnProducerAlways(hash: nat -> nat, cap: nat, threads: nat, acts: seq<Action>, t: Tid, u: Tid)
    requires cap > 0 && t < |Run(hash, cap, threads, acts).pc| && u < |Run(hash, cap, threads, acts).pc| && t != u
    requires Run(hash, cap, threads, acts).pc[t].Return?
    ensures var s := Run(hash, cap, threads, acts); var r := s.pc[t].r;
      if r.None? then t !in s.live
      else t in s.live && s.live[t] == r.value && (u in s.live ==> s.live[u] != r.value)
  {
    var s := Run(hash, cap, threads, acts);
    RunKeepsInv(hash, cap, threads, acts);
    hide Run, TablesOk, CountOk, FlagOk;
    assert ThreadOk(s, t);
    assert Owns(s, t) == Owns(s, u) ==> Owns(s, t).None?;
  }

  /** Once a thread has a producer no step takes it away or changes it. */
  lemma ProducersStay(s: State, a: Action, t: Tid)
    requires Inv(s) && t in s.live
    ensures t in Step(s, a).live && Step(s, a).live[t] == s.live[t]
  {
    if a.t < |s.pc| {
      assert CountedOk(s, a.t) && t < |s.pc|;
      hide Inv, CountedOk;
      if a.t == t {
        OwnProducerStays(s, a);
      } else {
        StepGrows(s, a);
        hide Step;
        OtherPc(s, Step(s, a), a.t, t);
      }
    }
  }

  lemma OwnProducerStays(s: State, a: Action)
    requires Formed(s) && a.t < |s.pc| && CountedOk(s, a.t) && a.t in s.live
    ensures Step(s, a).live == s.live
  {
    hide KeyAt, Placed, Probe, Doubled, Quarters, Move, Capacity;
  }

  /** One thread at a time has the resize flag, and the table it doubles is the newest (3460-3483). */
  lemma OneResizer(hash: nat -> nat, cap: nat, threads: nat, acts: seq<Action>, t: Tid, u: Tid)
    requires cap > 0 && t < |Run(hash, cap, threads, acts).pc| && u < |Run(hash, cap, threads, acts).pc|
    ensures var s := Run(hash, cap, threads, acts);
      && (t != u && Holding(s.pc[t]) == 1 ==> Holding(s.pc[u]) == 0)
      && (s.pc[t].Allocate? ==> s.pc[t].main == |s.tables| - 1)
      && (s.resizing <==> Sum(s.pc, Holding) == 1)
  {
    var s := Run(hash, cap, threads, acts);
    RunKeepsInv(hash, cap, threads, acts);
    hide Run, TablesOk, CountOk, OwnersOk;
    assert ThreadOk(s, t);
    if t != u && Holding(s.pc[t]) == 1 {
      OneHolder(s, t, u);
    }
  }

  // ---------------------------------------------------------------- every call comes to its end

  /** How far a call still has to go: the part of the code it is in... */
  function Phase(pc: Pc): nat {
    match pc
    case Ready => 0
    case Return(_) => 0
    case FailClear => 1
    case CreateFailed => 1
    case Migrate(_, _, _) => 1
    case Place(_, _, _, _) => 1
    case FailSub => 2
    case Create(_, _) => 2
    case Unlock(_, _) => 3
    case Allocate(_, _) => 4
    case LoadMain(_) => 5
    case TestFlag(_, _) => 6
    case Reload(_) => 7
    case FetchAdd(_) => 8
    case Search(_, k, _) => 9 + k
  }

  /** ...and the slots it may still probe there. */
  function ProbesLeft(s: State, t: Tid): int
    requires Formed(s) && t < |s.pc|
  {
    match s.pc[t]
    case Search(_, k, j) => Capacity(s, k) - j
    case Migrate(main, _, j) => Capacity(s, main) - j
    case Place(main, _, _, j) => Capacity(s, main) - j
    case _ => 0
  }

  /** Nearer to the end: the probes left are never negative. */
  predicate Nearer(s: State, s': State, t: Tid)
    requires Formed(s) && Formed(s') && t < |s.pc| && t < |s'.pc|
  {
    Phase(s'.pc[t]) < Phase(s.pc[t])
    || (Phase(s'.pc[t]) == Phase(s.pc[t]) && 0 <= ProbesLeft(s', t) < ProbesLeft(s, t))
  }

  /** With the flag given back the table is less than half full (3457, 3463). */
  predicate RoomAfterResize(s: State, t: Tid)
    requires Formed(s) && t < |s.pc|
  {
    s.pc[t].Unlock? ==> s.pc[t].newCount < Capacity(s, s.pc[t].main) / 2
  }

  lemma UnlockHasRoom(s: State, a: Action)
    requires Formed(s) && a.t < |s.pc|
    ensures Formed(Step(s, a)) && RoomAfterResize(Step(s, a), a.t)
  {
    hide KeyAt, Probe, Placed, Pos;
    StepStaysFormed(s, a);
    assert TableFormed(s.tables[MainOf(s.pc[a.t])]);
  }

  lemma OtherRoomKept(s: State, a: Action, t: Tid)
    requires Formed(s) && a.t < |s.pc| && t < |s.pc| && t != a.t && RoomAfterResize(s, t)
    ensures Formed(Step(s, a)) && t < |Step(s, a).pc| && RoomAfterResize(Step(s, a), t)
  {
    StepStaysFormed(s, a);
    StepGrows(s, a);
    hide Step;
    CapacityKept(s, Step(s, a), a.t, MainOf(s.pc[t]));
  }

  lemma {:induction false} RoomKept(hash: nat -> nat, cap: nat, threads: nat, acts: seq<Action>, t: Tid)
    requires cap > 0 && t < |Run(hash, cap, threads, acts).pc|
    ensures RoomAfterResize(Run(hash, cap, threads, acts), t)
  {
    if acts != [] {
      hide Step, RoomAfterResize, Formed;
      var before, a := acts[..|acts| - 1], acts[|acts| - 1];
      var s := Run(hash, cap, threads, before);
      StepStaysFormed(s, a);
      SameThreads(s, a);
      RoomKept(hash, cap, threads, before, t);
      if a.t == t {
        UnlockHasRoom(s, a);
      } else if a.t < |s.pc| {
        OtherRoomKept(s, a, t);
      }
    }
  }

  lemma SameThreads(s: State, a: Action)
    requires Formed(s)
    ensures |Step(s, a).pc| == |s.pc| && (a.t >= |s.pc| ==> Step(s, a) == s)
  {
    hide Effect, Move;
  }

  /** What others do leaves a call where it is. */
  lemma OthersDoNotDelay(s: State, a: Action, t: Tid)
    requires Formed(s) && a.t < |s.pc| && t < |s.pc| && t != a.t
    ensures var s' := Step(s, a);
      Formed(s') && t < |s'.pc| && s'.pc[t] == s.pc[t] && ProbesLeft(s', t) == ProbesLeft(s, t)
  {
    StepStaysFormed(s, a);
    StepGrows(s, a);
    hide Step;
    match s.pc[t]
    case Search(_, k, _) => CapacityKept(s, Step(s, a), a.t, k);
    case Migrate(main, _, _) => CapacityKept(s, Step(s, a), a.t, main);
    case Place(main, _, _, _) => CapacityKept(s, Step(s, a), a.t, main);
    case _ =>
  }

  lemma SearchNearer(s: State, a: Action)
    requires Formed(s) && a.t < |s.pc| && s.pc[a.t].Search? && s.pc[a.t].j < Capacity(s, s.pc[a.t].k)
    ensures Formed(Step(s, a)) && Nearer(s, Step(s, a), a.t)
  {
    hide KeyAt, Probe, Placed;
    StepStaysFormed(s, a);
    assert Effect(s, a.t, a.memory) == s;
  }

  lemma ClaimNearer(s: State, a: Action)
    requires Formed(s) && a.t < |s.pc|
    requires s.pc[a.t].Migrate? || s.pc[a.t].Place?
    requires s.pc[a.t].j < Capacity(s, s.pc[a.t].main)
    ensures Formed(Step(s, a)) && Nearer(s, Step(s, a), a.t)
  {
    hide KeyAt, Probe, Placed;
    StepStaysFormed(s, a);
    if !KeyAt(s, s.pc[a.t].main, a.t, s.pc[a.t].j).Empty? {
      assert Effect(s, a.t, a.memory) == s;
    }
  }

  /** The other steps: only a thread that finds the newest table three quarters full while another one has
      the flag goes round. */
  lemma OtherNearer(s: State, a: Action)
    requires Formed(s) && a.t < |s.pc| && RoomAfterResize(s, a.t)
    requires !s.pc[a.t].Ready? && !s.pc[a.t].Return? && Phase(s.pc[a.t]) != 1 && !s.pc[a.t].Search?
    ensures var pc' := Move(s, a.t, a.memory);
      || Phase(pc') < Phase(s.pc[a.t])
      || (s.pc[a.t].TestFlag? && pc'.Reload? && s.resizing
          && s.pc[a.t].newCount >= Quarters(Capacity(s, s.pc[a.t].main)))
  {
    hide KeyAt, Probe;
  }

  lemma OwnStepIsNearer(s: State, a: Action)
    requires Formed(s) && a.t < |s.pc| && RoomAfterResize(s, a.t) && !s.pc[a.t].Ready? && !s.pc[a.t].Return?
    requires s.pc[a.t].Search? ==> s.pc[a.t].j < Capacity(s, s.pc[a.t].k)
    requires s.pc[a.t].Migrate? || s.pc[a.t].Place? ==> s.pc[a.t].j < Capacity(s, s.pc[a.t].main)
    ensures var s' := Step(s, a);
      Formed(s') && |s'.pc| == |s.pc| &&
      (Nearer(s, s', a.t)
       || (s.pc[a.t].TestFlag? && s'.pc[a.t].Reload? && s.resizing
           && s.pc[a.t].newCount >= Quarters(Capacity(s, s.pc[a.t].main))))
  {
    hide Effect, Capacity, Quarters;
    StepStaysFormed(s, a);
    if s.pc[a.t].Search? {
      SearchNearer(s, a);
    } else if s.pc[a.t].Migrate? || s.pc[a.t].Place? {
      ClaimNearer(s, a);
    } else if s.pc[a.t].FailClear? || s.pc[a.t].CreateFailed? {
      assert Move(s, a.t, a.memory) == Return(None);
    } else {
      OtherNearer(s, a);
      hide Move;
    }
  }

  /** The thread finds its table three quarters full and tests the flag again, which another thread has. */
  ghost predicate GoesRound(s: State, s': State, t: Tid)
    requires Formed(s) && t < |s.pc| && t < |s'.pc|
  {
    && s.pc[t].TestFlag? && s'.pc[t].Reload? && s.pc[t].newCount >= Quarters(Capacity(s, s.pc[t].main))
    && exists u :: 0 <= u < |s.pc| && u != t && Holding(s.pc[u]) == 1
  }

  /** In every interleaving each step of a call brings it nearer to its end and no step of another thread
      takes it further away, except where it goes round to wait for another thread to resize (3531). */
  lemma EveryCallAdvances(hash: nat -> nat, cap: nat, threads: nat, acts: seq<Action>, a: Action, t: Tid)
    requires cap > 0 && t < |Run(hash, cap, threads, acts).pc| && a.t < |Run(hash, cap, threads, acts).pc|
    requires !Run(hash, cap, threads, acts).pc[t].Ready? && !Run(hash, cap, threads, acts).pc[t].Return?
    ensures var s := Run(hash, cap, threads, acts); var s' := Step(s, a);
      Formed(s') && |s'.pc| == |s.pc| &&
      (if a.t == t then Nearer(s, s', t) || GoesRound(s, s', t)
       else s'.pc[t] == s.pc[t] && ProbesLeft(s', t) == ProbesLeft(s, t))
  {
    hide Run, Nearer, Quarters, Capacity, Step, Inv, RoomAfterResize;
    var s := Run(hash, cap, threads, acts);
    StepStaysFormed(s, a);
    SameThreads(s, a);
    if a.t != t {
      OthersDoNotDelay(s, a, t);
    } else {
      RunKeepsInv(hash, cap, threads, acts);
      ProbingEnds(hash, cap, threads, acts, 0, t);
      RoomKept(hash, cap, threads, acts, t);
      OwnStepIsNearer(s, a);
      if s.resizing {
        SomebodyHolds(s);
      }
    }
  }

  lemma SomebodyHolds(s: State)
    requires Inv(s) && s.resizing
    ensures exists u :: 0 <= u < |s.pc| && Holding(s.pc[u]) == 1
  {
    SomeTerm(s.pc, Holding);
  }

  // ---------------------------------------------------------------- what a call returns

  /** Of a thread's current call: the newest table when it began, whether one of its allocations failed
      (3468, 3497), and whether it last found the resize flag taken (3456). */
  datatype Trace = Trace(began: nat, denied: bool, busy: bool)

  function Traced(s: State, t: Tid, memory: bool, trace: Trace): Trace
    requires Formed(s) && t < |s.pc|
  {
    match s.pc[t]
    case Ready => Trace(|s.tables| - 1, false, false)
    case TestFlag(_, _) => trace.(busy := s.resizing)
    case Allocate(_, _) => trace.(denied := trace.denied || !memory)
    case Create(_, _) => trace.(denied := trace.denied || !memory)
    case _ => trace
  }

  function Traces(hash: nat -> nat, cap: nat, threads: nat, acts: seq<Action>): (traces: seq<Trace>)
    requires cap > 0
    ensures |traces| == |Run(hash, cap, threads, acts).pc|
  {
    if acts == [] then seq(threads, _ => Trace(0, false, false))
    else
      var before, a := acts[..|acts| - 1], acts[|acts| - 1];
      var s, traces := Run(hash, cap, threads, before), Traces(hash, cap, threads, before);
      SameThreads(s, a);
      if a.t >= |s.pc| then traces else traces[a.t := Traced(s, a.t, a.memory, traces[a.t])]
  }

  /** The thread has a slot in the table that was the newest when its call began, or in a newer one. */
  ghost predicate HasSlot(s: State, t: Tid, began: nat) {
    exists i :: began <= i < |s.tables| && IsIn(s.tables, i, t)
  }

  /** A new thread goes into a table that is less than half full, or another thread has the flag. */
  predicate RoomFound(s: State, main: nat, newCount: nat, trace: Trace)
    requires main < |s.tables|
  {
    newCount < Capacity(s, main) / 2 || trace.busy
  }

  ghost predicate TraceOk(s: State, t: Tid, trace: Trace)
    requires Formed(s) && t < |s.pc|
  {
    trace.began < |s.tables| &&
    match s.pc[t]
    case Search(main, _, _) => main == trace.began
    case Migrate(main, _, _) => main == trace.began
    case FetchAdd(main) => main >= trace.began
    case TestFlag(main, _) => main >= trace.began
    case Allocate(main, _) => main >= trace.began
    case Unlock(main, _) => main >= trace.began
    case Create(main, n) => main >= trace.began && RoomFound(s, main, n, trace)
    case Place(main, n, _, _) => main >= trace.began && RoomFound(s, main, n, trace)
    case FailSub => trace.denied
    case FailClear => trace.denied
    case CreateFailed => trace.denied
    case Return(r) => if r.None? then trace.denied else HasSlot(s, t, trace.began)
    case _ => true
  }

  lemma SearchTraced(s: State, a: Action, trace: Trace)
    requires Formed(s) && a.t < |s.pc| && s.pc[a.t].Search? && TraceOk(s, a.t, trace)
    ensures Formed(Step(s, a)) && |Step(s, a).pc| == |s.pc| && TraceOk(Step(s, a), a.t, trace)
  {
    hide Probe;
    StepStaysFormed(s, a);
    var main, k, j := s.pc[a.t].main, s.pc[a.t].k, s.pc[a.t].j;
    if KeyAt(s, k, a.t, j) == Id(a.t) && k == main {
      KeyIsIn(s, k, a.t, j);
      assert IsIn(Step(s, a).tables, main, a.t);
    }
  }

  lemma ClaimTraced(s: State, a: Action, trace: Trace)
    requires Formed(s) && a.t < |s.pc| && (s.pc[a.t].Migrate? || s.pc[a.t].Place?) && TraceOk(s, a.t, trace)
    ensures Formed(Step(s, a)) && |Step(s, a).pc| == |s.pc| && TraceOk(Step(s, a), a.t, trace)
  {
    hide Pos;
    StepStaysFormed(s, a);
    var main, j := s.pc[a.t].main, s.pc[a.t].j;
    if KeyAt(s, main, a.t, j).Empty? {
      assert Step(s, a).tables[main].keys[Probe(s, main, a.t, j)] == Id(a.t);
      assert IsIn(Step(s, a).tables, main, a.t);
    }
  }

  /** Steps that decide where the thread goes. */
  lemma DecideTraced(s: State, a: Action, trace: Trace)
    requires Formed(s) && a.t < |s.pc| && TraceOk(s, a.t, trace) && RoomAfterResize(s, a.t)
    requires s.pc[a.t].TestFlag? || s.pc[a.t].Unlock?
    ensures Formed(Step(s, a)) && |Step(s, a).pc| == |s.pc|
    ensures TraceOk(Step(s, a), a.t, Traced(s, a.t, a.memory, trace))
  {
    hide Probe, KeyAt, Doubled, HasSlot;
    StepStaysFormed(s, a);
  }

  lemma AllocateTraced(s: State, a: Action, trace: Trace)
    requires Formed(s) && a.t < |s.pc| && TraceOk(s, a.t, trace) && s.pc[a.t].Allocate?
    ensures Formed(Step(s, a)) && |Step(s, a).pc| == |s.pc|
    ensures TraceOk(Step(s, a), a.t, Traced(s, a.t, a.memory, trace))
  {
    hide Probe, KeyAt, Doubled, HasSlot, NewTable;
    StepStaysFormed(s, a);
  }

  lemma OtherTraced(s: State, a: Action, trace: Trace)
    requires Formed(s) && a.t < |s.pc| && TraceOk(s, a.t, trace)
    requires !s.pc[a.t].Search? && !s.pc[a.t].Migrate? && !s.pc[a.t].Place?
    requires !s.pc[a.t].TestFlag? && !s.pc[a.t].Unlock? && !s.pc[a.t].Allocate?
    ensures Formed(Step(s, a)) && |Step(s, a).pc| == |s.pc|
    ensures TraceOk(Step(s, a), a.t, Traced(s, a.t, a.memory, trace))
  {
    hide Probe, KeyAt, Doubled, HasSlot, NewTable, Decide;
    StepStaysFormed(s, a);
    assert Step(s, a).tables == s.tables;
  }

  /** Steps of other threads. */
  lemma TraceStays(s: State, a: Action, t: Tid, trace: Trace)
    requires Formed(s) && a.t < |s.pc| && t < |s.pc| && t != a.t && TraceOk(s, t, trace)
    ensures Formed(Step(s, a)) && |Step(s, a).pc| == |s.pc| && TraceOk(Step(s, a), t, trace)
  {
    StepStaysFormed(s, a);
    SameThreads(s, a);
    StepGrows(s, a);
    hide Step, HasSlot;
    CapacityKept(s, Step(s, a), a.t, MainOf(s.pc[t]));
    if HasSlot(s, t, trace.began) {
      SlotStays(s, Step(s, a), a.t, t, trace.began);
    }
  }

  lemma SlotStays(s: State, s': State, t: Tid, u: Tid, began: nat)
    requires Grew(s, s', t) && HasSlot(s, u, began)
    ensures HasSlot(s', u, began)
  {
    var i :| began <= i < |s.tables| && IsIn(s.tables, i, u);
    if s'.tables[i] != s.tables[i] {
      var slot :| SlotTaken(s.tables[i], s'.tables[i], slot, t);
      var at :| 0 <= at < |s.tables[i].keys| && s.tables[i].keys[at] == Id(u);
      assert s'.tables[i].keys[at] == Id(u);
    }
    assert IsIn(s'.tables, i, u);
  }

  lemma OwnTraceKept(s: State, a: Action, trace: Trace)
    requires Formed(s) && a.t < |s.pc| && TraceOk(s, a.t, trace) && RoomAfterResize(s, a.t)
    ensures Formed(Step(s, a)) && |Step(s, a).pc| == |s.pc|
    ensures TraceOk(Step(s, a), a.t, Traced(s, a.t, a.memory, trace))
  {
    hide TraceOk, Step, RoomAfterResize;
    if s.pc[a.t].Search? {
      SearchTraced(s, a, trace);
    } else if s.pc[a.t].Migrate? || s.pc[a.t].Place? {
      ClaimTraced(s, a, trace);
    } else if s.pc[a.t].TestFlag? || s.pc[a.t].Unlock? {
      DecideTraced(s, a, trace);
    } else if s.pc[a.t].Allocate? {
      AllocateTraced(s, a, trace);
    } else {
      OtherTraced(s, a, trace);
    }
  }

  lemma {:induction false} TracesKept(hash: nat -> nat, cap: nat, threads: nat, acts: seq<Action>, t: Tid)
    requires cap > 0 && t < |Run(hash, cap, threads, acts).pc|
    ensures TraceOk(Run(hash, cap, threads, acts), t, Traces(hash, cap, threads, acts)[t])
  {
    if acts != [] {
      hide Step, TraceOk, Traced, Formed, RoomAfterResize;
      var before, a := acts[..|acts| - 1], acts[|acts| - 1];
      var s, traces := Run(hash, cap, threads, before), Traces(hash, cap, threads, before);
      SameThreads(s, a);
      TracesKept(hash, cap, threads, before, t);
      if a.t == t {
        RoomKept(hash, cap, threads, before, t);
        OwnTraceKept(s, a, traces[t]);
      } else if a.t < |s.pc| {
        TraceStays(s, a, t, traces[t]);
      }
    }
  }

  /** In every interleaving a call returns no producer only if one of its own allocations failed (3386);
      otherwise the thread has a slot in the table that was the newest when the call began, or in a newer
      one, so that the next search starts where it is. */
  lemma ReturnsPlaced(hash: nat -> nat, cap: nat, threads: nat, acts: seq<Action>, t: Tid)
    requires cap > 0 && t < |Run(hash, cap, threads, acts).pc| && Run(hash, cap, threads, acts).pc[t].Return?
    ensures var s, trace := Run(hash, cap, threads, acts), Traces(hash, cap, threads, acts)[t];
      if s.pc[t].r.None? then trace.denied
      else exists i :: trace.began <= i < |s.tables| && IsIn(s.tables, i, t)
  {
    hide Run, Traces;
    TracesKept(hash, cap, threads, acts, t);
  }

  /** A new thread is put into a table that its count leaves less than half full, unless another thread was
      just resizing. */
  lemma ResizedAtHalf(hash: nat -> nat, cap: nat, threads: nat, acts: seq<Action>, t: Tid)
    requires cap > 0 && t < |Run(hash, cap, threads, acts).pc| && Run(hash, cap, threads, acts).pc[t].Place?
    ensures var s, trace := Run(hash, cap, threads, acts), Traces(hash, cap, threads, acts)[t];
      trace.busy || s.pc[t].newCount < Capacity(s, s.pc[t].main) / 2
  {
    hide Run, Traces;
    TracesKept(hash, cap, threads, acts, t);
  }
}
