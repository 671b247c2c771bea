/** The table from thread ids to implicit producers (src/util/concurrentqueue.h:3389-3565, 3228-3245): a
    chain of open-addressing hash tables, the newest first in use, with lazy migration, doubling, thread
    exits that leave tombstones, and recycling of producers.  Calls are atomic here.  The hash function
    and the ids are arbitrary. */
module ProducerTables {
  import opened Bits
  import opened Sums
  import opened Wrappers

  /** invalid_thread_id, invalid_thread_id2 or a thread's id. */
  datatype Key = Empty | Tomb | Id(t: nat)

  datatype Table = Table(keys: seq<Key>, values: seq<nat>)

  datatype Producer = Producer(isExplicit: bool, inactive: bool)

  /** The threads with a producer. */
  type Live = map<nat, nat>

  // ---------------------------------------------------------------- probing

  /** The j-th slot probed. */
  function Pos(cap: nat, h: nat, j: nat): (slot: nat)
    requires cap > 0
    ensures slot < cap
  {
    (h + j) % cap
  }

  /** How many probes lead to a slot. */
  function Dist(cap: nat, h: nat, slot: nat): (j: nat)
    requires cap > 0
    ensures j < cap
  {
    (slot - h) % cap
  }

  lemma ProbesReach(cap: nat, h: nat, slot: nat)
    requires slot < cap
    ensures Pos(cap, h, Dist(cap, h, slot)) == slot
  {
    var q := (slot - h) / cap;
    assert slot - h == q * cap + (slot - h) % cap;
    assert h + Dist(cap, h, slot) == -q * cap + slot;
    Quotient(h + Dist(cap, h, slot), -q, slot, cap);
  }

  lemma NextProbe(cap: nat, h: nat, j: nat)
    requires cap > 0
    ensures (Pos(cap, h, j) + 1) % cap == Pos(cap, h, j + 1)
  {
    var r := Pos(cap, h, j) + 1;
    DivMod(h + j, cap);
    Quotient(h + j + 1, (h + j) / cap + r / cap, r % cap, cap);
  }

  function InUse(k: Key): nat {
    if k.Empty? then 0 else 1
  }

  /** The slots that are not empty. */
  function Used(keys: seq<Key>): nat {
    Sum(keys, InUse)
  }

  lemma {:induction false} SomeEmpty(keys: seq<Key>) returns (slot: nat)
    requires Used(keys) < |keys|
    ensures slot < |keys| && keys[slot].Empty?
  {
    if keys[0].Empty? {
      slot := 0;
    } else {
      var rest := SomeEmpty(keys[1..]);
      slot := rest + 1;
    }
  }

  lemma {:induction false} NoneUsed(n: nat)
    ensures Used(seq(n, _ => Empty)) == 0
  {
    SumOfZeros(seq(n, _ => Empty), InUse);
  }

  /** The threads with a slot. */
  function Ids(keys: seq<Key>): set<nat> {
    set slot | 0 <= slot < |keys| && keys[slot].Id? :: keys[slot].t
  }

  /** Every one of them takes a used slot. */
  lemma {:induction false} IdsAreUsed(keys: seq<Key>)
    ensures |Ids(keys)| <= Used(keys)
  {
    if keys == [] {
      assert Ids(keys) == {};
    } else {
      IdsAreUsed(keys[1..]);
      var first := if keys[0].Id? then {keys[0].t} else {};
      assert Ids(keys) == first + Ids(keys[1..]) by {
        forall x | x in Ids(keys) ensures x in first + Ids(keys[1..]) {
          var slot :| 0 <= slot < |keys| && keys[slot].Id? && keys[slot].t == x;
          if slot > 0 {
            assert keys[1..][slot - 1] == keys[slot];
          }
        }
        forall x | x in Ids(keys[1..]) ensures x in Ids(keys) {
          var slot :| 0 <= slot < |keys[1..]| && keys[1..][slot].Id? && keys[1..][slot].t == x;
          assert keys[slot + 1] == Id(x);
        }
      }
    }
  }

  // ---------------------------------------------------------------- one table

  /** No empty slot among the first m probed. */
  ghost predicate PathUsed(keys: seq<Key>, h: nat, m: nat)
    requires keys != []
  {
    forall j: nat :: j < m ==> !keys[Pos(|keys|, h, j)].Empty?
  }

  /** A thread's slot is reached before any empty one, it is the thread's only one, and it has the
      thread's producer. */
  ghost predicate TableInv(t: Table, hash: nat -> nat, live: Live) {
    && |t.values| == |t.keys| && Used(t.keys) < |t.keys|
    && (forall s, u :: 0 <= s < |t.keys| && 0 <= u < |t.keys| && t.keys[s].Id? && t.keys[s] == t.keys[u] ==> s == u)
    && (forall s :: 0 <= s < |t.keys| && t.keys[s].Id? ==> SlotOk(t, hash, live, s))
  }

  ghost predicate SlotOk(t: Table, hash: nat -> nat, live: Live, s: nat)
    requires s < |t.keys| == |t.values| && t.keys[s].Id?
  {
    var x := t.keys[s].t;
    && PathUsed(t.keys, hash(x), Dist(|t.keys|, hash(x), s))
    && x in live && t.values[s] == live[x]
  }

  /** A probe that meets an empty slot first proves the thread absent. */
  lemma EmptyMeansAbsent(t: Table, hash: nat -> nat, live: Live, x: nat, m: nat)
    requires TableInv(t, hash, live) && t.keys[Pos(|t.keys|, hash(x), m)].Empty?
    requires forall j: nat :: j < m ==> t.keys[Pos(|t.keys|, hash(x), j)] != Id(x)
    ensures Id(x) !in t.keys
  {
    if Id(x) in t.keys {
      var s :| 0 <= s < |t.keys| && t.keys[s] == Id(x);
      assert SlotOk(t, hash, live, s);
      ProbesReach(|t.keys|, hash(x), s);
    }
  }

  /** A slot changes from what it was to a used one. */
  function WithSlot(t: Table, slot: nat, key: Key, value: nat): Table
    requires slot < |t.keys| == |t.values|
  {
    Table(t.keys[slot := key], t.values[slot := value])
  }

  lemma PathStaysUsed(keys: seq<Key>, slot: nat, key: Key, h: nat, m: nat)
    requires slot < |keys| && !key.Empty? && PathUsed(keys, h, m)
    ensures PathUsed(keys[slot := key], h, m)
  {
    forall j: nat | j < m ensures !keys[slot := key][Pos(|keys|, h, j)].Empty? {
      assert !keys[Pos(|keys|, h, j)].Empty?;
    }
  }

  /** Giving thread x a slot, whether new or migrated. */
  lemma PlacedKeepsTable(t: Table, hash: nat -> nat, live: Live, x: nat, value: nat, m: nat)
    requires TableInv(t, hash, live) && Id(x) !in t.keys && m < |t.keys| && PathUsed(t.keys, hash(x), m)
    requires var k := t.keys[Pos(|t.keys|, hash(x), m)]; k.Tomb? || (k.Empty? && Used(t.keys) + 1 < |t.keys|)
    ensures TableInv(WithSlot(t, Pos(|t.keys|, hash(x), m), Id(x), value), hash, live[x := value])
  {
    var slot := Pos(|t.keys|, hash(x), m);
    var t' := WithSlot(t, slot, Id(x), value);
    SumUpdate(t.keys, slot, Id(x), InUse);
    PathStaysUsed(t.keys, slot, Id(x), hash(x), m);
    forall s | 0 <= s < |t.keys| && t'.keys[s].Id? ensures SlotOk(t', hash, live[x := value], s) {
      var y := t'.keys[s].t;
      if s == slot {
        FirstProbe(|t.keys|, hash(x), m);
      } else {
        assert SlotOk(t, hash, live, s);
        PathStaysUsed(t.keys, slot, Id(x), hash(y), Dist(|t.keys|, hash(y), s));
      }
    }
  }

  lemma FirstProbe(cap: nat, h: nat, m: nat)
    requires m < cap
    ensures Dist(cap, h, Pos(cap, h, m)) == m
  {
    var q := (h + m) / cap;
    assert Pos(cap, h, m) - h == -q * cap + m by {
      DivMod(h + m, cap);
    }
    Quotient(Pos(cap, h, m) - h, -q, m, cap);
  }

  /** A thread new to the queue changes nothing for a table it is not in. */
  lemma OtherTableStays(t: Table, hash: nat -> nat, live: Live, x: nat, value: nat)
    requires TableInv(t, hash, live) && Id(x) !in t.keys
    ensures TableInv(t, hash, live[x := value])
  {
    forall s | 0 <= s < |t.keys| && t.keys[s].Id? ensures SlotOk(t, hash, live[x := value], s) {
      assert SlotOk(t, hash, live, s);
    }
  }

  /** An exiting thread's slot becomes a tombstone. */
  function Buried(t: Table, slot: nat): Table
    requires slot < |t.keys|
  {
    t.(keys := t.keys[slot := Tomb])
  }

  lemma BuriedKeepsTable(t: Table, hash: nat -> nat, live: Live, x: nat, slot: nat)
    requires TableInv(t, hash, live) && slot < |t.keys| && t.keys[slot] == Id(x)
    ensures TableInv(Buried(t, slot), hash, live - {x}) && Used(Buried(t, slot).keys) == Used(t.keys)
    ensures Ids(Buried(t, slot).keys) == Ids(t.keys) - {x}
  {
    var t' := Buried(t, slot);
    SumUpdate(t.keys, slot, Tomb, InUse);
    forall s | 0 <= s < |t.keys| && t'.keys[s].Id? ensures SlotOk(t', hash, live - {x}, s) {
      var y := t'.keys[s].t;
      assert SlotOk(t, hash, live, s);
      PathStaysUsed(t.keys, slot, Tomb, hash(y), Dist(|t.keys|, hash(y), s));
    }
    forall y | y in Ids(t.keys) && y != x ensures y in Ids(t'.keys) {
      var s :| 0 <= s < |t.keys| && t.keys[s].Id? && t.keys[s].t == y;
      assert t'.keys[s] == Id(y);
    }
    forall y | y in Ids(t'.keys) ensures y in Ids(t.keys) && y != x {
      var s :| 0 <= s < |t.keys| && t'.keys[s].Id? && t'.keys[s].t == y;
      assert t.keys[s] == Id(y);
    }
  }

  lemma AbsentKeepsTable(t: Table, hash: nat -> nat, live: Live, x: nat)
    requires TableInv(t, hash, live) && Id(x) !in t.keys
    ensures TableInv(t, hash, live - {x}) && Ids(t.keys) == Ids(t.keys) - {x}
  {
    forall s | 0 <= s < |t.keys| && t.keys[s].Id? ensures SlotOk(t, hash, live - {x}, s) {
      assert SlotOk(t, hash, live, s);
    }
  }

  // ---------------------------------------------------------------- the chain of tables

  function Main(tables: seq<Table>): Table
    requires tables != []
  {
    tables[|tables| - 1]
  }

  ghost predicate Known(tables: seq<Table>, x: nat) {
    exists i :: 0 <= i < |tables| && Id(x) in tables[i].keys
  }

  ghost predicate TablesInv(tables: seq<Table>, hash: nat -> nat, live: Live) {
    && tables != []
    && (forall i :: 0 <= i < |tables| ==> TableInv(tables[i], hash, live))
    && (forall x <- live :: Known(tables, x))
  }

  /** The used slots of the main table and the live threads not yet in it, together. */
  ghost function Reserved(keys: seq<Key>, live: Live): nat {
    Used(keys) + |live.Keys - Ids(keys)|
  }

  /** They never exceed the count, which stays below half the capacity, and so below three quarters, once
      there is anything to count: a table of size 1 grows with the first thread. */
  ghost predicate CountInv(tables: seq<Table>, live: Live, count: nat) {
    && tables != [] && var cap := |Main(tables).keys|;
    Reserved(Main(tables).keys, live) <= count && (count == 0 || count < cap / 2)
  }

  /** Every live thread has an active producer of its own. */
  ghost predicate OwnersInv(producers: seq<Producer>, live: Live) {
    && (forall x <- live :: live[x] < |producers| && producers[live[x]] == Producer(false, false))
    && (forall x <- live, y <- live :: live[x] == live[y] ==> x == y)
  }

  lemma PlacedIds(keys: seq<Key>, slot: nat, x: nat)
    requires slot < |keys| && !keys[slot].Id?
    ensures Ids(keys[slot := Id(x)]) == Ids(keys) + {x}
    ensures Used(keys[slot := Id(x)]) == Used(keys) + if keys[slot].Empty? then 1 else 0
  {
    var keys' := keys[slot := Id(x)];
    SumUpdate(keys, slot, Id(x), InUse);
    assert keys'[slot] == Id(x);
    forall y | y in Ids(keys) ensures y in Ids(keys') {
      var s :| 0 <= s < |keys| && keys[s].Id? && keys[s].t == y;
      assert keys'[s] == Id(y);
    }
    forall y | y in Ids(keys') && y != x ensures y in Ids(keys) {
      var s :| 0 <= s < |keys'| && keys'[s].Id? && keys'[s].t == y;
      assert keys[s] == Id(y);
    }
  }

  lemma IdsAre(keys: seq<Key>, x: nat)
    ensures x in Ids(keys) <==> Id(x) in keys
  {
    if Id(x) in keys {
      var s :| 0 <= s < |keys| && keys[s] == Id(x);
      assert keys[s].Id? && keys[s].t == x;
    }
  }

  /** A new thread adds one to what is reserved, unless it takes over a tombstone. */
  lemma NewThreadReserves(keys: seq<Key>, live: Live, slot: nat, x: nat, value: nat)
    requires slot < |keys| && !keys[slot].Id? && x !in live
    ensures Reserved(keys[slot := Id(x)], live[x := value]) == Reserved(keys, live) + if keys[slot].Empty? then 1 else 0
  {
    PlacedIds(keys, slot, x);
    assert live[x := value].Keys - Ids(keys[slot := Id(x)]) == live.Keys - Ids(keys);
  }

  /** A thread that migrates uses the slot reserved for it. */
  lemma MigratedThreadReserves(keys: seq<Key>, live: Live, slot: nat, x: nat)
    requires slot < |keys| && !keys[slot].Id? && x in live && Id(x) !in keys
    ensures Reserved(keys[slot := Id(x)], live) <= Reserved(keys, live)
    ensures Used(keys) + 1 <= Reserved(keys, live)
  {
    IdsAre(keys, x);
    PlacedIds(keys, slot, x);
    assert live.Keys - Ids(keys) == (live.Keys - Ids(keys[slot := Id(x)])) + {x};
  }

  lemma UnmigratedIsReserved(keys: seq<Key>, live: Live, x: nat)
    requires x in live && Id(x) !in keys
    ensures Used(keys) + 1 <= Reserved(keys, live)
  {
    IdsAre(keys, x);
    assert x in live.Keys - Ids(keys);
  }

  /** An exiting thread gives back its reservation, but not its slot. */
  lemma ExitedThreadReserves(keys: seq<Key>, keys': seq<Key>, live: Live, x: nat)
    requires Ids(keys') == Ids(keys) - {x} && Used(keys') == Used(keys)
    ensures Reserved(keys', live - {x}) <= Reserved(keys, live)
  {
    var now, before := (live - {x}).Keys - Ids(keys'), live.Keys - Ids(keys);
    SubsetSize(now, before);
  }

  lemma SubsetSize(a: set<nat>, b: set<nat>)
    requires a <= b
    ensures |a| <= |b|
  {
    assert b == a + (b - a);
  }

  /** An empty table reserves a slot for every live thread. */
  lemma EmptyTableReserves(keys: seq<Key>, live: Live, n: nat)
    ensures Reserved(seq(n, _ => Empty), live) <= Reserved(keys, live)
  {
    NoneUsed(n);
    IdsAreUsed(keys);
    var blank := seq(n, _ => Empty);
    assert Ids(blank) == {};
    assert live.Keys - Ids(blank) == live.Keys;
    SubsetSize(live.Keys, (live.Keys - Ids(keys)) + Ids(keys));
    assert |(live.Keys - Ids(keys)) + Ids(keys)| == |live.Keys - Ids(keys)| + |Ids(keys)|;
  }

  lemma EmptyTableIsFine(hash: nat -> nat, live: Live, n: nat, values: seq<nat>)
    requires n > 0 && |values| == n
    ensures TableInv(Table(seq(n, _ => Empty), values), hash, live)
  {
    NoneUsed(n);
  }

  lemma FoundValue(t: Table, hash: nat -> nat, live: Live, x: nat, slot: nat)
    requires TableInv(t, hash, live) && slot < |t.keys| && t.keys[slot] == Id(x)
    ensures |t.values| == |t.keys| && x in live && t.values[slot] == live[x]
  {
    assert SlotOk(t, hash, live, slot);
  }

  /** With a new thread in the main table, and only there. */
  lemma PlacedKeepsTables(tables: seq<Table>, hash: nat -> nat, live: Live, x: nat, value: nat, main: Table)
    requires TablesInv(tables, hash, live) && TableInv(main, hash, live[x := value]) && Id(x) in main.keys
    requires forall i :: 0 <= i < |tables| - 1 ==> (x in live && live[x] == value) || Id(x) !in tables[i].keys
    requires forall y :: Id(y) in Main(tables).keys ==> Id(y) in main.keys
    ensures TablesInv(tables[|tables| - 1 := main], hash, live[x := value])
  {
    var tables', live' := tables[|tables| - 1 := main], live[x := value];
    forall i | 0 <= i < |tables| ensures TableInv(tables'[i], hash, live') {
      if i < |tables| - 1 {
        if x in live && live[x] == value {
          assert live' == live;
        } else {
          OtherTableStays(tables[i], hash, live, x, value);
        }
      }
    }
    forall y | y in live' ensures Known(tables', y) {
      if y == x {
        assert Id(x) in tables'[|tables| - 1].keys;
      } else {
        var i :| 0 <= i < |tables| && Id(y) in tables[i].keys;
        assert Id(y) in tables'[i].keys;
      }
    }
  }

  lemma GrownKeepsTables(tables: seq<Table>, hash: nat -> nat, live: Live, t: Table)
    requires TablesInv(tables, hash, live) && TableInv(t, hash, live)
    ensures TablesInv(tables + [t], hash, live)
  {
    forall y | y in live ensures Known(tables + [t], y) {
      var i :| 0 <= i < |tables| && Id(y) in tables[i].keys;
      assert Id(y) in (tables + [t])[i].keys;
    }
  }

  lemma MigrationFits(tables: seq<Table>, hash: nat -> nat, live: Live, count: nat, x: nat)
    requires TablesInv(tables, hash, live) && CountInv(tables, live, count) && x in live && Id(x) !in Main(tables).keys
    ensures tables != []
    ensures var t := Main(tables); TableInv(t, hash, live) && Used(t.keys) + 1 < |t.keys| && live == live[x := live[x]]
  {
    hide Ids, SlotOk;
    UnmigratedIsReserved(Main(tables).keys, live, x);
  }

  predicate Absent(tables: seq<Table>, x: nat) {
    forall i :: 0 <= i < |tables| ==> Id(x) !in tables[i].keys
  }

  lemma AbsentIsNotLive(tables: seq<Table>, hash: nat -> nat, live: Live, x: nat)
    requires TablesInv(tables, hash, live) && Absent(tables, x)
    ensures x !in live
  {
    hide TableInv;
  }

  /** After the migration of thread x to this slot of the main table. */
  lemma MigratedIsValid(tables: seq<Table>, hash: nat -> nat, live: Live, count: nat, x: nat, slot: nat)
    requires TablesInv(tables, hash, live) && CountInv(tables, live, count) && x in live && Id(x) !in Main(tables).keys
    requires var t := Main(tables); slot < |t.keys| == |t.values| && !t.keys[slot].Id?
    requires TableInv(WithSlot(Main(tables), slot, Id(x), live[x]), hash, live)
    ensures var tables' := tables[|tables| - 1 := WithSlot(Main(tables), slot, Id(x), live[x])];
      TablesInv(tables', hash, live) && CountInv(tables', live, count)
  {
    hide TableInv, Reserved;
    var t := Main(tables);
    var t' := WithSlot(t, slot, Id(x), live[x]);
    MigratedThreadReserves(t.keys, live, slot, x);
    assert live[x := live[x]] == live;
    PlacedStays(t.keys, slot, x);
    PlacedKeepsTables(tables, hash, live, x, live[x], t');
  }

  lemma PlacedStays(keys: seq<Key>, slot: nat, x: nat)
    requires slot < |keys| && !keys[slot].Id?
    ensures Id(x) in keys[slot := Id(x)] && forall y :: Id(y) in keys ==> Id(y) in keys[slot := Id(x)]
  {
    var keys' := keys[slot := Id(x)];
    assert keys'[slot] == Id(x);
    forall y | Id(y) in keys ensures Id(y) in keys' {
      var s :| 0 <= s < |keys| && keys[s] == Id(y);
      assert keys'[s] == Id(y);
    }
  }

  /** After a new thread took this slot of the main table. */
  lemma OccupiedIsValid(tables: seq<Table>, hash: nat -> nat, live: Live, count: nat, x: nat, value: nat, slot: nat)
    requires TablesInv(tables, hash, live) && Absent(tables, x) && x !in live
    requires Reserved(Main(tables).keys, live) < count < |Main(tables).keys| / 2
    requires var t := Main(tables); slot < |t.keys| == |t.values| && !t.keys[slot].Id?
    requires TableInv(WithSlot(Main(tables), slot, Id(x), value), hash, live[x := value])
    ensures var tables' := tables[|tables| - 1 := WithSlot(Main(tables), slot, Id(x), value)];
      TablesInv(tables', hash, live[x := value]) &&
      CountInv(tables', live[x := value], if Main(tables).keys[slot].Tomb? then count - 1 else count)
  {
    hide TableInv, Reserved;
    var t := Main(tables);
    NewThreadReserves(t.keys, live, slot, x, value);
    PlacedStays(t.keys, slot, x);
    PlacedKeepsTables(tables, hash, live, x, value, WithSlot(t, slot, Id(x), value));
  }

  lemma MainAbsent(tables: seq<Table>, hash: nat -> nat, live: Live, x: nat)
    requires TablesInv(tables, hash, live) && Absent(tables, x)
    ensures tables != [] && Id(x) !in Main(tables).keys
  {
  }

  lemma MainHasSlots(tables: seq<Table>, hash: nat -> nat, live: Live)
    requires TablesInv(tables, hash, live)
    ensures tables != [] && |Main(tables).keys| > 0
  {
    assert TableInv(Main(tables), hash, live);
  }

  lemma RoomForNew(tables: seq<Table>, hash: nat -> nat, live: Live, count: nat)
    requires TablesInv(tables, hash, live) && Reserved(Main(tables).keys, live) < count < |Main(tables).keys| / 2
    ensures var t := Main(tables); TableInv(t, hash, live) && Used(t.keys) + 1 < |t.keys|
  {
  }

  /** A table once the thread has left it. */
  ghost predicate Exited(t: Table, t': Table, hash: nat -> nat, live': Live, x: nat) {
    && TableInv(t', hash, live') && Used(t'.keys) == Used(t.keys) && |t'.keys| == |t.keys|
    && Ids(t'.keys) == Ids(t.keys) - {x}
  }

  lemma OwnersAfterExit(producers: seq<Producer>, live: Live, x: nat)
    requires OwnersInv(producers, live) && x in live
    ensures live[x] < |producers|
    ensures OwnersInv(producers[live[x] := producers[live[x]].(inactive := true)], live - {x})
  {
  }

  lemma ExitedIsValid(tables: seq<Table>, tables': seq<Table>, hash: nat -> nat, live: Live, count: nat, x: nat)
    requires TablesInv(tables, hash, live) && CountInv(tables, live, count) && |tables'| == |tables|
    requires forall i :: 0 <= i < |tables| ==> Exited(tables[i], tables'[i], hash, live - {x}, x)
    ensures TablesInv(tables', hash, live - {x}) && CountInv(tables', live - {x}, count)
  {
    hide TableInv, Reserved;
    ExitedThreadReserves(Main(tables).keys, Main(tables').keys, live, x);
    forall y | y in live - {x} ensures Known(tables', y) {
      var i :| 0 <= i < |tables| && Id(y) in tables[i].keys;
      IdsAre(tables[i].keys, y);
      IdsAre(tables'[i].keys, y);
    }
  }

  // ---------------------------------------------------------------- the queue's table

  /** The producer of a thread that is gone, as recycle_or_create_producer(false) looks for one (3229). */
  predicate Recyclable(p: Producer) {
    p.inactive && !p.isExplicit
  }

  predicate CanRecycle(producers: seq<Producer>) {
    exists i :: 0 <= i < |producers| && Recyclable(producers[i])
  }

  /** A producer handed out: the newest one that can be recycled, or a new one if there is none. */
  ghost predicate HandedOut(producers: seq<Producer>, producers': seq<Producer>, p: nat) {
    if CanRecycle(producers) then
      && p < |producers| && Recyclable(producers[p])
      && (forall i :: p < i < |producers| ==> !Recyclable(producers[i]))
      && producers' == producers[p := Producer(false, false)]
    else p == |producers| && producers' == producers + [Producer(false, false)]
  }

  /** A new table has twice the slots, or the least doubling that the count leaves less than half full. */
  predicate LeastDoubling(cap: nat, cap': nat, newCount: nat) {
    newCount < cap' / 2 && (cap' == 2 * cap || (cap' > 2 * cap && newCount >= cap' / 4))
  }

  class ProducerTable {
    const hash: nat -> nat
    var tables: seq<Table>
    var count: nat
    var producers: seq<Producer>
    ghost var live: Live

    ghost predicate Valid()
      reads this
    {
      TablesInv(tables, hash, live) && CountInv(tables, live, count) && OwnersInv(producers, live)
    }

    constructor (hash: nat -> nat, initial: nat, explicits: seq<Producer>)
      requires initial >= 1 && forall p <- explicits :: p.isExplicit
      ensures Valid() && live == map[] && this.hash == hash && producers == explicits
    {
      var values := seq(initial, _ => 0);
      this.hash := hash;
      tables := [Table(seq(initial, _ => Empty), values)];
      count, producers, live := 0, explicits, map[];
      EmptyTableIsFine(hash, map[], initial, values);
      NoneUsed(initial);
    }

    /** The lookup loop on one table (3412-3449).  It ends because some slot is empty. */
    method FindIn(k: nat, id: nat) returns (slot: Option<nat>)
      requires k < |tables| && TableInv(tables[k], hash, live)
      ensures slot.None? ==> Id(id) !in tables[k].keys
      ensures slot.Some? ==> slot.value < |tables[k].keys| && tables[k].keys[slot.value] == Id(id)
    {
      var t := tables[k];
      ghost var e := SomeEmpty(t.keys);
      ProbesReach(|t.keys|, hash(id), e);
      hide TableInv, Pos, Dist;
      var index := hash(id);
      ghost var j := 0;
      while true
        invariant index % |t.keys| == Pos(|t.keys|, hash(id), j) && j <= Dist(|t.keys|, hash(id), e)
        invariant forall i: nat :: i < j ==> t.keys[Pos(|t.keys|, hash(id), i)] != Id(id)
        invariant PathUsed(t.keys, hash(id), j)
        decreases Dist(|t.keys|, hash(id), e) - j
      {
        index := index % |t.keys|;
        var probedKey := t.keys[index];
        if probedKey == Id(id) {
          return Some(index);
        }
        if probedKey == Empty {
          EmptyMeansAbsent(t, hash, live, id, j);
          return None;
        }
        NextProbe(|t.keys|, hash(id), j);
        index, j := index + 1, j + 1;
      }
    }

    /** The search through the tables, newest first (3410-3450). */
    method Find(id: nat) returns (k: nat, slot: Option<nat>)
      requires Valid()
      ensures slot.None? ==> Absent(tables, id)
      ensures slot.Some? ==> k < |tables| && slot.value < |tables[k].keys| && tables[k].keys[slot.value] == Id(id)
      ensures slot.Some? ==> forall i :: k < i < |tables| ==> Id(id) !in tables[i].keys
    {
      hide TableInv, CountInv, OwnersInv;
      k := |tables|;
      while k > 0
        invariant k <= |tables| && forall i :: k <= i < |tables| ==> Id(id) !in tables[i].keys
      {
        k := k - 1;
        slot := FindIn(k, id);
        if slot.Some? {
          return;
        }
      }
      slot := None;
    }

    /** The claiming loops (3425-3440, 3508-3525): the first slot probed that is empty or a tombstone. */
    method TakeSlot(id: nat, value: nat, ghost live': Live) returns (reused: bool, ghost slot: nat)
      requires tables != [] && var t := Main(tables);
        TableInv(t, hash, live) && Id(id) !in t.keys && Used(t.keys) + 1 < |t.keys|
      requires live' == live[id := value]
      modifies this`tables
      ensures var t := Main(old(tables));
        && slot < |t.keys| == |t.values| && !t.keys[slot].Id? && (reused <==> t.keys[slot].Tomb?)
        && tables == old(tables)[|old(tables)| - 1 := WithSlot(t, slot, Id(id), value)]
        && TableInv(WithSlot(t, slot, Id(id), value), hash, live')
    {
      var t := Main(tables);
      ghost var e := SomeEmpty(t.keys);
      ProbesReach(|t.keys|, hash(id), e);
      var index := hash(id);
      ghost var j := 0;
      while true
        invariant index % |t.keys| == Pos(|t.keys|, hash(id), j) && j <= Dist(|t.keys|, hash(id), e)
        invariant PathUsed(t.keys, hash(id), j)
        invariant tables == old(tables)
        decreases Dist(|t.keys|, hash(id), e) - j
      {
        hide TableInv, Pos, Dist;
        index := index % |t.keys|;
        if !t.keys[index].Id? {
          PlacedKeepsTable(t, hash, live, id, value, j);
          tables := tables[|tables| - 1 := WithSlot(t, index, Id(id), value)];
          return t.keys[index].Tomb?, index;
        }
        NextProbe(|t.keys|, hash(id), j);
        index, j := index + 1, j + 1;
      }
    }

    /** recycle_or_create_producer(false), newest producer first (3228-3243). */
    method RecycleOrCreate(memory: bool) returns (r: Option<nat>)
      requires OwnersInv(producers, live)
      modifies this`producers
      ensures OwnersInv(producers, live)
      ensures r.Some? ==>
        r.value < |producers| && producers[r.value] == Producer(false, false) && forall x <- live :: live[x] != r.value
      ensures r.None? <==> !memory && !CanRecycle(old(producers))
      ensures r.None? ==> producers == old(producers)
      ensures r.Some? ==> HandedOut(old(producers), producers, r.value)
    {
      var i := |producers|;
      while i > 0
        invariant 0 <= i <= |producers| && producers == old(producers)
        invariant forall j :: i <= j < |producers| ==> !Recyclable(producers[j])
      {
        i := i - 1;
        if Recyclable(producers[i]) {
          producers := producers[i := producers[i].(inactive := false)];
          return Some(i);
        }
      }
      if !memory {
        return None;
      }
      producers := producers + [Producer(false, false)];
      return Some(|producers| - 1);
    }

    /** A thread found in an older table goes into the main one too (3424-3441). */
    method Migrate(id: nat, value: nat)
      requires Valid() && id in live && live[id] == value && Id(id) !in Main(tables).keys
      modifies this`tables
      ensures Valid() && |tables| == |old(tables)| && tables != [] && Id(id) in Main(tables).keys
    {
      hide TableInv, TablesInv, CountInv, OwnersInv, Reserved;
      ghost var before := tables;
      MigrationFits(tables, hash, live, count, id);
      ghost var slot;
      var reused;
      reused, slot := TakeSlot(id, value, live);
      MigratedIsValid(before, hash, live, count, id, slot);
      assert Main(tables).keys[slot] == Id(id);
    }

    /** A table with room for twice the count (3462-3485). */
    method AddTable(newCount: nat, ghost id: nat)
      requires TablesInv(tables, hash, live) && Reserved(Main(tables).keys, live) < newCount && |Main(tables).keys| > 0
      requires Absent(tables, id)
      modifies this`tables
      ensures Absent(tables, id)
      ensures TablesInv(tables, hash, live) && Reserved(Main(tables).keys, live) < newCount < |Main(tables).keys| / 2
      ensures |tables| == |old(tables)| + 1 && tables[..|old(tables)|] == old(tables) && old(tables) != []
      ensures LeastDoubling(|Main(old(tables)).keys|, |Main(tables).keys|, newCount)
    {
      hide TableInv, Reserved;
      var newCapacity := |Main(tables).keys| * 2;
      ghost var cap := |Main(tables).keys|;
      while newCount >= newCapacity / 2
        invariant newCapacity > 0
        invariant newCapacity == 2 * cap || (newCapacity > 2 * cap && newCount >= newCapacity / 4)
        decreases newCount + 1 - newCapacity / 2
      {
        newCapacity := newCapacity * 2;
      }
      var values := seq(newCapacity, _ => 0);
      var newHash := Table(seq(newCapacity, _ => Empty), values);
      EmptyTableIsFine(hash, live, newCapacity, values);
      EmptyTableReserves(Main(tables).keys, live, newCapacity);
      GrownKeepsTables(tables, hash, live, newHash);
      tables := tables + [newHash];
    }

    /** With one thread more the newest table is half full or more (3456). */
    predicate Crowded()
      requires tables != []
      reads this
    {
      count + 1 >= |Main(tables).keys| / 2
    }

    method GetOrAdd(id: nat, tableMemory: bool, producerMemory: bool) returns (r: Option<nat>)
      requires Valid()
      modifies this
      ensures Valid()
      ensures id in old(live) ==> r == Some(old(live)[id]) && live == old(live)
      ensures id !in old(live) && r.Some? ==> live == old(live)[id := r.value] && r.value !in old(live).Values
      ensures id !in old(live) && r.Some? ==> HandedOut(old(producers), producers, r.value)
      ensures r.None? ==> live == old(live)
      ensures r.None? <==>
        id !in old(live) && ((!tableMemory && old(Crowded())) || (!producerMemory && !CanRecycle(old(producers))))
      ensures tables != [] && (r.Some? ==> Id(id) in Main(tables).keys)
      ensures |tables| == |old(tables)| + if id !in old(live) && tableMemory && old(Crowded()) then 1 else 0
    {
      hide TableInv, OwnersInv, Reserved, CanRecycle;
      var k, slot := Find(id);
      MainHasSlots(tables, hash, live);
      if slot.Some? {
        FoundValue(tables[k], hash, live, id, slot.value);
        var value := tables[k].values[slot.value];
        if k != |tables| - 1 {
          Migrate(id, value);
        }
        return Some(value);
      }
      r := Insert(id, tableMemory, producerMemory);
    }

    /** A new thread (3452-3533).  With atomic calls the loop there is passed once: after a resize, and
        without need of one, the table is less than half full. */
    method Insert(id: nat, tableMemory: bool, producerMemory: bool) returns (r: Option<nat>)
      requires Valid() && Absent(tables, id)
      modifies this
      ensures Valid() && id !in old(live)
      ensures r.Some? ==> live == old(live)[id := r.value] && r.value !in old(live).Values
      ensures r.Some? ==> HandedOut(old(producers), producers, r.value)
      ensures r.None? ==> live == old(live)
      ensures r.None? <==> (!tableMemory && old(Crowded())) || (!producerMemory && !CanRecycle(old(producers)))
      ensures tables != [] && (r.Some? ==> Id(id) in Main(tables).keys)
      ensures |tables| == |old(tables)| + if tableMemory && old(Crowded()) then 1 else 0
    {
      hide TableInv, OwnersInv, Reserved, CanRecycle, HandedOut;
      AbsentIsNotLive(tables, hash, live, id);
      MainHasSlots(tables, hash, live);
      var newCount := 1 + count;
      count := newCount;
      if newCount >= |Main(tables).keys| / 2 {
        if !tableMemory {
          count := count - 1;
          return None;
        }
        AddTable(newCount, id);
      }
      assert newCount < |Main(tables).keys| / 2 + |Main(tables).keys| / 4;
      var producer := RecycleOrCreate(producerMemory);
      if producer.None? {
        count := count - 1;
        return None;
      }
      Occupy(id, producer.value);
      return producer;
    }

    /** The new thread's slot; a tombstone was counted when it was first used (3508-3526). */
    method Occupy(id: nat, producer: nat)
      requires TablesInv(tables, hash, live) && OwnersInv(producers, live) && Absent(tables, id) && id !in live
      requires Reserved(Main(tables).keys, live) < count < |Main(tables).keys| / 2
      requires producer < |producers| && producers[producer] == Producer(false, false) &&
        forall x <- live :: live[x] != producer
      modifies this`tables, this`count, this`live
      ensures Valid() && live == old(live)[id := producer]
      ensures |tables| == |old(tables)| && tables != [] && Id(id) in Main(tables).keys
    {
      hide TableInv, TablesInv, CountInv, Reserved;
      ghost var before, live' := tables, live[id := producer];
      MainAbsent(tables, hash, live, id);
      RoomForNew(tables, hash, live, count);
      ghost var slot;
      var reused;
      reused, slot := TakeSlot(id, producer, live');
      OccupiedIsValid(before, hash, live, count, id, producer, slot);
      assert Main(tables).keys[slot] == Id(id);
      if reused {
        count := count - 1;
      }
      live := live';
    }

    /** implicit_producer_thread_exited (3537-3565): a tombstone in every table the thread is in, and its
        producer may be recycled.  `producer` is the one the exit listener was registered with. */
    method ThreadExited(id: nat, producer: nat)
      requires Valid() && id in live && live[id] == producer
      modifies this
      ensures Valid() && live == old(live) - {id} && |producers| == |old(producers)| && producers[producer].inactive
    {
      hide TableInv, Reserved, CountInv, OwnersInv;
      OwnersAfterExit(producers, live, id);
      ghost var before, live' := tables, live - {id};
      var k := |tables|;
      while k > 0
        invariant 0 <= k <= |tables| == |before| && live == old(live)
        invariant count == old(count) && producers == old(producers)
        invariant forall i :: 0 <= i < k ==> tables[i] == before[i]
        invariant forall i :: k <= i < |tables| ==> Exited(before[i], tables[i], hash, live', id)
      {
        k := k - 1;
        var slot := FindIn(k, id);
        if slot.Some? {
          BuriedKeepsTable(tables[k], hash, live, id, slot.value);
          tables := tables[k := Buried(tables[k], slot.value)];
        } else {
          AbsentKeepsTable(tables[k], hash, live, id);
        }
      }
      ExitedIsValid(before, tables, hash, live, count, id);
      producers := producers[producer := producers[producer].(inactive := true)];
      live := live';
    }
  }
}
