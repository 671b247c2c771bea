/** The store of src/enclave/kvs.cpp over two tables.  `Store` is its state as a value, with the
    operations as functions and the facts about them as lemmas; `KVStore` is the class that updates
    its fields and its tables in place. */
module KVStores {
  import opened MemTables
  import opened Wrappers

  const MT_NUM: int := 2

  datatype Store = Store(tables: seq<Table>, cur: int, usage: seq<int>, target: int, sema: bool)

  function New(max: nat): Store {
    Store([Fresh(max), Fresh(max)], 0, [0], -1, false)
  }

  /** The first table for which `p` holds, in index order; -1 if there is none. */
  function FirstMutable(tables: seq<Table>): int
    requires |tables| == MT_NUM
  {
    if tables[0].isMutable then 0 else if tables[1].isMutable then 1 else -1
  }

  function FirstToFlush(tables: seq<Table>): int
    requires |tables| == MT_NUM
  {
    if CanFlush(tables[0]) then 0 else if CanFlush(tables[1]) then 1 else -1
  }

  /** `while (usage_q.size() > MT_NUM) usage_q.pop_front()` (48-50). */
  function Trim(usage: seq<int>): (trimmed: seq<int>)
    ensures forall i <- trimmed :: i in usage
  {
    if |usage| > MT_NUM then usage[|usage| - MT_NUM..] else usage
  }

  predicate Shape(st: Store) {
    && |st.tables| == MT_NUM
    && 0 <= st.cur < MT_NUM
    && (forall i <- st.usage :: 0 <= i < MT_NUM)
    && -1 <= st.target < MT_NUM
  }

  /** Switching to a table with room (40-61): the store that takes the write, if any. */
  function Switched(st: Store): Option<Store>
    requires Shape(st)
  {
    if st.tables[st.cur].isMutable then Some(st)
    else
      var i := FirstMutable(st.tables);
      if i < 0 then None else Some(st.(cur := i, usage := Trim(st.usage + [i])))
  }

  function AfterPut(st: Store, key: string, value: string): Store
    requires Shape(st)
  {
    match Switched(st)
    case None => st.(sema := true)
    case Some(st1) =>
      var t := st1.tables[st1.cur];
      st1.(tables := st1.tables[st1.cur := Written(t, key, value)], sema := st1.sema || Fills(t, key, value))
  }

  function PutStatus(st: Store): Status
    requires Shape(st)
  {
    if Switched(st).None? then WAIT_FLUSH else WRITE_PASS
  }

  /** What InitFlush leaves (97-125). */
  function AfterInitFlush(st: Store): Store
    requires Shape(st)
  {
    if st.target >= 0 then st
    else
      var i := FirstToFlush(st.tables);
      if i < 0 then st
      else st.(target := i, tables := st.tables[i := st.tables[i].(onFlush := true)])
  }

  /** What EndFlush leaves (127-141); only while a flush is open. */
  function AfterEndFlush(st: Store): Store
    requires Shape(st) && st.target >= 0
  {
    var tables := st.tables[st.target := Emptied(st.tables[st.target])];
    st.(tables := tables, target := -1, sema := exists t <- tables :: !t.isMutable)
  }

  function AfterForce(st: Store): Store
    requires Shape(st)
  {
    st.(tables := [st.tables[0].(isMutable := false), st.tables[1].(isMutable := false)])
  }

  // ---------------------------------------------------------------- the invariant

  function Other(st: Store): int {
    1 - st.cur
  }

  ghost predicate Inv(st: Store) {
    && Shape(st)
    && SizeOk(st.tables[0]) && SizeOk(st.tables[1])
    // usage_q: not empty, no duplicates, ends in the current table, lists every non-empty table
    && (st.usage == [st.cur] || st.usage == [Other(st), st.cur])
    && (st.usage == [st.cur] ==> st.tables[Other(st)].store == map[])
    // the other table is frozen or empty
    && (st.tables[Other(st)].isMutable ==> st.tables[Other(st)].store == map[])
    // a table is being flushed exactly if it is the target, and then it is frozen
    && (forall i :: 0 <= i < MT_NUM ==> (st.tables[i].onFlush <==> i == st.target))
    && (forall i :: 0 <= i < MT_NUM && st.tables[i].onFlush ==> !st.tables[i].isMutable)
  }

  /** The map the store stands for: the older table overlaid by the current one. */
  function View(st: Store): Pairs
    requires Shape(st)
  {
    st.tables[Other(st)].store + st.tables[st.cur].store
  }

  lemma NewIsEmpty(max: nat)
    ensures Inv(New(max)) && View(New(max)) == map[]
  {
  }

  /** Only the other table can take over. */
  lemma SwitchedToOther(st: Store)
    requires Shape(st) && (st.usage == [st.cur] || st.usage == [Other(st), st.cur])
    requires !st.tables[st.cur].isMutable && Switched(st).Some?
    ensures st.tables[Other(st)].isMutable && Switched(st).value == st.(cur := Other(st), usage := [st.cur, Other(st)])
  {
  }

  /** Switching tables forgets nothing. */
  lemma SwitchKeepsView(st: Store)
    requires Inv(st) && Switched(st).Some?
    ensures var st1 := Switched(st).value;
      Inv(st1) && View(st1) == View(st) && st1.tables[st1.cur].isMutable && st1.tables == st.tables
  {
    hide SizeOk, FirstMutable, Trim;
    if !st.tables[st.cur].isMutable {
      SwitchedToOther(st);
    }
  }

  /** A write that passes changes exactly its key in the view; one that must wait changes nothing but
      the flag, and it must wait exactly if both tables are frozen. */
  lemma PutRefinesOverlay(st: Store, key: string, value: string)
    requires Inv(st)
    ensures Inv(AfterPut(st, key, value))
    ensures PutStatus(st) == WRITE_PASS ==> View(AfterPut(st, key, value)) == View(st)[key := value]
    ensures PutStatus(st) == WAIT_FLUSH ==> AfterPut(st, key, value) == st.(sema := true)
    ensures PutStatus(st) == WAIT_FLUSH <==> forall t <- st.tables :: !t.isMutable
  {
    if Switched(st).Some? {
      SwitchKeepsView(st);
      WriteToCurrent(Switched(st).value, key, value);
    }
  }

  lemma WriteToCurrent(st: Store, key: string, value: string)
    requires Inv(st) && st.tables[st.cur].isMutable
    ensures Inv(AfterPut(st, key, value)) && View(AfterPut(st, key, value)) == View(st)[key := value]
  {
    hide SizeOk;
    PutKeepsSize(st.tables[st.cur], key, value);
  }

  /** Opening a flush, or finding one open, leaves the view. */
  lemma InitFlushKeepsView(st: Store)
    requires Inv(st)
    ensures var st' := AfterInitFlush(st);
      && Inv(st') && View(st') == View(st)
      && (forall i :: 0 <= i < MT_NUM ==> st'.tables[i].store == st.tables[i].store)
      && (st.target >= 0 ==> st' == st)
      && (st'.target < 0 <==> forall t <- st.tables :: t.isMutable)
  {
    hide Bytes;
  }

  /** Ending the flush empties the target and nothing else. */
  lemma EndFlushEmptiesTarget(st: Store)
    requires Inv(st) && st.target >= 0
    ensures var st' := AfterEndFlush(st);
      && Inv(st')
      && st'.tables[st.target].store == map[] && st'.tables[st.target].isMutable
      && st'.tables[1 - st.target] == st.tables[1 - st.target]
      && View(st') == st.tables[1 - st.target].store
      && (st'.sema <==> !st.tables[1 - st.target].isMutable)
  {
    var tables := AfterEndFlush(st).tables;
    assert tables[0] in tables && tables[1] in tables;
  }

  /** Two maps give the keys they share the same values. */
  predicate Agree(m: Pairs, n: Pairs) {
    forall k <- m :: k in n ==> m[k] == n[k]
  }

  /** A flush goes by index, not by age (109-115): it takes the current table exactly if that is frozen
      and is table 0 or the only frozen one.  So of two frozen tables it takes the older one exactly if
      the current one is table 1. */
  lemma FlushTarget(st: Store)
    requires Inv(st) && st.target < 0
    ensures AfterInitFlush(st).target == st.cur <==>
      !st.tables[st.cur].isMutable && (st.cur == 0 || st.tables[Other(st)].isMutable)
    ensures (forall t <- st.tables :: !t.isMutable) ==> (AfterInitFlush(st).target == Other(st) <==> st.cur == 1)
  {
    assert st.tables[st.cur] in st.tables && st.tables[Other(st)] in st.tables;
  }

  /** What reads see when a flush ends: every key that can still be read keeps its value exactly if the
      older table was flushed or the tables agree on the keys they share. */
  lemma EndFlushKeepsReads(st: Store)
    requires Inv(st) && st.target >= 0
    ensures View(AfterEndFlush(st)) == st.tables[1 - st.target].store
    ensures (forall k <- View(AfterEndFlush(st)) :: View(AfterEndFlush(st))[k] == View(st)[k]) <==>
      st.target == Other(st) || Agree(st.tables[Other(st)].store, st.tables[st.cur].store)
  {
    EndFlushEmptiesTarget(st);
    if st.target == st.cur && !Agree(st.tables[Other(st)].store, st.tables[st.cur].store) {
      var k :| k in st.tables[Other(st)].store && k in st.tables[st.cur].store
               && st.tables[Other(st)].store[k] != st.tables[st.cur].store[k];
      assert k in View(AfterEndFlush(st)) && View(AfterEndFlush(st))[k] != View(st)[k];
    }
  }

  /** Forcing both tables frozen leaves the view, and from then on every write waits. */
  lemma ForceKeepsView(st: Store)
    requires Inv(st)
    ensures Inv(AfterForce(st)) && View(AfterForce(st)) == View(st)
    ensures PutStatus(AfterForce(st)) == WAIT_FLUSH
  {
  }

  // ---------------------------------------------------------------- the class

  class KVStore {
    var cur_mt_: int
    var usage_q: seq<int>
    var flush_target_: int
    var flush_sema: bool
    const mt_: array<MemTable>

    /** The tables are two different objects. */
    ghost predicate Wired()
      reads mt_
    {
      mt_.Length == MT_NUM && mt_[0] != mt_[1]
    }

    ghost function Model(): Store
      requires mt_.Length == MT_NUM
      reads this, mt_, mt_[0], mt_[1]
    {
      Store([mt_[0].Model(), mt_[1].Model()], cur_mt_, usage_q, flush_target_, flush_sema)
    }

    ghost predicate Valid()
      reads this, mt_, if mt_.Length == MT_NUM then {mt_[0], mt_[1]} else {}
    {
      Wired() && Inv(Model())
    }

    constructor (max: nat)
      ensures Valid() && fresh(mt_) && fresh(mt_[0]) && fresh(mt_[1])
      ensures Model() == New(max)
    {
      cur_mt_, usage_q, flush_target_, flush_sema := 0, [], -1, false;
      var t0 := new MemTable(max);
      mt_ := new MemTable[MT_NUM](_ => t0);
      new;
      usage_q := usage_q + [0];
      var t1 := new MemTable(max);
      mt_[1] := t1;
      mt_[0].SetMutable(true);
      mt_[1].SetMutable(true);
      NewIsEmpty(max);
    }

    method Put(key: string, value: string) returns (status: Status)
      requires Valid()
      modifies this, mt_[0], mt_[1]
      ensures Valid()
      ensures Model() == AfterPut(old(Model()), key, value) && status == PutStatus(old(Model()))
    {
      PutRefinesOverlay(Model(), key, value);
      var found := Switch();
      if !found {
        flush_sema := true;
        return WAIT_FLUSH;
      }
      status := Write(key, value);
    }

    /** Writing to the current table (64-70). */
    method Write(key: string, value: string) returns (status: Status)
      requires Valid() && mt_[cur_mt_].mutable_
      modifies this`flush_sema, mt_[0], mt_[1]
      ensures Wired() && Model() == AfterPut(old(Model()), key, value) && status == WRITE_PASS
    {
      status := mt_[cur_mt_].Put(key, value);
      if status == JUST_FULL {
        flush_sema := true;
        status := WRITE_PASS;
      }
    }

    /** Unless the current table has space, the scan for one that has (40-61). */
    method Switch() returns (found: bool)
      requires Valid()
      modifies this
      ensures Valid() && found == Switched(old(Model())).Some?
      ensures Model() == if found then Switched(old(Model())).value else old(Model())
    {
      if mt_[cur_mt_].mutable_ {
        return true;
      }
      ghost var before := Model();
      if Switched(before).Some? {
        SwitchKeepsView(before);
      }
      found := false;
      var i := 0;
      while i < MT_NUM
        invariant 0 <= i <= MT_NUM && !found && Model() == before
        invariant FirstMutable(before.tables) >= i || FirstMutable(before.tables) == -1
      {
        assert before.tables[i] == mt_[i].Model();
        if mt_[i].mutable_ {
          UseTable(i);
          found := true;
          break;
        }
        i := i + 1;
      }
    }

    /** Table i becomes the current one (46-50). */
    method UseTable(i: int)
      requires Wired() && 0 <= i < MT_NUM
      modifies this
      ensures Model() == old(Model()).(cur := i, usage := Trim(old(Model()).usage + [i]))
    {
      cur_mt_ := i;
      PushRecent(i);
    }

    /** `usage_q.push_back(i)` and the trimming loop (47-50). */
    method PushRecent(i: int)
      modifies this`usage_q
      ensures usage_q == Trim(old(usage_q) + [i])
    {
      usage_q := usage_q + [i];
      ghost var pushed := usage_q;
      while |usage_q| > MT_NUM
        invariant |usage_q| <= |pushed| && usage_q == pushed[|pushed| - |usage_q|..]
        invariant |pushed| > MT_NUM ==> |usage_q| >= MT_NUM
        invariant |pushed| <= MT_NUM ==> usage_q == pushed
      {
        usage_q := usage_q[1..];
      }
    }

    method Get(key: string, value: string) returns (status: Status, found: string)
      requires Valid()
      ensures key in View(Model()) ==> status == READ_PASS && found == View(Model())[key]
      ensures key !in View(Model()) ==> status == READ_FAIL && found == value
    {
      status, found := READ_PASS, value;
      var i := |usage_q| - 1;
      while i >= 0
        invariant -1 <= i < |usage_q| && found == value
        invariant i < |usage_q| - 1 ==> status == READ_FAIL && key !in mt_[cur_mt_].store_
        invariant i < |usage_q| - 2 ==> key !in mt_[1 - cur_mt_].store_
      {
        assert usage_q[i] == if i == |usage_q| - 1 then cur_mt_ else 1 - cur_mt_;
        var idx := usage_q[i];
        status, found := mt_[idx % MT_NUM].Get(key, found);
        if status == READ_PASS {
          assert key in mt_[idx].store_;
          return;
        }
        i := i - 1;
      }
      assert key !in mt_[cur_mt_].store_ && key !in mt_[1 - cur_mt_].store_;
    }

    /** The dump is what CreateNewRecord would be given (119-120). */
    method InitFlush() returns (dump: Option<seq<(string, string)>>)
      requires Valid()
      modifies this, mt_[0], mt_[1]
      ensures Valid()
      ensures Model() == AfterInitFlush(old(Model()))
      ensures dump.Some? <==> Model().target >= 0
      ensures dump.Some? ==> Lists(dump.value, Model().tables[Model().target].store)
    {
      InitFlushKeepsView(Model());
      if flush_target_ < 0 {
        OpenFlush();
      }
      if flush_target_ >= 0 {
        var raw_kv := mt_[flush_target_].Dump();
        return Some(raw_kv);
      }
      return None;
    }

    /** The scan for a frozen table (109-115). */
    method OpenFlush()
      requires Wired() && Shape(Model()) && flush_target_ < 0
      modifies this, mt_[0], mt_[1]
      ensures Model() == AfterInitFlush(old(Model()))
    {
      ghost var before := Model();
      var i := 0;
      while i < MT_NUM
        invariant 0 <= i <= MT_NUM && Model() == before
        invariant FirstToFlush(before.tables) >= i || FirstToFlush(before.tables) == -1
      {
        assert before.tables[i] == mt_[i].Model();
        var started := mt_[i].InitFlush();
        if started {
          flush_target_ := i;
          break;
        }
        i := i + 1;
      }
    }

    method EndFlush() returns (done: bool)
      requires Valid() && flush_target_ >= 0
      modifies this, mt_[0], mt_[1]
      ensures Valid() && done
      ensures Model() == AfterEndFlush(old(Model()))
    {
      EndFlushEmptiesTarget(Model());
      mt_[flush_target_].EndFlush();
      flush_target_ := -1;
      RaiseIfFrozen();
      assert Model().tables == AfterEndFlush(old(Model())).tables;
      return true;
    }

    /** The flag is up if some table is frozen (135-138). */
    method RaiseIfFrozen()
      requires Wired()
      modifies this`flush_sema
      ensures Model() == old(Model()).(sema := exists t <- old(Model()).tables :: !t.isMutable)
    {
      ghost var tables := Model().tables;
      flush_sema := false;
      var i := 0;
      while i < MT_NUM
        invariant 0 <= i <= MT_NUM
        invariant flush_sema <==> exists j :: 0 <= j < i && !tables[j].isMutable
      {
        assert mt_[i].mutable_ == tables[i].isMutable;
        if !mt_[i].mutable_ {
          flush_sema := true;
        }
        i := i + 1;
      }
    }

    method ForceReadyToDie()
      requires Valid()
      modifies mt_[0], mt_[1]
      ensures Valid()
      ensures Model() == AfterForce(old(Model()))
    {
      ForceKeepsView(Model());
      mt_[0].SetMutable(false);
      mt_[1].SetMutable(false);
    }

    method IsReadyToDie() returns (ready: bool)
      requires Valid()
      ensures ready <==> forall t <- Model().tables :: Bytes(t.store) % UINT64 == 0
    {
      var i := 0;
      while i < MT_NUM
        invariant 0 <= i <= MT_NUM
        invariant forall j :: 0 <= j < i ==> Bytes(mt_[j].store_) % UINT64 == 0
      {
        var empty := mt_[i].IsEmpty();
        if !empty {
          return false;
        }
        i := i + 1;
      }
      return true;
    }
  }
}
