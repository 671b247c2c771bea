/** Whether reads of the store go back in time.  A flush empties a table and the reads that found their
    key there go on to the other one (src/enclave/kvs.cpp:80-87, 109-115, 127-141), where an older value
    may be waiting. */
module ReadFreshness {
  import opened KVHistory
  import opened KVStores
  import opened MemTables
  import opened Wrappers

  /** The value of the last acknowledged write of a key. */
  function Latest(log: seq<Event>, key: string): Option<string> {
    if log == [] then None
    else
      var e := log[|log| - 1];
      if e.Wrote? && e.key == key then Some(e.value) else Latest(log[..|log| - 1], key)
  }

  /** No Get returns a value that was overwritten: it returns the last one written or none. */
  ghost predicate ReadsFresh(r: Run)
    requires Shape(r.st)
  {
    forall k <- View(r.st) :: Latest(r.log, k) == Some(View(r.st)[k])
  }

  /** The flush about to end empties the current table while the older one has another value for one of
      its keys. */
  predicate GoesBack(st: Store, op: Op)
    requires Shape(st)
  {
    op.OpEndFlush? && st.target == st.cur && !Agree(st.tables[Other(st)].store, st.tables[st.cur].store)
  }

  lemma LatestOfMore(log: seq<Event>, e: Event, key: string)
    ensures Latest(log + [e], key) == if e.Wrote? && e.key == key then Some(e.value) else Latest(log, key)
  {
    assert (log + [e])[..|log|] == log;
  }

  /** One operation keeps reads fresh exactly if it is not a flush that goes back. */
  lemma NextIsFresh(r: Run, op: Op)
    requires Inv(r.st) && ReadsFresh(r)
    ensures ReadsFresh(Next(r, op)) <==> !GoesBack(r.st, op)
  {
    match op
    case OpPut(k, v) => PutIsFresh(r, k, v);
    case OpInitFlush => InitFlushIsFresh(r);
    case OpEndFlush => if r.st.target >= 0 { EndFlushIsFresh(r); }
    case OpForce => ForceKeepsView(r.st);
    case OpGet(_) =>
  }

  lemma PutIsFresh(r: Run, key: string, value: string)
    requires Inv(r.st) && ReadsFresh(r)
    ensures ReadsFresh(Next(r, OpPut(key, value)))
  {
    PutRefinesOverlay(r.st, key, value);
    hide Inv, Shape, Switched;
    var r' := Next(r, OpPut(key, value));
    if PutStatus(r.st) == WRITE_PASS {
      forall k | k in View(r'.st) ensures Latest(r'.log, k) == Some(View(r'.st)[k]) {
        LatestOfMore(r.log, Wrote(r'.st.cur, key, value), k);
      }
    }
  }

  lemma InitFlushIsFresh(r: Run)
    requires Inv(r.st) && ReadsFresh(r)
    ensures ReadsFresh(Next(r, OpInitFlush))
  {
    InitFlushKeepsView(r.st);
    hide Inv, View;
    var r' := Next(r, OpInitFlush);
    if r'.st.target >= 0 {
      forall k | k in View(r'.st) ensures Latest(r'.log, k) == Latest(r.log, k) {
        LatestOfMore(r.log, Dumped(r'.st.target, r'.st.tables[r'.st.target].store), k);
      }
    }
  }

  lemma EndFlushIsFresh(r: Run)
    requires Inv(r.st) && ReadsFresh(r) && r.st.target >= 0
    ensures ReadsFresh(Next(r, OpEndFlush)) <==> !GoesBack(r.st, OpEndFlush)
  {
    EndFlushKeepsReads(r.st);
    OnlyTwo(r.st);
    var r', e := Next(r, OpEndFlush), Discarded(r.st.target, r.st.tables[r.st.target].store);
    forall k ensures Latest(r'.log, k) == Latest(r.log, k) {
      LatestOfMore(r.log, e, k);
    }
    ReadableBefore(r.st);
  }

  lemma OnlyTwo(st: Store)
    requires Inv(st) && st.target >= 0
    ensures st.target == Other(st) || st.target == st.cur
  {
  }

  lemma ReadableBefore(st: Store)
    requires Inv(st) && st.target >= 0
    ensures forall k <- View(AfterEndFlush(st)) :: k in View(st)
  {
    EndFlushKeepsReads(st);
  }

  predicate GoesBackAt(max: nat, ops: seq<Op>, n: nat)
    requires n < |ops|
  {
    GoesBack(After(max, ops[..n]).st, ops[n])
  }

  lemma {:induction false} FreshUntil(max: nat, ops: seq<Op>, n: nat)
    requires n <= |ops| && forall m :: 0 <= m < n ==> !GoesBackAt(max, ops, m)
    ensures ReadsFresh(After(max, ops[..n]))
  {
    if n > 0 {
      FreshUntil(max, ops, n - 1);
      RunKeepsInv(max, ops[..n - 1]);
      assert ops[..n] == ops[..n - 1] + [ops[n - 1]];
      AfterOneMore(max, ops[..n - 1], ops[n - 1]);
      NextIsFresh(After(max, ops[..n - 1]), ops[n - 1]);
      assert !GoesBackAt(max, ops, n - 1);
    }
  }

  /** After a flush that goes back some Get returns an overwritten value, if none did before. */
  lemma StaleAfter(max: nat, ops: seq<Op>, n: nat)
    requires n < |ops| && GoesBackAt(max, ops, n) && ReadsFresh(After(max, ops[..n]))
    ensures !ReadsFresh(After(max, ops[..n + 1]))
  {
    RunKeepsInv(max, ops[..n]);
    assert ops[..n + 1] == ops[..n] + [ops[n]];
    AfterOneMore(max, ops[..n], ops[n]);
    NextIsFresh(After(max, ops[..n]), ops[n]);
  }

  /** Over every run, up to and past its first flush that goes back: before it no Get returns an
      overwritten value, right after it some Get does. */
  lemma FreshUpToFirst(max: nat, ops: seq<Op>, n: nat)
    requires n < |ops| && GoesBackAt(max, ops, n) && forall m :: 0 <= m < n ==> !GoesBackAt(max, ops, m)
    ensures forall m :: 0 <= m <= n ==> ReadsFresh(After(max, ops[..m]))
    ensures !ReadsFresh(After(max, ops[..n + 1]))
  {
    forall m | 0 <= m <= n ensures ReadsFresh(After(max, ops[..m])) {
      FreshUntil(max, ops, m);
    }
    StaleAfter(max, ops, n);
  }

  /** So all reads of a run are fresh exactly if no flush of it goes back. */
  lemma ReadsFreshExactly(max: nat, ops: seq<Op>)
    ensures (forall n :: 0 <= n <= |ops| ==> ReadsFresh(After(max, ops[..n]))) <==>
            (forall n :: 0 <= n < |ops| ==> !GoesBackAt(max, ops, n))
  {
    if forall n :: 0 <= n < |ops| ==> !GoesBackAt(max, ops, n) {
      forall n | 0 <= n <= |ops| ensures ReadsFresh(After(max, ops[..n])) {
        FreshUntil(max, ops, n);
      }
    } else {
      var n :| 0 <= n < |ops| && GoesBackAt(max, ops, n);
      if ReadsFresh(After(max, ops[..n])) {
        StaleAfter(max, ops, n);
      }
    }
  }

  // ---------------------------------------------------------------- a run that goes back

  /** Two tables of two bytes: the first write fills table 0, the second table 1; a flush empties table 0,
      the third write fills it again, and the next flush takes it although it is the newer table. */
  const BACK: seq<Op> :=
    [OpPut("a", "1"), OpPut("a", "2"), OpInitFlush, OpEndFlush, OpPut("a", "3"), OpInitFlush, OpEndFlush]

  function Filled(value: string, flushing: bool): Table {
    Table(map["a" := value], 2, 2, false, flushing)
  }

  lemma FirstWrites()
    ensures After(2, BACK[..1]).st == Store([Filled("1", false), MemTables.Fresh(2)], 0, [0], -1, true)
    ensures After(2, BACK[..2]).st == Store([Filled("1", false), Filled("2", false)], 1, [0, 1], -1, true)
  {
    Prefix(0);
    Prefix(1);
  }

  lemma FirstFlush()
    ensures After(2, BACK[..4]).st == Store([MemTables.Fresh(2), Filled("2", false)], 1, [0, 1], -1, true)
  {
    FirstWrites();
    Prefix(2);
    Prefix(3);
    var st := After(2, BACK[..3]).st;
    assert st == Store([Filled("1", true), Filled("2", false)], 1, [0, 1], 0, true);
    EndFlushOf0(st);
  }

  lemma EndFlushOf0(st: Store)
    requires Inv(st) && st.target == 0 && !st.tables[1].isMutable
    ensures AfterEndFlush(st) == st.(tables := [Emptied(st.tables[0]), st.tables[1]], target := -1, sema := true)
  {
    assert st.tables[0 := Emptied(st.tables[0])] == [Emptied(st.tables[0]), st.tables[1]];
    assert st.tables[1] in [Emptied(st.tables[0]), st.tables[1]];
  }

  lemma Prefix(n: nat)
    requires n < |BACK|
    ensures After(2, BACK[..n + 1]) == Next(After(2, BACK[..n]), BACK[n])
  {
    assert BACK[..n + 1] == BACK[..n] + [BACK[n]];
    AfterOneMore(2, BACK[..n], BACK[n]);
  }

  /** The third write switches from the full table 1 to table 0 and fills it. */
  lemma WriteToFlushed()
    ensures var st := Store([MemTables.Fresh(2), Filled("2", false)], 1, [0, 1], -1, true);
      AfterPut(st, "a", "3") == Store([Filled("3", false), Filled("2", false)], 0, [1, 0], -1, true)
      && PutStatus(st) == WRITE_PASS
  {
  }

  lemma ThirdWrite()
    ensures var r := After(2, BACK[..5]);
      r.st == Store([Filled("3", false), Filled("2", false)], 0, [1, 0], -1, true) && Latest(r.log, "a") == Some("3")
  {
    hide After, Latest, Filled, AfterPut, PutStatus;
    FirstFlush();
    Prefix(4);
    WriteToFlushed();
    var before := After(2, BACK[..4]);
    LatestOfMore(before.log, Wrote(0, "a", "3"), "a");
  }

  lemma SecondFlush()
    ensures var r := After(2, BACK[..6]);
      r.st == Store([Filled("3", true), Filled("2", false)], 0, [1, 0], 0, true) && Latest(r.log, "a") == Some("3")
  {
    hide After, Latest;
    ThirdWrite();
    Prefix(5);
    var before := After(2, BACK[..5]);
    LatestOfMore(before.log, Dumped(0, map["a" := "3"]), "a");
  }

  /** The second flush takes table 0, the current one, and afterwards a Get returns 2 although 3 was
      written and acknowledged last. */
  lemma ReadsCanGoBack()
    ensures var st := After(2, BACK[..6]).st; st.target == 0 == st.cur && View(st) == map["a" := "3"]
    ensures GoesBackAt(2, BACK, 6)
    ensures var r := After(2, BACK); View(r.st) == map["a" := "2"] && Latest(r.log, "a") == Some("3")
  {
    hide After, Latest, AfterEndFlush, Inv;
    SecondFlush();
    Prefix(6);
    var before := After(2, BACK[..6]);
    RunKeepsInv(2, BACK[..6]);
    assert BACK[..7] == BACK;
    assert "a" in before.st.tables[1].store;
    EndFlushOf0(before.st);
    LatestOfMore(before.log, Discarded(0, map["a" := "3"]), "a");
  }
}
