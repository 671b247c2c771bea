/** Whole runs of the store of src/enclave/kvs.cpp: what its operations do to the map it stands for,
    and what becomes of every acknowledged write. */
module KVHistory {
  import opened KVStores
  import opened MemTables

  datatype Op = OpPut(key: string, value: string) | OpGet(key: string) | OpInitFlush | OpEndFlush | OpForce

  /** What happened to the tables: an acknowledged write into table i, the dump an InitFlush made of
      table i, and the contents EndFlush discarded with table i. */
  datatype Event =
    | Wrote(i: int, key: string, value: string)
    | Dumped(i: int, contents: Pairs)
    | Discarded(i: int, contents: Pairs)

  datatype Run = Run(st: Store, log: seq<Event>)

  /** EndFlush is called only while a flush is open. */
  function Next(r: Run, op: Op): (r': Run)
    requires Shape(r.st)
    ensures Shape(r'.st)
  {
    match op
    case OpPut(k, v) =>
      var st' := AfterPut(r.st, k, v);
      Run(st', if PutStatus(r.st) == WRITE_PASS then r.log + [Wrote(st'.cur, k, v)] else r.log)
    case OpGet(_) => r
    case OpInitFlush =>
      var st' := AfterInitFlush(r.st);
      Run(st', if st'.target >= 0 then r.log + [Dumped(st'.target, st'.tables[st'.target].store)] else r.log)
    case OpEndFlush =>
      if r.st.target < 0 then r
      else Run(AfterEndFlush(r.st), r.log + [Discarded(r.st.target, r.st.tables[r.st.target].store)])
    case OpForce => Run(AfterForce(r.st), r.log)
  }

  function After(max: nat, ops: seq<Op>): (r: Run)
    ensures Shape(r.st)
  {
    if ops == [] then Run(New(max), [])
    else
      var before := After(max, ops[..|ops| - 1]);
      Next(before, ops[|ops| - 1])
  }

  lemma AfterOneMore(max: nat, ops: seq<Op>, op: Op)
    ensures After(max, ops + [op]) == Next(After(max, ops), op)
  {
    assert (ops + [op])[..|ops|] == ops;
  }

  lemma {:induction false} RunKeepsInv(max: nat, ops: seq<Op>)
    ensures Inv(After(max, ops).st)
  {
    if ops != [] {
      RunKeepsInv(max, ops[..|ops| - 1]);
      var st := After(max, ops[..|ops| - 1]).st;
      match ops[|ops| - 1]
      case OpPut(k, v) => PutRefinesOverlay(st, k, v);
      case OpInitFlush => InitFlushKeepsView(st);
      case OpEndFlush => if st.target >= 0 { EndFlushEmptiesTarget(st); }
      case OpForce => ForceKeepsView(st);
      case OpGet(_) =>
    }
  }

  // ---------------------------------------------------------------- the view

  /** Without flushes the store is the map of the writes that passed. */
  function Writes(log: seq<Event>): Pairs {
    if log == [] then map[]
    else
      var e := log[|log| - 1];
      if e.Wrote? then Writes(log[..|log| - 1])[e.key := e.value] else Writes(log[..|log| - 1])
  }

  predicate NoFlushEnds(ops: seq<Op>) {
    forall i :: 0 <= i < |ops| ==> !ops[i].OpEndFlush?
  }

  lemma WritesOneMore(log: seq<Event>, e: Event)
    ensures Writes(log + [e]) == if e.Wrote? then Writes(log)[e.key := e.value] else Writes(log)
  {
    assert (log + [e])[..|log|] == log;
  }

  lemma PutIsWritten(r: Run, key: string, value: string)
    requires Inv(r.st) && View(r.st) == Writes(r.log)
    ensures var r' := Next(r, OpPut(key, value)); View(r'.st) == Writes(r'.log)
  {
    hide Writes, AfterPut, SizeOk;
    PutRefinesOverlay(r.st, key, value);
    WritesOneMore(r.log, Wrote(AfterPut(r.st, key, value).cur, key, value));
  }

  lemma FlushIsNoWrite(r: Run)
    requires Inv(r.st) && View(r.st) == Writes(r.log)
    ensures var r' := Next(r, OpInitFlush); View(r'.st) == Writes(r'.log)
  {
    hide Writes, AfterInitFlush, View, SizeOk;
    InitFlushKeepsView(r.st);
    var st' := AfterInitFlush(r.st);
    if st'.target >= 0 {
      WritesOneMore(r.log, Dumped(st'.target, st'.tables[st'.target].store));
    }
  }

  lemma {:induction false} ViewIsWrites(max: nat, ops: seq<Op>)
    requires NoFlushEnds(ops)
    ensures View(After(max, ops).st) == Writes(After(max, ops).log)
  {
    if ops != [] {
      var before := ops[..|ops| - 1];
      ViewIsWrites(max, before);
      RunKeepsInv(max, before);
      hide AfterPut, AfterInitFlush;
      var r := After(max, before);
      match ops[|ops| - 1]
      case OpPut(k, v) => PutIsWritten(r, k, v);
      case OpInitFlush => FlushIsNoWrite(r);
      case OpForce => ForceKeepsView(r.st);
      case OpGet(_) =>
    }
  }

  // ---------------------------------------------------------------- tables and flushes

  /** The contents of table i: the writes into it since it was last discarded. */
  function Contents(log: seq<Event>, i: int): Pairs {
    if log == [] then map[]
    else
      var e, before := log[|log| - 1], log[..|log| - 1];
      match e
      case Wrote(j, k, v) => if j == i then Contents(before, i)[k := v] else Contents(before, i)
      case Discarded(j, _) => if j == i then map[] else Contents(before, i)
      case Dumped(_, _) => Contents(before, i)
  }

  /** Since the last discard the dumps are all of table i with these contents, and nothing was
      written into it after the first of them. */
  predicate OpenDumps(log: seq<Event>, i: int, contents: Pairs) {
    if log == [] then true
    else
      var e, before := log[|log| - 1], log[..|log| - 1];
      match e
      case Discarded(_, _) => true
      case Dumped(j, m) => j == i && m == contents && OpenDumps(before, i, contents)
      case Wrote(j, _, _) => (j == i ==> !SomeOpenDump(before)) && OpenDumps(before, i, contents)
  }

  /** There is a dump since the last discard. */
  predicate SomeOpenDump(log: seq<Event>) {
    log != [] && (log[|log| - 1].Dumped? || (log[|log| - 1].Wrote? && SomeOpenDump(log[..|log| - 1])))
  }

  ghost predicate LogOk(r: Run)
    requires Shape(r.st)
  {
    && (forall i :: 0 <= i < MT_NUM ==> r.st.tables[i].store == Contents(r.log, i))
    && (r.st.target >= 0 <==> SomeOpenDump(r.log))
    && (r.st.target >= 0 ==> OpenDumps(r.log, r.st.target, r.st.tables[r.st.target].store))
  }

  lemma {:induction false} NoDumps(log: seq<Event>, i: int, m: Pairs)
    requires !SomeOpenDump(log)
    ensures OpenDumps(log, i, m)
  {
    if log != [] && log[|log| - 1].Wrote? {
      NoDumps(log[..|log| - 1], i, m);
    }
  }

  lemma PutKeepsLog(r: Run, key: string, value: string)
    requires Inv(r.st) && LogOk(r)
    ensures LogOk(Next(r, OpPut(key, value)))
  {
    hide Trim, Fills, SizeOk;
    PutRefinesOverlay(r.st, key, value);
    var r' := Next(r, OpPut(key, value));
    if r'.log != r.log {
      assert r'.log[..|r.log|] == r.log;
      SwitchKeepsView(r.st);
      assert 0 <= r'.st.target < MT_NUM ==> r'.st.tables[r'.st.target] == r.st.tables[r.st.target];
    }
  }

  lemma InitFlushKeepsLog(r: Run)
    requires Inv(r.st) && LogOk(r)
    ensures LogOk(Next(r, OpInitFlush))
  {
    InitFlushKeepsView(r.st);
    hide Inv, View;
    var r' := Next(r, OpInitFlush);
    if r'.log != r.log {
      assert r'.log[..|r.log|] == r.log;
      if r.st.target < 0 {
        NoDumps(r.log, r'.st.target, r'.st.tables[r'.st.target].store);
      }
    }
  }

  lemma EndFlushKeepsLog(r: Run)
    requires Inv(r.st) && LogOk(r)
    ensures LogOk(Next(r, OpEndFlush))
  {
    if r.st.target >= 0 {
      EndFlushEmptiesTarget(r.st);
      assert Next(r, OpEndFlush).log[..|r.log|] == r.log;
    }
  }

  lemma NextKeepsLog(r: Run, op: Op)
    requires Inv(r.st) && LogOk(r)
    ensures LogOk(Next(r, op))
  {
    match op
    case OpPut(k, v) => PutKeepsLog(r, k, v);
    case OpInitFlush => InitFlushKeepsLog(r);
    case OpEndFlush => EndFlushKeepsLog(r);
    case OpForce => ForceKeepsView(r.st);
    case OpGet(_) =>
  }

  lemma {:induction false} RunKeepsLog(max: nat, ops: seq<Op>)
    ensures LogOk(After(max, ops))
  {
    if ops != [] {
      RunKeepsLog(max, ops[..|ops| - 1]);
      RunKeepsInv(max, ops[..|ops| - 1]);
      NextKeepsLog(After(max, ops[..|ops| - 1]), ops[|ops| - 1]);
    }
  }

  // ---------------------------------------------------------------- flushes lose nothing

  /** Between positions d and n nothing is discarded, nothing is written into table i, and every dump
      repeats the one at d. */
  predicate Undisturbed(log: seq<Event>, d: nat, n: nat, i: int)
    requires d < n <= |log|
  {
    forall j :: d < j < n ==>
      match log[j]
      case Discarded(_, _) => false
      case Dumped(_, _) => log[j] == log[d]
      case Wrote(t, _, _) => t != i
  }

  lemma {:induction false} FirstOpenDump(log: seq<Event>, i: int, m: Pairs) returns (d: nat)
    requires SomeOpenDump(log) && OpenDumps(log, i, m)
    ensures d < |log| && log[d] == Dumped(i, m) && Undisturbed(log, d, |log|, i)
  {
    var before := log[..|log| - 1];
    if SomeOpenDump(before) {
      d := FirstOpenDump(before, i, m);
      assert forall j :: d < j < |before| ==> log[j] == before[j];
    } else {
      d := |log| - 1;
    }
  }

  /** The event a step logs, if any, is about the tables as they were before the step. */
  lemma LastEvent(r: Run, op: Op)
    requires Inv(r.st) && LogOk(r)
    ensures var log := Next(r, op).log;
      log == r.log || (|log| == |r.log| + 1 && log[..|r.log|] == r.log && EventOk(log, |r.log|))
  {
    var log := Next(r, op).log;
    if log != r.log {
      assert log[..|r.log|] == r.log;
      if op.OpInitFlush? {
        InitFlushKeepsView(r.st);
      } else if op.OpEndFlush? {
        var d := FirstOpenDump(r.log, r.st.target, r.st.tables[r.st.target].store);
        assert log[d] == r.log[d];
        assert forall j :: d < j < |r.log| ==> log[j] == r.log[j];
      }
    }
  }

  ghost predicate EventOk(log: seq<Event>, n: nat)
    requires n < |log|
  {
    match log[n]
    case Wrote(i, _, _) => 0 <= i < MT_NUM
    case Dumped(i, m) => m == Contents(log[..n], i)
    case Discarded(i, m) =>
      m == Contents(log[..n], i) && exists d :: 0 <= d < n && log[d] == Dumped(i, m) && Undisturbed(log, d, n, i)
  }

  lemma {:induction false} EventsAreOk(max: nat, ops: seq<Op>, n: nat)
    requires n < |After(max, ops).log|
    ensures EventOk(After(max, ops).log, n)
  {
    var before, log := After(max, ops[..|ops| - 1]), After(max, ops).log;
    RunKeepsInv(max, ops[..|ops| - 1]);
    RunKeepsLog(max, ops[..|ops| - 1]);
    LastEvent(before, ops[|ops| - 1]);
    if n < |before.log| {
      EventsAreOk(max, ops[..|ops| - 1], n);
      EarlierEvent(before.log, log, n);
    }
  }

  lemma EarlierEvent(before: seq<Event>, log: seq<Event>, n: nat)
    requires n < |before| <= |log| && log[..|before|] == before && EventOk(before, n)
    ensures EventOk(log, n)
  {
    assert forall j :: 0 <= j < |before| ==> log[j] == before[j];
    assert log[..n] == before[..n];
    if before[n].Discarded? {
      var i, m := before[n].i, before[n].contents;
      var d :| 0 <= d < n && before[d] == Dumped(i, m) && Undisturbed(before, d, n, i);
      assert log[d] == Dumped(i, m) && Undisturbed(log, d, n, i);
    }
  }

  /** What EndFlush discards is what InitFlush dumped when it opened the flush: in between, the table
      did not change and every further InitFlush dumped the same. */
  lemma DiscardedWasDumped(max: nat, ops: seq<Op>, n: nat)
    requires n < |After(max, ops).log| && After(max, ops).log[n].Discarded?
    ensures var log := After(max, ops).log;
      exists d :: 0 <= d < n && log[d] == Dumped(log[n].i, log[n].contents) && Undisturbed(log, d, n, log[n].i)
  {
    EventsAreOk(max, ops, n);
  }

  predicate Discards(e: Event, i: int) {
    e.Discarded? && e.i == i
  }

  predicate Overwrites(e: Event, i: int, key: string) {
    e.Wrote? && e.i == i && e.key == key
  }

  /** A write into table i is there until it is overwritten there or the table is discarded. */
  lemma {:induction false} WriteStays(log: seq<Event>, n: nat)
    requires n < |log| && log[n].Wrote?
    requires forall j :: n < j < |log| ==> !Discards(log[j], log[n].i) && !Overwrites(log[j], log[n].i, log[n].key)
    ensures var m := Contents(log, log[n].i); log[n].key in m && m[log[n].key] == log[n].value
  {
    if n < |log| - 1 {
      assert !Discards(log[|log| - 1], log[n].i) && !Overwrites(log[|log| - 1], log[n].i, log[n].key);
      assert forall j :: n < j < |log| - 1 ==> log[..|log| - 1][j] == log[j];
      WriteStays(log[..|log| - 1], n);
    }
  }

  /** The write at n is overwritten in its table before that table is discarded. */
  predicate Overwritten(log: seq<Event>, n: nat)
    requires n < |log| && log[n].Wrote?
  {
    exists j :: n < j < |log| && Overwrites(log[j], log[n].i, log[n].key) && NoDiscard(log, n, j, log[n].i)
  }

  predicate NoDiscard(log: seq<Event>, n: nat, m: nat, i: int)
    requires n < m <= |log|
  {
    forall j :: n < j < m ==> !Discards(log[j], i)
  }

  predicate Holds(m: Pairs, key: string, value: string) {
    key in m && m[key] == value
  }

  /** The first discard of table i after n. */
  lemma {:induction false} FirstDiscard(log: seq<Event>, n: nat, i: int) returns (e: nat)
    requires n < |log| && !NoDiscard(log, n, |log|, i)
    ensures n < e < |log| && Discards(log[e], i) && NoDiscard(log, n, e, i)
    decreases |log|
  {
    var last := |log| - 1;
    if n < last && !NoDiscard(log, n, last, i) {
      assert forall j :: n < j < last ==> log[..last][j] == log[j];
      e := FirstDiscard(log[..last], n, i);
      assert forall j :: n < j < e ==> log[..last][j] == log[j];
    } else {
      e := last;
    }
  }

  /** No acknowledged write is lost: it is overwritten later in its table, or it is in that table, or
      it is in the dump made by the flush that discarded the table. */
  lemma WritesSurvive(max: nat, ops: seq<Op>, n: nat)
    requires n < |After(max, ops).log| && After(max, ops).log[n].Wrote?
    ensures var r := After(max, ops);
      var e := r.log[n];
      || Overwritten(r.log, n)
      || (0 <= e.i < MT_NUM && Holds(r.st.tables[e.i].store, e.key, e.value))
      || exists d :: n < d < |r.log| && r.log[d].Dumped? && r.log[d].i == e.i &&
           Holds(r.log[d].contents, e.key, e.value)
  {
    var log := After(max, ops).log;
    RunKeepsLog(max, ops);
    EventsAreOk(max, ops, n);
    if !Overwritten(log, n) {
      if NoDiscard(log, n, |log|, log[n].i) {
        StaysUntil(log, n, |log|);
        assert log[..|log|] == log;
      } else {
        var e := FirstDiscard(log, n, log[n].i);
        StaysUntil(log, n, e);
        EventsAreOk(max, ops, e);
      }
    }
  }

  lemma StaysUntil(log: seq<Event>, n: nat, e: nat)
    requires n < e <= |log| && log[n].Wrote? && !Overwritten(log, n) && NoDiscard(log, n, e, log[n].i)
    ensures Holds(Contents(log[..e], log[n].i), log[n].key, log[n].value)
  {
    forall j | n < j < e
      ensures !Discards(log[..e][j], log[n].i) && !Overwrites(log[..e][j], log[n].i, log[n].key)
    {
      assert NoDiscard(log, n, j, log[n].i);
    }
    WriteStays(log[..e], n);
  }

  // ---------------------------------------------------------------- the flag

  predicate NeverForced(ops: seq<Op>) {
    forall i :: 0 <= i < |ops| ==> !ops[i].OpForce?
  }

  /** Unless the tables are forced frozen, the flag is up exactly while some table is frozen, that is,
      while there is something to flush or being flushed. */
  lemma {:induction false} FlagMeansFrozen(max: nat, ops: seq<Op>)
    requires NeverForced(ops)
    ensures var st := After(max, ops).st; st.sema <==> !st.tables[0].isMutable || !st.tables[1].isMutable
  {
    hide View, SizeOk;
    if ops != [] {
      var before := ops[..|ops| - 1];
      FlagMeansFrozen(max, before);
      RunKeepsInv(max, before);
      var st := After(max, before).st;
      match ops[|ops| - 1]
      case OpPut(k, v) => PutRefinesOverlay(st, k, v);
      case OpInitFlush => InitFlushKeepsView(st);
      case OpEndFlush => if st.target >= 0 { EndFlushEmptiesTarget(st); }
      case OpGet(_) =>
    }
  }
}
