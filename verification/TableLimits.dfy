/** When the tables of a store stay below their size limit: src/enclave/memtable.h:50 says that a table
    is mutable only while its size is below the limit, and src/enclave/memtable.cpp:34-42 looks at the
    limit only when a key is new. */
module TableLimits {
  import opened KVHistory
  import opened KVStores
  import opened MemTables

  /** The table that takes a write, if one does. */
  function Target(st: Store): int
    requires Shape(st)
    ensures Switched(st).Some? ==> 0 <= Target(st) < MT_NUM
  {
    if Switched(st).Some? then Switched(st).value.cur else -1
  }

  /** A call of Put that will pass and will leave a mutable table at or above its limit. */
  predicate PutOversteps(st: Store, op: Op)
    requires Shape(st)
  {
    op.OpPut? && Switched(st).Some? && Oversteps(st.tables[Target(st)], op.key, op.value)
  }

  /** The last write into table i since it was made or emptied oversteps the limit. */
  function Over(max: nat, ops: seq<Op>, i: int): bool {
    if ops == [] then false
    else
      var before, op := ops[..|ops| - 1], ops[|ops| - 1];
      var st := After(max, before).st;
      if op.OpPut? && Switched(st).Some? && Target(st) == i then PutOversteps(st, op)
      else if op.OpEndFlush? && st.target == i then false
      else Over(max, before, i)
  }

  ghost predicate LimitInv(st: Store, max: nat, i: int, over: bool)
    requires Shape(st) && 0 <= i < MT_NUM
  {
    st.tables[i].max == max && (st.tables[i].isMutable ==> (BelowLimit(st.tables[i]) <==> max > 0 && !over))
  }

  lemma PutTarget(st: Store, key: string, value: string)
    requires Inv(st) && Switched(st).Some?
    ensures st.tables[Target(st)].isMutable
    ensures AfterPut(st, key, value).tables == st.tables[Target(st) := Written(st.tables[Target(st)], key, value)]
  {
    SwitchKeepsView(st);
  }

  lemma NextKeepsLimit(r: Run, op: Op, max: nat, i: int, over: bool)
    requires Inv(r.st) && 0 <= i < MT_NUM && LimitInv(r.st, max, i, over)
    ensures LimitInv(Next(r, op).st, max, i,
      if op.OpPut? && Switched(r.st).Some? && Target(r.st) == i then PutOversteps(r.st, op)
      else if op.OpEndFlush? && r.st.target == i then false
      else over)
  {
    var st := r.st;
    match op
    case OpPut(k, v) => if Switched(st).Some? { PutLimit(st, k, v, max, i, over); }
    case OpInitFlush => InitFlushKeepsView(st);
    case OpEndFlush => if st.target >= 0 { EndFlushEmptiesTarget(st); }
    case OpForce =>
    case OpGet(_) =>
  }

  lemma PutLimit(st: Store, key: string, value: string, max: nat, i: int, over: bool)
    requires Inv(st) && Switched(st).Some? && 0 <= i < MT_NUM && LimitInv(st, max, i, over)
    ensures LimitInv(AfterPut(st, key, value), max, i,
      if Target(st) == i then Oversteps(st.tables[i], key, value) else over)
  {
    PutTarget(st, key, value);
    LimitKeptExactly(st.tables[Target(st)], key, value, true, max);
    hide Inv, AfterPut, Switched;
  }

  /** After any run a mutable table is below its limit exactly if the limit is positive and the last
      write into the table since it was emptied does not overstep. */
  lemma {:induction false} BelowLimitExactly(max: nat, ops: seq<Op>, i: int)
    requires 0 <= i < MT_NUM
    ensures var t := After(max, ops).st.tables[i];
      t.max == max && (t.isMutable ==> (BelowLimit(t) <==> max > 0 && !Over(max, ops, i)))
  {
    if ops != [] {
      var before := ops[..|ops| - 1];
      BelowLimitExactly(max, before, i);
      RunKeepsInv(max, before);
      NextKeepsLimit(After(max, before), ops[|ops| - 1], max, i, Over(max, before, i));
    }
  }

  predicate AllBelow(st: Store)
    requires Shape(st)
  {
    BelowLimit(st.tables[0]) && BelowLimit(st.tables[1])
  }

  predicate OverstepAt(max: nat, ops: seq<Op>, n: nat)
    requires n < |ops|
  {
    PutOversteps(After(max, ops[..n]).st, ops[n])
  }

  lemma {:induction false} NoOverstep(max: nat, ops: seq<Op>, i: int)
    requires forall n :: 0 <= n < |ops| ==> !OverstepAt(max, ops, n)
    ensures !Over(max, ops, i)
  {
    if ops != [] {
      var last := |ops| - 1;
      forall n | 0 <= n < last ensures !OverstepAt(max, ops[..last], n) {
        assert ops[..last][..n] == ops[..n];
        assert !OverstepAt(max, ops, n);
      }
      NoOverstep(max, ops[..last], i);
      assert !OverstepAt(max, ops, last);
    }
  }

  /** A Put that oversteps leaves its table mutable at or above the limit. */
  lemma OverstepFails(max: nat, ops: seq<Op>, n: nat)
    requires n < |ops| && OverstepAt(max, ops, n)
    ensures !AllBelow(After(max, ops[..n + 1]).st)
  {
    var before, op := After(max, ops[..n]).st, ops[n];
    assert ops[..n + 1][..n] == ops[..n];
    RunKeepsInv(max, ops[..n]);
    PutTarget(before, op.key, op.value);
    LimitKeptExactly(before.tables[Target(before)], op.key, op.value, true, max);
  }

  /** With a positive limit all tables stay below it throughout a run, forced or not, exactly if no Put
      of the run oversteps.  Whether the next one will can be told before it is made. */
  lemma AlwaysBelowExactly(max: nat, ops: seq<Op>)
    requires max > 0
    ensures (forall n :: 0 <= n <= |ops| ==> AllBelow(After(max, ops[..n]).st)) <==>
            (forall n :: 0 <= n < |ops| ==> !OverstepAt(max, ops, n))
  {
    if forall n :: 0 <= n < |ops| ==> !OverstepAt(max, ops, n) {
      forall n | 0 <= n <= |ops| ensures AllBelow(After(max, ops[..n]).st) {
        forall m | 0 <= m < n ensures !OverstepAt(max, ops[..n], m) {
          assert ops[..n][..m] == ops[..m];
          assert !OverstepAt(max, ops, m);
        }
        NoOverstep(max, ops[..n], 0);
        NoOverstep(max, ops[..n], 1);
        BelowLimitExactly(max, ops[..n], 0);
        BelowLimitExactly(max, ops[..n], 1);
      }
    } else {
      var n :| 0 <= n < |ops| && OverstepAt(max, ops, n);
      OverstepFails(max, ops, n);
    }
  }

  /** With limit zero no mutable table is ever below it. */
  lemma ZeroLimitNeverHolds(ops: seq<Op>, i: int)
    requires 0 <= i < MT_NUM && After(0, ops).st.tables[i].isMutable
    ensures !BelowLimit(After(0, ops).st.tables[i])
  {
    BelowLimitExactly(0, ops, i);
  }

  /** It is the last write that decides: a shorter value brings the table below its limit again. */
  lemma ShorterValueMends()
    ensures var t := After(2, [OpPut("a", ""), OpPut("a", "xyz"), OpPut("a", "")]).st.tables[0];
      t.isMutable && BelowLimit(t)
  {
    OverwritePastLimit();
    AfterOneMore(2, [OpPut("a", ""), OpPut("a", "xyz")], OpPut("a", ""));
    assert [OpPut("a", ""), OpPut("a", "xyz")] + [OpPut("a", "")]
      == [OpPut("a", ""), OpPut("a", "xyz"), OpPut("a", "")];
    AfterOneMore(2, [], OpPut("a", ""));
    AfterOneMore(2, [OpPut("a", "")], OpPut("a", "xyz"));
    assert [] + [OpPut("a", "")] == [OpPut("a", "")];
    assert [OpPut("a", "")] + [OpPut("a", "xyz")] == [OpPut("a", ""), OpPut("a", "xyz")];
  }

  /** A run that leaves a mutable table at twice its limit. */
  lemma OverwritePastLimit()
    ensures var t := After(2, [OpPut("a", ""), OpPut("a", "xyz")]).st.tables[0];
      t.isMutable && t.size == 4 && t.max == 2
  {
    LimitCanFail();
    AfterOneMore(2, [], OpPut("a", ""));
    AfterOneMore(2, [OpPut("a", "")], OpPut("a", "xyz"));
    assert [] + [OpPut("a", "")] == [OpPut("a", "")];
    assert [OpPut("a", "")] + [OpPut("a", "xyz")] == [OpPut("a", ""), OpPut("a", "xyz")];
  }
}
