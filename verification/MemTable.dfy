/** The in-memory table of src/enclave/memtable.cpp.  `Table` is its state as a value, with the
    operations as functions; `MemTable` is the class that updates its fields in place. */
module MemTables {
  import opened Wrappers

  const UINT64: nat := 0x1_0000_0000_0000_0000

  datatype Status = WRITE_FAIL | WRITE_PASS | READ_FAIL | READ_PASS | WAIT_FLUSH | JUST_FULL

  type Pairs = map<string, string>

  datatype Table = Table(store: Pairs, size: nat, max: nat, isMutable: bool, onFlush: bool)

  function Fresh(max: nat): Table {
    Table(map[], 0, max, true, false)
  }

  /** `size_in_bytes_` after a write (24-42): 64-bit unsigned, so that a shorter value wraps. */
  function SizeAfter(t: Table, key: string, value: string): nat {
    if key in t.store then (t.size + |value| - |t.store[key]|) % UINT64
    else (t.size + |key| + |value|) % UINT64
  }

  /** A write fills the table only if its key is new (34-42). */
  predicate Fills(t: Table, key: string, value: string) {
    key !in t.store && SizeAfter(t, key, value) >= t.max
  }

  function Written(t: Table, key: string, value: string): Table {
    t.(store := t.store[key := value], size := SizeAfter(t, key, value),
       isMutable := t.isMutable && !Fills(t, key, value))
  }

  predicate CanFlush(t: Table) {
    !t.onFlush && !t.isMutable
  }

  function Emptied(t: Table): Table {
    t.(store := map[], size := 0, onFlush := false, isMutable := true)
  }

  // ---------------------------------------------------------------- the size account

  /** The lengths of all keys and values. */
  ghost function Bytes(m: Pairs): nat {
    if m == map[] then 0
    else
      var k :| k in m;
      |k| + |m[k]| + Bytes(m - {k})
  }

  /** Any key may be taken out first. */
  lemma {:induction false} BytesWithout(m: Pairs, k: string)
    requires k in m
    ensures Bytes(m) == |k| + |m[k]| + Bytes(m - {k})
    decreases |m|
  {
    var j :| j in m && Bytes(m) == |j| + |m[j]| + Bytes(m - {j});
    if j != k {
      var a, b := m - {j}, m - {k};
      BytesWithout(a, k);
      BytesWithout(b, j);
      assert a - {k} == b - {j};
    }
  }

  lemma BytesWith(m: Pairs, k: string, v: string)
    ensures Bytes(m[k := v]) == Bytes(m - {k}) + |k| + |v|
  {
    BytesWithout(m[k := v], k);
    assert m[k := v] - {k} == m - {k};
  }

  ghost predicate SizeOk(t: Table) {
    t.size == Bytes(t.store) % UINT64
  }

  lemma AddBeforeWrapping(a: int, d: int)
    ensures (a % UINT64 + d) % UINT64 == (a + d) % UINT64
  {
  }

  /** Writing keeps the account, also where the unsigned difference wraps. */
  lemma PutKeepsSize(t: Table, key: string, value: string)
    requires SizeOk(t)
    ensures SizeOk(Written(t, key, value))
  {
    var rest := Bytes(t.store - {key});
    assert Bytes(t.store[key := value]) == rest + |key| + |value| by {
      BytesWith(t.store, key, value);
    }
    if key in t.store {
      assert Bytes(t.store) == rest + |key| + |t.store[key]| by {
        BytesWithout(t.store, key);
      }
      AddBeforeWrapping(Bytes(t.store), |value| - |t.store[key]|);
    } else {
      assert t.store - {key} == t.store;
      AddBeforeWrapping(Bytes(t.store), |key| + |value|);
    }
  }

  /** `IsEmpty` compares the byte count with zero (59-61): it is true of every empty table, and of a
      table with entries exactly if their lengths add up to a multiple of 2^64, so below that size
      only if the one entry is the empty key with the empty value. */
  lemma IsEmptyMeans(t: Table)
    requires SizeOk(t)
    ensures t.size == 0 <==> Bytes(t.store) % UINT64 == 0
    ensures Bytes(t.store) < UINT64 ==> (t.size == 0 <==> t.store == map[] || t.store == map["" := ""])
  {
    if Bytes(t.store) == 0 && t.store != map[] {
      forall k | k in t.store ensures k == "" && t.store[k] == "" {
        BytesWithout(t.store, k);
      }
      assert t.store == map["" := ""];
    }
    if t.store == map["" := ""] {
      BytesWithout(t.store, "");
      assert t.store - {""} == map[];
    }
  }

  /** The one entry `IsEmpty` overlooks. */
  lemma EmptyPairLooksEmpty(max: nat)
    ensures var t := Written(Fresh(max), "", ""); t.size == 0 && t.store != map[]
  {
    assert "" in Written(Fresh(max), "", "").store;
  }

  // ---------------------------------------------------------------- the size limit

  /** What src/enclave/memtable.h:50 says of a table: it is mutable only while its size is below the
      limit. */
  predicate BelowLimit(t: Table) {
    t.isMutable ==> t.size < t.max
  }

  /** The write replaces the value of a key and leaves the table at or above its limit. */
  predicate Oversteps(t: Table, key: string, value: string) {
    key in t.store && SizeAfter(t, key, value) >= t.max
  }

  /** Exactly when each operation leaves the table as the comment says: a write unless it replaces a
      value with one that is too long, a new or an emptied table unless its limit is zero, and
      `SetMutable(true)` only below the limit. */
  lemma LimitKeptExactly(t: Table, key: string, value: string, mut: bool, max: nat)
    ensures t.isMutable ==> (BelowLimit(Written(t, key, value)) <==> !Oversteps(t, key, value))
    ensures BelowLimit(Fresh(max)) <==> max > 0
    ensures BelowLimit(Emptied(t)) <==> t.max > 0
    ensures BelowLimit(t.(isMutable := mut)) <==> (mut ==> t.size < t.max)
    ensures CanFlush(t) ==> BelowLimit(t.(onFlush := true))
  {
  }

  /** The three ways to fail: a value replaced by a longer one, a limit of zero, and thawing a table
      that a new key has just frozen. */
  lemma LimitCanFail()
    ensures var t := Written(Written(Fresh(2), "a", ""), "a", "xyz"); t.isMutable && t.size == 4 && t.max == 2
    ensures Fresh(0).isMutable && Fresh(0).size == Fresh(0).max
    ensures var t := Written(Fresh(2), "a", "b"); !t.isMutable && !BelowLimit(t.(isMutable := true))
  {
    var t := Written(Fresh(2), "a", "");
    assert "a" in t.store && t.store["a"] == "" && t.size == 1;
  }

  predicate Mentions(pairs: seq<(string, string)>, k: string) {
    exists i :: 0 <= i < |pairs| && pairs[i].0 == k
  }

  /** The pairs of a map in some order, each once. */
  ghost predicate Lists(pairs: seq<(string, string)>, m: Pairs) {
    && (forall i :: 0 <= i < |pairs| ==> pairs[i].0 in m && m[pairs[i].0] == pairs[i].1)
    && (forall k :: k in m ==> Mentions(pairs, k))
    && (forall i, j :: 0 <= i < j < |pairs| ==> pairs[i].0 != pairs[j].0)
  }

  class MemTable {
    var store_: Pairs
    var size_in_bytes_: nat
    var max_size_in_bytes_: nat
    var mutable_: bool
    var on_flush_: bool

    /** The abstract value. */
    function Model(): Table
      reads this
    {
      Table(store_, size_in_bytes_, max_size_in_bytes_, mutable_, on_flush_)
    }

    constructor (max: nat)
      ensures Model() == Fresh(max)
    {
      store_, size_in_bytes_, max_size_in_bytes_, mutable_, on_flush_ := map[], 0, max, true, false;
    }

    method Put(key: string, value: string) returns (status: Status)
      requires mutable_ && SizeOk(Model())
      modifies this
      ensures Model() == Written(old(Model()), key, value) && SizeOk(Model())
      ensures status == if Fills(old(Model()), key, value) then JUST_FULL else WRITE_PASS
    {
      PutKeepsSize(Model(), key, value);
      var new_key := key !in store_;
      var old_sz := if new_key then 0 else |store_[key]|;
      store_ := store_[key := value];
      if new_key {
        size_in_bytes_ := (size_in_bytes_ + |key| + |value|) % UINT64;
        var full := IsFull();
        if full {
          mutable_ := false;
          return JUST_FULL;
        }
      } else {
        size_in_bytes_ := (size_in_bytes_ + |value| - old_sz) % UINT64;
      }
      return WRITE_PASS;
    }

    method Get(key: string, value: string) returns (status: Status, found: string)
      ensures key in store_ ==> status == READ_PASS && found == store_[key]
      ensures key !in store_ ==> status == READ_FAIL && found == value
    {
      if key !in store_ {
        return READ_FAIL, value;
      }
      return READ_PASS, store_[key];
    }

    method IsEmpty() returns (empty: bool)
      requires SizeOk(Model())
      ensures empty <==> Bytes(store_) % UINT64 == 0
    {
      empty := size_in_bytes_ == 0;
    }

    method IsFull() returns (full: bool)
      ensures full <==> size_in_bytes_ >= max_size_in_bytes_
    {
      full := size_in_bytes_ >= max_size_in_bytes_;
    }

    method SetMutable(mut: bool)
      modifies this
      ensures Model() == old(Model()).(isMutable := mut)
    {
      mutable_ := mut;
    }

    method InitFlush() returns (started: bool)
      modifies this
      ensures started <==> CanFlush(old(Model()))
      ensures Model() == if started then old(Model()).(onFlush := true) else old(Model())
    {
      if on_flush_ {
        return false;
      }
      if mutable_ {
        return false;
      }
      on_flush_ := true;
      return true;
    }

    method EndFlush()
      modifies this
      ensures Model() == Emptied(old(Model())) && SizeOk(Model())
    {
      store_ := map[];
      size_in_bytes_ := 0;
      on_flush_ := false;
      mutable_ := true;
    }

    /** The order of the pairs is that of the hash table, which is not modelled. */
    method Dump() returns (pairs: seq<(string, string)>)
      ensures Lists(pairs, store_)
    {
      pairs := [];
      var rest := store_;
      while rest != map[]
        invariant rest.Keys <= store_.Keys && forall k :: k in rest ==> rest[k] == store_[k]
        invariant Lists(pairs, store_ - rest.Keys)
        decreases |rest|
      {
        var k :| k in rest;
        ghost var before := store_ - rest.Keys;
        var rest' := rest - {k};
        assert store_ - rest'.Keys == before[k := rest[k]];
        ListsMore(pairs, before, k, rest[k]);
        pairs := pairs + [(k, rest[k])];
        rest := rest';
      }
      assert store_ - rest.Keys == store_;
    }
  }

  lemma ListsMore(pairs: seq<(string, string)>, m: Pairs, k: string, v: string)
    requires Lists(pairs, m) && k !in m
    ensures Lists(pairs + [(k, v)], m[k := v])
  {
    var pairs' := pairs + [(k, v)];
    forall j | j in m[k := v] ensures Mentions(pairs', j) {
      if j == k {
        assert pairs'[|pairs|].0 == k;
      } else {
        assert Mentions(pairs, j);
        var i :| 0 <= i < |pairs| && pairs[i].0 == j;
        assert pairs'[i].0 == j;
      }
    }
  }
}
