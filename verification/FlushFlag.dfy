/** The flush flag under the five stages.  The memtable stage makes its store without one
    (src/enclave/memtable_stage.cpp:25 leaves the pointer flush_sema of src/enclave/kvs.h:36 unset), so
    what Pipeline proves of the store describes the program up to the first command that raises the
    flag.  Which command that is, is stated here by the commands alone. */
module FlushFlag {
  import opened KVStores
  import opened MemTables
  import opened Pipeline
  import opened Wrappers

  /** The command writes through the flag's pointer (src/enclave/kvs.cpp:57, 66). */
  predicate Raises(st: Store, cmd: Cmd)
    requires Shape(st)
  {
    cmd.kind == CMD_WRITE &&
    match Switched(st)
    case None => true
    case Some(st1) => Fills(st1.tables[st1.cur], cmd.key, cmd.value)
  }

  /** Command n raises the flag. */
  predicate RaisesAt(max: nat, cmds: seq<Ctx<Cmd>>, n: nat)
    requires n < |cmds|
  {
    Raises(StoreAfter(max, cmds[..n]), cmds[n].payload)
  }

  /** What the WRITEs write, whether they pass or not. */
  function WrittenBy(cmds: seq<Ctx<Cmd>>): Pairs {
    if cmds == [] then map[]
    else
      var before, cmd := WrittenBy(cmds[..|cmds| - 1]), cmds[|cmds| - 1].payload;
      if cmd.kind == CMD_WRITE then before[cmd.key := cmd.value] else before
  }

  /** A pair that reaches the threshold with a key not there before. */
  ghost predicate Overfills(max: nat, m: Pairs, cmd: Cmd) {
    cmd.kind == CMD_WRITE && cmd.key !in m && Bytes(m[cmd.key := cmd.value]) % UINT64 >= max
  }

  /** Command n overfills what the commands before it wrote. */
  ghost predicate OverfillsAt(max: nat, cmds: seq<Ctx<Cmd>>, n: nat)
    requires n < |cmds|
  {
    Overfills(max, WrittenBy(cmds[..n]), cmds[n].payload)
  }

  /** The store with all pairs in table 0 and the flag never raised. */
  ghost function Unflagged(max: nat, m: Pairs): Store {
    Store([Table(m, Bytes(m) % UINT64, max, true, false), Fresh(max)], 0, [0], -1, false)
  }

  lemma WriteUnflagged(max: nat, m: Pairs, cmd: Cmd)
    requires cmd.kind == CMD_WRITE
    ensures var st := Unflagged(max, m);
      && (Raises(st, cmd) <==> Overfills(max, m, cmd))
      && (!Overfills(max, m, cmd) ==> StoreThen(st, cmd) == Unflagged(max, m[cmd.key := cmd.value]))
  {
    hide Bytes;
    PutKeepsSize(Unflagged(max, m).tables[0], cmd.key, cmd.value);
  }

  lemma RaisedOrKept(st: Store, cmd: Cmd)
    requires Shape(st)
    ensures StoreThen(st, cmd).sema <==> st.sema || Raises(st, cmd)
  {
  }

  /** The flag is up exactly if some command raised it. */
  lemma {:induction false} FlagIsRaised(max: nat, cmds: seq<Ctx<Cmd>>)
    ensures StoreAfter(max, cmds).sema <==> exists n :: 0 <= n < |cmds| && RaisesAt(max, cmds, n)
  {
    if cmds != [] {
      var before, last := cmds[..|cmds| - 1], |cmds| - 1;
      FlagIsRaised(max, before);
      RaisedOrKept(StoreAfter(max, before), cmds[last].payload);
      hide Raises, StoreThen;
      forall n | 0 <= n < last ensures RaisesAt(max, cmds, n) == RaisesAt(max, before, n) {
        assert before[..n] == cmds[..n];
      }
      assert RaisesAt(max, cmds, last) == Raises(StoreAfter(max, before), cmds[last].payload);
    }
  }

  /** Until the first command that overfills, all pairs are in table 0, and nothing touches the flag. */
  lemma {:induction false} UnflaggedUntil(max: nat, cmds: seq<Ctx<Cmd>>)
    requires forall n :: 0 <= n < |cmds| ==> !OverfillsAt(max, cmds, n)
    ensures StoreAfter(max, cmds) == Unflagged(max, WrittenBy(cmds))
  {
    if cmds != [] {
      hide Raises, StoreThen, Overfills, Bytes;
      var before, last := cmds[..|cmds| - 1], |cmds| - 1;
      forall n | 0 <= n < last ensures !OverfillsAt(max, before, n) {
        assert !OverfillsAt(max, cmds, n);
        assert before[..n] == cmds[..n];
      }
      UnflaggedUntil(max, before);
      assert !OverfillsAt(max, cmds, last);
      OneMoreUnflagged(max, WrittenBy(before), cmds[last].payload);
    } else {
      assert Bytes(map[]) == 0;
    }
  }

  lemma OneMoreUnflagged(max: nat, m: Pairs, cmd: Cmd)
    requires !Overfills(max, m, cmd)
    ensures StoreThen(Unflagged(max, m), cmd)
         == Unflagged(max, if cmd.kind == CMD_WRITE then m[cmd.key := cmd.value] else m)
  {
    hide Overfills, Bytes;
    if cmd.kind == CMD_WRITE {
      WriteUnflagged(max, m, cmd);
    }
  }

  /** The exact prefix: the commands up to the first WRITE of a new key that takes the bytes written to
      the threshold, modulo 2^64, leave the flag alone, and that WRITE raises it. */
  lemma FlagUntouchedExactly(max: nat, cmds: seq<Ctx<Cmd>>)
    ensures (forall n :: 0 <= n < |cmds| ==> !RaisesAt(max, cmds, n))
       <==> (forall n :: 0 <= n < |cmds| ==> !OverfillsAt(max, cmds, n))
  {
    if n :| 0 <= n < |cmds| && OverfillsAt(max, cmds, n) {
      FirstOverfillRaises(max, cmds, n);
    } else {
      hide Raises, OverfillsAt;
      forall n | 0 <= n < |cmds| ensures !RaisesAt(max, cmds, n) {
        UnflaggedBefore(max, cmds, n);
      }
    }
  }

  lemma UnflaggedBefore(max: nat, cmds: seq<Ctx<Cmd>>, n: nat)
    requires n < |cmds| && forall m :: 0 <= m < n ==> !OverfillsAt(max, cmds, m)
    ensures StoreAfter(max, cmds[..n]) == Unflagged(max, WrittenBy(cmds[..n]))
    ensures RaisesAt(max, cmds, n) <==> OverfillsAt(max, cmds, n)
  {
    hide StoreAfter, WrittenBy, Overfills, StoreThen, Bytes;
    forall m | 0 <= m < n ensures !OverfillsAt(max, cmds[..n], m) {
      assert !OverfillsAt(max, cmds, m);
      assert cmds[..n][..m] == cmds[..m];
    }
    UnflaggedUntil(max, cmds[..n]);
    if cmds[n].payload.kind == CMD_WRITE {
      WriteUnflagged(max, WrittenBy(cmds[..n]), cmds[n].payload);
    } else {
      NoWriteNoOverfill(max, WrittenBy(cmds[..n]), cmds[n].payload);
    }
  }

  lemma NoWriteNoOverfill(max: nat, m: Pairs, cmd: Cmd)
    requires cmd.kind != CMD_WRITE
    ensures !Overfills(max, m, cmd)
  {
  }

  lemma {:induction false} FirstOverfillRaises(max: nat, cmds: seq<Ctx<Cmd>>, n: nat)
    requires n < |cmds| && OverfillsAt(max, cmds, n)
    ensures exists m :: 0 <= m <= n && RaisesAt(max, cmds, m)
  {
    hide RaisesAt, OverfillsAt;
    if m :| 0 <= m < n && OverfillsAt(max, cmds, m) {
      FirstOverfillRaises(max, cmds, m);
    } else {
      UnflaggedBefore(max, cmds, n);
    }
  }

  /** In that prefix every WRITE passes, so a READ there gives the last value sent for its key. */
  lemma UntouchedPrefixPasses(max: nat, cmds: seq<Ctx<Cmd>>, n: nat)
    requires n < |cmds| && forall m :: 0 <= m < n ==> !OverfillsAt(max, cmds, m)
    ensures cmds[n].payload.kind == CMD_WRITE ==>
      Outcome(max, cmds, n) == Some(CmdResult(WRITE_PASS, "")) && Text(Outcome(max, cmds, n).value) == "WRITE_PASS"
    ensures cmds[n].payload.kind == CMD_READ ==>
      var key, written := cmds[n].payload.key, WrittenBy(cmds[..n]);
      Outcome(max, cmds, n)
        == Some(if key in written then CmdResult(READ_PASS, written[key]) else CmdResult(READ_FAIL, ""))
  {
    UnflaggedBefore(max, cmds, n);
    hide Bytes, Overfills, StoreAfter, WrittenBy, Raises;
    var m := WrittenBy(cmds[..n]);
    assert View(Unflagged(max, m)) == m;
  }

  /** The map of the values last sent for each key, by the datagrams alone. */
  ghost function SentBy(ds: seq<Datagram>): Pairs
    requires AllWellFormed(ds)
  {
    if ds == [] then map[]
    else
      var before, nc := SentBy(ds[..|ds| - 1]), ds[|ds| - 1].body.value;
      if nc.kind == 1 then before[nc.ops[0] := nc.ops[1]] else before
  }

  /** Datagram n is a WRITE of a key not sent before that takes the bytes sent to the threshold. */
  ghost predicate RequestOverfills(max: nat, ds: seq<Datagram>, n: nat)
    requires AllWellFormed(ds) && n < |ds|
  {
    var m, nc := SentBy(ds[..n]), ds[n].body.value;
    nc.kind == 1 && nc.ops[0] !in m && Bytes(m[nc.ops[0] := nc.ops[1]]) % UINT64 >= max
  }

  lemma {:induction false} SentIsWritten(ds: seq<Datagram>)
    requires AllWellFormed(ds)
    ensures WrittenBy(Commands(ds)) == SentBy(ds)
  {
    if ds != [] {
      hide Commands;
      var last := |ds| - 1;
      SentIsWritten(ds[..last]);
      CommandsOfPrefix(ds, last);
      CommandsOfWellFormed(ds);
    }
  }

  lemma RequestOverfillsIs(max: nat, ds: seq<Datagram>, n: nat)
    requires AllWellFormed(ds) && n < |ds|
    ensures |Commands(ds)| == |ds| && (RequestOverfills(max, ds, n) <==> OverfillsAt(max, Commands(ds), n))
  {
    hide Commands, Bytes, SentBy, WrittenBy;
    SentIsWritten(ds[..n]);
    CommandsOfPrefix(ds, n);
    CommandsOfWellFormed(ds);
  }

  /** The same by datagrams and replies alone: up to the first request that overfills, every WRITE is
      answered WRITE_PASS, and every READ with the last value sent for its key. */
  lemma UntouchedPrefixAnswered(max: nat, ds: seq<Datagram>, n: nat)
    requires AllWellFormed(ds) && n < |ds| && forall m :: 0 <= m < n ==> !RequestOverfills(max, ds, m)
    ensures |Replies(max, Commands(ds))| == |ds|
    ensures var nc, sent, text := ds[n].body.value, SentBy(ds[..n]), Replies(max, Commands(ds))[n].payload;
      && (nc.kind == 1 ==> text == "WRITE_PASS")
      && (nc.kind == 0 ==> text == if nc.ops[0] in sent then sent[nc.ops[0]] else "READ_FAIL")
  {
    hide Commands, Replies, Bytes, RequestOverfills, OverfillsAt, Outcome, SentBy, WrittenBy;
    AnswerToRequest(max, ds, n);
    forall m | 0 <= m < n ensures !OverfillsAt(max, Commands(ds), m) {
      RequestOverfillsIs(max, ds, m);
    }
    UntouchedPrefixPasses(max, Commands(ds), n);
    CommandsOfPrefix(ds, n);
    SentIsWritten(ds[..n]);
  }

  // ---------------------------------------------------------------- three WRITEs

  function WriteOf(key: string): Ctx<Cmd> {
    Ctx("", 0, 0, Cmd(CMD_WRITE, key, ""))
  }

  /** With a threshold of zero each of the first two fills a table; the third is refused. */
  const THREE: seq<Ctx<Cmd>> := [WriteOf("a"), WriteOf("b"), WriteOf("c")]

  lemma TwoFillTheTables()
    ensures StoreAfter(0, THREE[..1]) == Store([Table(map["a" := ""], 1, 0, false, false), Fresh(0)], 0, [0], -1, true)
    ensures StoreAfter(0, THREE[..2])
         == Store([Table(map["a" := ""], 1, 0, false, false), Table(map["b" := ""], 1, 0, false, false)], 1, [0, 1],
           -1, true)
  {
    assert THREE[..0] == [] && THREE[..1] == THREE[..0] + [WriteOf("a")] && THREE[..2] == THREE[..1] + [WriteOf("b")];
    Pipeline.AfterOneMore(0, THREE[..0], WriteOf("a"));
    Pipeline.AfterOneMore(0, THREE[..1], WriteOf("b"));
  }

  /** The first raises the flag, and the third is answered WRITE_FAIL. */
  lemma ThirdWriteIsRefused()
    ensures RaisesAt(0, THREE, 0)
    ensures Outcome(0, THREE, 2) == Some(CmdResult(WAIT_FLUSH, ""))
    ensures |Replies(0, THREE)| == 3 && Replies(0, THREE)[2].payload == "WRITE_FAIL"
  {
    hide Replies;
    TwoFillTheTables();
    assert THREE[..0] == [];
    ReplyPerCommand(0, THREE, 2);
  }
}
