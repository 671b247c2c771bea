/** The stages between the two sockets: receive, input, memtable, output, send, joined by four
    first-in-first-out queues (src/host/host.cpp:127-136).  Every pop, every piece of work and every
    push is one step, and the steps of the five threads interleave in any way.  A stage that has seen
    the end signal is one that takes no further steps. */
module Pipeline {
  import opened KVStores
  import opened MemTables
  import opened Wrappers

  /** OTHER is any value of an uninitialised `type` field that is neither of the two commands. */
  datatype CmdType = CMD_READ | CMD_WRITE | OTHER

  datatype Cmd = Cmd(kind: CmdType, key: string, value: string)

  datatype CmdResult = CmdResult(status: Status, result: string)

  /** A parsed command; `junk` is what the `type` field of the `Cmd` allocated for it happens to hold. */
  datatype NetCommand = NetCommand(kind: int, ops: seq<string>, junk: CmdType)

  /** What arrives: a datagram that is no NetRequest, or a request whose body may be no NetCommand. */
  datatype Datagram = Garbled | Request(addr: string, port: nat, seqno: nat, body: Option<NetCommand>)

  /** The request context, with the payload of the stage it is at. */
  datatype Ctx<P> = Ctx(addr: string, port: nat, seqno: nat, payload: P)

  // ---------------------------------------------------------------- the work of the stages

  /** src/host/connection_handler.cpp:47-70: datagrams that do not parse are skipped, and the port is
      cut to 16 bits. */
  function Received(d: Datagram): seq<Ctx<Option<NetCommand>>> {
    if d.Garbled? then [] else [Ctx(d.addr, d.port % 0x1_0000, d.seqno, d.body)]
  }

  /** src/enclave/io_stage.cpp:30-48: a body that does not parse is dropped, and the type and the
      operands are set only for a known command with enough operands. */
  function Decoded(c: Ctx<Option<NetCommand>>): seq<Ctx<Cmd>> {
    if c.payload.None? then []
    else [Ctx(c.addr, c.port, c.seqno, CommandOf(c.payload.value))]
  }

  function CommandOf(nc: NetCommand): Cmd {
    if nc.kind == 0 && |nc.ops| >= 1 then Cmd(CMD_READ, nc.ops[0], "")
    else if nc.kind == 1 && |nc.ops| >= 2 then Cmd(CMD_WRITE, nc.ops[0], nc.ops[1])
    else Cmd(nc.junk, "", "")
  }

  /** src/enclave/memtable_stage.cpp:32-49. */
  function Executed(st: Store, cmd: Cmd): Option<CmdResult>
    requires Shape(st)
  {
    match cmd.kind
    case CMD_READ =>
      Some(if cmd.key in View(st) then CmdResult(READ_PASS, View(st)[cmd.key]) else CmdResult(READ_FAIL, ""))
    case CMD_WRITE => Some(CmdResult(PutStatus(st), ""))
    case OTHER => None
  }

  function StoreThen(st: Store, cmd: Cmd): (st': Store)
    requires Shape(st)
    ensures Shape(st')
  {
    if cmd.kind == CMD_WRITE then AfterPut(st, cmd.key, cmd.value) else st
  }

  function Results(st: Store, c: Ctx<Cmd>): seq<Ctx<CmdResult>>
    requires Shape(st)
  {
    var res := Executed(st, c.payload);
    if res.None? then [] else [Ctx(c.addr, c.port, c.seqno, res.value)]
  }

  /** src/enclave/io_stage.cpp:74-82. */
  function Text(cr: CmdResult): string {
    match cr.status
    case READ_FAIL => "READ_FAIL"
    case READ_PASS => cr.result
    case WRITE_PASS => "WRITE_PASS"
    case _ => "WRITE_FAIL"
  }

  function Rendered(c: Ctx<CmdResult>): Ctx<string> {
    Ctx(c.addr, c.port, c.seqno, Text(c.payload))
  }

  // ---------------------------------------------------------------- the sequential machine

  function Commands(ds: seq<Datagram>): seq<Ctx<Cmd>> {
    if ds == [] then [] else Commands(ds[..|ds| - 1]) + DecodedAll(Received(ds[|ds| - 1]))
  }

  function DecodedAll(cs: seq<Ctx<Option<NetCommand>>>): seq<Ctx<Cmd>> {
    if cs == [] then [] else Decoded(cs[0]) + DecodedAll(cs[1..])
  }

  function RenderedAll(cs: seq<Ctx<CmdResult>>): seq<Ctx<string>> {
    seq(|cs|, i requires 0 <= i < |cs| => Rendered(cs[i]))
  }

  /** The store after the commands, one after the other. */
  function StoreAfter(max: nat, cmds: seq<Ctx<Cmd>>): (st: Store)
    ensures Shape(st)
  {
    if cmds == [] then New(max)
    else StoreThen(StoreAfter(max, cmds[..|cmds| - 1]), cmds[|cmds| - 1].payload)
  }

  lemma {:induction false} StoreAfterKeepsInv(max: nat, cmds: seq<Ctx<Cmd>>)
    ensures Inv(StoreAfter(max, cmds))
  {
    if cmds != [] {
      StoreAfterKeepsInv(max, cmds[..|cmds| - 1]);
      var cmd := cmds[|cmds| - 1].payload;
      PutRefinesOverlay(StoreAfter(max, cmds[..|cmds| - 1]), cmd.key, cmd.value);
    }
  }

  /** The replies to the commands, one after the other. */
  function Replies(max: nat, cmds: seq<Ctx<Cmd>>): seq<Ctx<string>> {
    if cmds == [] then []
    else
      var before := cmds[..|cmds| - 1];
      Replies(max, before) + RenderedAll(Results(StoreAfter(max, before), cmds[|cmds| - 1]))
  }

  // ---------------------------------------------------------------- the machine of five threads

  /** What a stage holds between its pop and its push. */
  datatype Hand<A, B> = Empty | Popped(a: A) | Made(b: B)

  /** `arrived` and `served` record what the receiver got and what the memtable stage executed. */
  datatype State = State(
    arrived: seq<Datagram>,
    rx: Option<Ctx<Option<NetCommand>>>,
    q0: seq<Ctx<Option<NetCommand>>>,
    input: Hand<Ctx<Option<NetCommand>>, Ctx<Cmd>>,
    q1: seq<Ctx<Cmd>>,
    memtable: Hand<Ctx<Cmd>, Ctx<CmdResult>>,
    store: Store,
    served: seq<Ctx<Cmd>>,
    q2: seq<Ctx<CmdResult>>,
    output: Hand<Ctx<CmdResult>, Ctx<string>>,
    q3: seq<Ctx<string>>,
    tx: Option<Ctx<string>>,
    sent: seq<Ctx<string>>)

  datatype Action =
    | Receive(d: Datagram) | RxPush
    | InPop | InWork | InPush
    | MtPop | MtWork | MtPush
    | OutPop | OutWork | OutPush
    | TxPop | TxSend

  function Start(max: nat): State {
    State([], None, [], Empty, [], Empty, New(max), [], [], Empty, [], None, [])
  }

  predicate Enabled(s: State, a: Action, cap: nat) {
    match a
    case Receive(_) => s.rx.None?
    case RxPush => s.rx.Some? && |s.q0| < cap
    case InPop => s.input.Empty? && s.q0 != []
    case InWork => s.input.Popped?
    case InPush => s.input.Made? && |s.q1| < cap
    case MtPop => s.memtable.Empty? && s.q1 != []
    case MtWork => s.memtable.Popped?
    case MtPush => s.memtable.Made? && |s.q2| < cap
    case OutPop => s.output.Empty? && s.q2 != []
    case OutWork => s.output.Popped?
    case OutPush => s.output.Made? && |s.q3| < cap
    case TxPop => s.tx.None? && s.q3 != []
    case TxSend => s.tx.Some?
  }

  function Head<A>(cs: seq<A>): Option<A> {
    if cs == [] then None else Some(cs[0])
  }

  function HandOf<A, B>(bs: seq<B>): Hand<A, B> {
    if bs == [] then Empty else Made(bs[0])
  }

  /** A step that is not enabled is a wait: nothing changes. */
  function Step(s: State, a: Action, cap: nat): State
    requires Shape(s.store)
  {
    if !Enabled(s, a, cap) then s
    else
      match a
      case Receive(d) => s.(arrived := s.arrived + [d], rx := Head(Received(d)))
      case RxPush => s.(rx := None, q0 := s.q0 + [s.rx.value])
      case InPop => s.(input := Popped(s.q0[0]), q0 := s.q0[1..])
      case InWork => s.(input := HandOf(Decoded(s.input.a)))
      case InPush => s.(input := Empty, q1 := s.q1 + [s.input.b])
      case MtPop => s.(memtable := Popped(s.q1[0]), q1 := s.q1[1..])
      case MtWork =>
        var c := s.memtable.a;
        s.(memtable := HandOf(Results(s.store, c)), store := StoreThen(s.store, c.payload), served := s.served + [c])
      case MtPush => s.(memtable := Empty, q2 := s.q2 + [s.memtable.b])
      case OutPop => s.(output := Popped(s.q2[0]), q2 := s.q2[1..])
      case OutWork => s.(output := Made(Rendered(s.output.a)))
      case OutPush => s.(output := Empty, q3 := s.q3 + [s.output.b])
      case TxPop => s.(tx := Some(s.q3[0]), q3 := s.q3[1..])
      case TxSend => s.(tx := None, sent := s.sent + [s.tx.value])
  }

  function Run(max: nat, acts: seq<Action>, cap: nat): (s: State)
    ensures Shape(s.store)
  {
    if acts == [] then Start(max) else Step(Run(max, acts[..|acts| - 1], cap), acts[|acts| - 1], cap)
  }

  // ---------------------------------------------------------------- the invariant

  function InputPart(h: Hand<Ctx<Option<NetCommand>>, Ctx<Cmd>>): seq<Ctx<Cmd>> {
    match h
    case Empty => []
    case Popped(c) => Decoded(c)
    case Made(c) => [c]
  }

  function OutputPart(h: Hand<Ctx<CmdResult>, Ctx<string>>): seq<Ctx<string>> {
    match h
    case Empty => []
    case Popped(c) => [Rendered(c)]
    case Made(c) => [c]
  }

  function ToServe(h: Hand<Ctx<Cmd>, Ctx<CmdResult>>): seq<Ctx<Cmd>> {
    if h.Popped? then [h.a] else []
  }

  function JustServed(h: Hand<Ctx<Cmd>, Ctx<CmdResult>>): seq<Ctx<string>> {
    if h.Made? then [Rendered(h.b)] else []
  }

  function ListOf<A>(x: Option<A>): seq<A> {
    if x.None? then [] else [x.value]
  }

  /** The commands between the receiving socket and the store, oldest first. */
  function Waiting(s: State): seq<Ctx<Cmd>> {
    ToServe(s.memtable) + s.q1 + InputPart(s.input) + DecodedAll(s.q0) + DecodedAll(ListOf(s.rx))
  }

  /** The replies sent and those between the store and the sending socket, oldest first. */
  function Produced(s: State): seq<Ctx<string>> {
    s.sent + ListOf(s.tx) + s.q3 + OutputPart(s.output) + RenderedAll(s.q2) + JustServed(s.memtable)
  }

  /** Commands and replies wait in the order of arrival, and the store is the one after the commands
      it has served. */
  ghost predicate PipelineInv(max: nat, s: State) {
    && s.store == StoreAfter(max, s.served)
    && s.served + Waiting(s) == Commands(s.arrived)
    && Produced(s) == Replies(max, s.served)
  }

  lemma {:induction false} DecodedAllAppend(a: seq<Ctx<Option<NetCommand>>>, b: seq<Ctx<Option<NetCommand>>>)
    ensures DecodedAll(a + b) == DecodedAll(a) + DecodedAll(b)
  {
    if a == [] {
      assert a + b == b;
    } else {
      assert (a + b)[1..] == a[1..] + b;
      DecodedAllAppend(a[1..], b);
    }
  }

  lemma ReceiveKeepsOrder(s: State, d: Datagram)
    requires s.rx.None? && s.served + Waiting(s) == Commands(s.arrived)
    ensures var s' := s.(arrived := s.arrived + [d], rx := Head(Received(d)));
      s'.served + Waiting(s') == Commands(s'.arrived)
  {
    hide InputPart;
    assert (s.arrived + [d])[..|s.arrived|] == s.arrived;
    assert ListOf(Head(Received(d))) == Received(d);
  }

  /** The step moves a request or a reply on, and overtakes none. */
  ghost predicate Moved(s: State, s': State) {
    && s'.store == s.store && s'.served == s.served && s'.arrived == s.arrived
    && Waiting(s') == Waiting(s) && Produced(s') == Produced(s)
  }

  lemma RxPushMoves(s: State)
    requires s.rx.Some?
    ensures Moved(s, s.(rx := None, q0 := s.q0 + [s.rx.value]))
  {
    DecodedAllAppend(s.q0, [s.rx.value]);
  }

  lemma InPopMoves(s: State)
    requires s.input.Empty? && s.q0 != []
    ensures Moved(s, s.(input := Popped(s.q0[0]), q0 := s.q0[1..]))
  {
  }

  lemma InWorkMoves(s: State)
    requires s.input.Popped?
    ensures Moved(s, s.(input := HandOf(Decoded(s.input.a))))
  {
    assert InputPart(HandOf(Decoded(s.input.a))) == InputPart(s.input);
  }

  lemma InPushMoves(s: State)
    requires s.input.Made?
    ensures Moved(s, s.(input := Empty, q1 := s.q1 + [s.input.b]))
  {
  }

  lemma MtPopMoves(s: State)
    requires s.memtable.Empty? && s.q1 != []
    ensures Moved(s, s.(memtable := Popped(s.q1[0]), q1 := s.q1[1..]))
  {
    assert s.q1 == [s.q1[0]] + s.q1[1..];
  }

  lemma MtPushMoves(s: State)
    requires s.memtable.Made?
    ensures Moved(s, s.(memtable := Empty, q2 := s.q2 + [s.memtable.b]))
  {
    assert RenderedAll(s.q2 + [s.memtable.b]) == RenderedAll(s.q2) + [Rendered(s.memtable.b)];
  }

  lemma OutPopMoves(s: State)
    requires s.output.Empty? && s.q2 != []
    ensures Moved(s, s.(output := Popped(s.q2[0]), q2 := s.q2[1..]))
  {
    assert RenderedAll(s.q2) == [Rendered(s.q2[0])] + RenderedAll(s.q2[1..]);
  }

  lemma OutWorkMoves(s: State)
    requires s.output.Popped?
    ensures Moved(s, s.(output := Made(Rendered(s.output.a))))
  {
  }

  lemma OutPushMoves(s: State)
    requires s.output.Made?
    ensures Moved(s, s.(output := Empty, q3 := s.q3 + [s.output.b]))
  {
  }

  lemma TxPopMoves(s: State)
    requires s.tx.None? && s.q3 != []
    ensures Moved(s, s.(tx := Some(s.q3[0]), q3 := s.q3[1..]))
  {
    assert s.q3 == [s.q3[0]] + s.q3[1..];
  }

  lemma TxSendMoves(s: State)
    requires s.tx.Some?
    ensures Moved(s, s.(tx := None, sent := s.sent + [s.tx.value]))
  {
  }

  /** The memtable stage takes the oldest waiting command... */
  lemma ServeTakesOldest(s: State)
    requires Shape(s.store) && s.memtable.Popped?
    ensures var s' := Step(s, MtWork, 0);
      s'.served + Waiting(s') == s.served + Waiting(s)
  {
    hide Shape, AfterPut, StoreThen, Executed, DecodedAll, InputPart, Results;
    assert ToServe(s.memtable) == [s.memtable.a];
  }

  /** The results of one command, as they leave the stage. */
  lemma ServedAtOnce(st: Store, c: Ctx<Cmd>)
    requires Shape(st)
    ensures JustServed(HandOf(Results(st, c))) == RenderedAll(Results(st, c))
  {
    hide Shape, Executed;
  }

  lemma AfterOneMore(max: nat, cmds: seq<Ctx<Cmd>>, c: Ctx<Cmd>)
    ensures StoreAfter(max, cmds + [c]) == StoreThen(StoreAfter(max, cmds), c.payload)
    ensures Replies(max, cmds + [c]) == Replies(max, cmds) + RenderedAll(Results(StoreAfter(max, cmds), c))
  {
    hide Shape, StoreThen, Results, RenderedAll;
    assert (cmds + [c])[..|cmds|] == cmds;
  }

  /** ...and its reply goes behind all others. */
  lemma ServeAnswers(max: nat, s: State)
    requires Shape(s.store) && s.memtable.Popped?
    requires s.store == StoreAfter(max, s.served) && Produced(s) == Replies(max, s.served)
    ensures var s' := Step(s, MtWork, 0);
      s'.store == StoreAfter(max, s'.served) && Produced(s') == Replies(max, s'.served)
  {
    hide Shape, StoreAfter, StoreThen, Replies, Results, RenderedAll, OutputPart, ListOf, HandOf;
    AfterOneMore(max, s.served, s.memtable.a);
    ServedAtOnce(s.store, s.memtable.a);
  }

  lemma StepMoves(s: State, a: Action, cap: nat)
    requires Shape(s.store) && Enabled(s, a, cap) && !a.Receive? && !a.MtWork?
    ensures Moved(s, Step(s, a, cap))
  {
    match a
    case RxPush => RxPushMoves(s);
    case InPop => InPopMoves(s);
    case InWork => InWorkMoves(s);
    case InPush => InPushMoves(s);
    case MtPop => MtPopMoves(s);
    case MtPush => MtPushMoves(s);
    case OutPop => OutPopMoves(s);
    case OutWork => OutWorkMoves(s);
    case OutPush => OutPushMoves(s);
    case TxPop => TxPopMoves(s);
    case TxSend => TxSendMoves(s);
  }

  lemma StepKeepsPipelineInv(max: nat, s: State, a: Action, cap: nat)
    requires PipelineInv(max, s)
    ensures PipelineInv(max, Step(s, a, cap))
  {
    if Enabled(s, a, cap) {
      if a.Receive? {
        ReceiveKeepsOrder(s, a.d);
      } else if a.MtWork? {
        ServeTakesOldest(s);
        ServeAnswers(max, s);
      } else {
        StepMoves(s, a, cap);
      }
    }
  }

  lemma {:induction false} RunKeepsPipelineInv(max: nat, acts: seq<Action>, cap: nat)
    ensures PipelineInv(max, Run(max, acts, cap))
  {
    if acts != [] {
      RunKeepsPipelineInv(max, acts[..|acts| - 1], cap);
      StepKeepsPipelineInv(max, Run(max, acts[..|acts| - 1], cap), acts[|acts| - 1], cap);
    }
  }

  // ---------------------------------------------------------------- the replies

  lemma {:induction false} RepliesArePrefixes(max: nat, a: seq<Ctx<Cmd>>, b: seq<Ctx<Cmd>>)
    ensures Replies(max, a) <= Replies(max, a + b)
  {
    if b == [] {
      assert a + b == a;
    } else {
      assert (a + b)[..|a + b| - 1] == a + b[..|b| - 1];
      RepliesArePrefixes(max, a, b[..|b| - 1]);
    }
  }

  /** Whatever the interleaving, the replies sent are the first of those the store would give to the
      requests one by one in the order of arrival, each to the address and with the number of its own
      request. */
  lemma RepliesInOrder(max: nat, acts: seq<Action>, cap: nat)
    ensures var s := Run(max, acts, cap); s.sent <= Replies(max, Commands(s.arrived))
  {
    RunKeepsPipelineInv(max, acts, cap);
    var s := Run(max, acts, cap);
    RepliesArePrefixes(max, s.served, Waiting(s));
    assert s.sent <= Produced(s);
  }

  predicate NothingOnItsWay(s: State) {
    && s.rx.None? && s.input.Empty? && s.memtable.Empty? && s.output.Empty? && s.tx.None?
    && s.q0 == [] && s.q1 == [] && s.q2 == [] && s.q3 == []
  }

  lemma NothingWaiting(s: State)
    requires NothingOnItsWay(s)
    ensures Waiting(s) == [] && Produced(s) == s.sent
  {
    assert RenderedAll(s.q2) == [];
  }

  /** Once nothing is on its way, every request has been answered. */
  lemma QuiescentPipelineHasAnsweredAll(max: nat, acts: seq<Action>, cap: nat)
    requires NothingOnItsWay(Run(max, acts, cap))
    ensures var s := Run(max, acts, cap); s.sent == Replies(max, Commands(s.arrived))
  {
    var s := Run(max, acts, cap);
    RunKeepsPipelineInv(max, acts, cap);
    NothingWaiting(s);
    assert s.served + [] == s.served;
  }

  // ---------------------------------------------------------------- what a READ answers

  /** The outcome of command n. */
  function Outcome(max: nat, cmds: seq<Ctx<Cmd>>, n: nat): Option<CmdResult>
    requires n < |cmds|
  {
    Executed(StoreAfter(max, cmds[..n]), cmds[n].payload)
  }

  /** Command n is a WRITE of this key that was answered WRITE_PASS. */
  predicate Passed(max: nat, cmds: seq<Ctx<Cmd>>, n: nat, key: string)
    requires n < |cmds|
  {
    && cmds[n].payload.kind == CMD_WRITE && cmds[n].payload.key == key
    && Outcome(max, cmds, n) == Some(CmdResult(WRITE_PASS, ""))
  }

  /** The value of the last WRITE of this key before command n that was answered WRITE_PASS. */
  function LastPassed(max: nat, cmds: seq<Ctx<Cmd>>, n: nat, key: string): Option<string>
    requires n <= |cmds|
  {
    if n == 0 then None
    else if Passed(max, cmds, n - 1, key) then Some(cmds[n - 1].payload.value)
    else LastPassed(max, cmds, n - 1, key)
  }

  function Lookup(m: Pairs, key: string): Option<string> {
    if key in m then Some(m[key]) else None
  }

  lemma {:induction false} ViewIsLastPassed(max: nat, cmds: seq<Ctx<Cmd>>, n: nat, key: string)
    requires n <= |cmds|
    ensures Lookup(View(StoreAfter(max, cmds[..n])), key) == LastPassed(max, cmds, n, key)
  {
    hide Inv, Switched;
    if n > 0 {
      ViewIsLastPassed(max, cmds, n - 1, key);
      assert cmds[..n][..n - 1] == cmds[..n - 1];
      var cmd := cmds[n - 1].payload;
      StoreAfterKeepsInv(max, cmds[..n - 1]);
      PutRefinesOverlay(StoreAfter(max, cmds[..n - 1]), cmd.key, cmd.value);
    }
  }

  /** A READ answers with the last value written and acknowledged, or fails if there is none. */
  lemma ReadSeesLastWrite(max: nat, cmds: seq<Ctx<Cmd>>, n: nat)
    requires n < |cmds| && cmds[n].payload.kind == CMD_READ
    ensures Outcome(max, cmds, n) ==
      match LastPassed(max, cmds, n, cmds[n].payload.key)
      case Some(v) => Some(CmdResult(READ_PASS, v))
      case None => Some(CmdResult(READ_FAIL, ""))
  {
    ViewIsLastPassed(max, cmds, n, cmds[n].payload.key);
  }

  predicate WellFormed(d: Datagram) {
    d.Request? && d.body.Some? &&
    var nc := d.body.value;
    (nc.kind == 0 && |nc.ops| >= 1) || (nc.kind == 1 && |nc.ops| >= 2)
  }

  /** The command in a well-formed datagram. */
  function TheCommand(d: Datagram): Ctx<Cmd>
    requires WellFormed(d)
  {
    Ctx(d.addr, d.port % 0x1_0000, d.seqno, CommandOf(d.body.value))
  }

  lemma {:induction false} CommandsOfWellFormed(ds: seq<Datagram>)
    requires forall i :: 0 <= i < |ds| ==> WellFormed(ds[i])
    ensures |Commands(ds)| == |ds|
    ensures forall i :: 0 <= i < |ds| ==> Commands(ds)[i] == TheCommand(ds[i])
    ensures forall i :: 0 <= i < |ds| ==> Commands(ds)[i].payload.kind != OTHER
  {
    if ds != [] {
      var before := ds[..|ds| - 1];
      CommandsOfWellFormed(before);
      assert DecodedAll(Received(ds[|ds| - 1])) == [TheCommand(ds[|ds| - 1])];
    }
  }

  function Answer(c: Ctx<Cmd>, outcome: Option<CmdResult>): Ctx<string>
    requires outcome.Some?
  {
    Ctx(c.addr, c.port, c.seqno, Text(outcome.value))
  }

  lemma OutcomeInPrefix(max: nat, cmds: seq<Ctx<Cmd>>, m: nat, n: nat)
    requires n < m <= |cmds|
    ensures Outcome(max, cmds[..m], n) == Outcome(max, cmds, n)
  {
    assert cmds[..m][..n] == cmds[..n];
  }

  lemma LastReply(max: nat, cmds: seq<Ctx<Cmd>>)
    requires cmds != [] && cmds[|cmds| - 1].payload.kind != OTHER
    ensures var n := |cmds| - 1;
      Outcome(max, cmds, n).Some? &&
      Replies(max, cmds) == Replies(max, cmds[..n]) + [Answer(cmds[n], Outcome(max, cmds, n))]
  {
  }

  lemma {:induction false} ReplyPerCommand(max: nat, cmds: seq<Ctx<Cmd>>, n: nat)
    requires forall i :: 0 <= i < |cmds| ==> cmds[i].payload.kind != OTHER
    requires n < |cmds|
    ensures |Replies(max, cmds)| == |cmds| && Outcome(max, cmds, n).Some?
    ensures Replies(max, cmds)[n] == Answer(cmds[n], Outcome(max, cmds, n))
  {
    hide Results, StoreAfter, Executed, RenderedAll, Outcome, Answer;
    LastReply(max, cmds);
    var last := |cmds| - 1;
    if last > 0 {
      ReplyPerCommand(max, cmds[..last], if n < last then n else 0);
    }
    if n < last {
      OutcomeInPrefix(max, cmds, last, n);
    }
  }

  lemma {:induction false} AtMostOneReplyEach(max: nat, cmds: seq<Ctx<Cmd>>)
    ensures |Replies(max, cmds)| <= |cmds|
  {
    if cmds != [] {
      AtMostOneReplyEach(max, cmds[..|cmds| - 1]);
    }
  }

  /** What the client of a READ should get. */
  function Expected(max: nat, cmds: seq<Ctx<Cmd>>, n: nat): string
    requires n < |cmds|
  {
    match LastPassed(max, cmds, n, cmds[n].payload.key)
    case Some(v) => v
    case None => "READ_FAIL"
  }

  ghost predicate AllWellFormed(ds: seq<Datagram>) {
    forall i :: 0 <= i < |ds| ==> WellFormed(ds[i])
  }

  /** Every well-formed request gets one reply, with its address, port and number and the text of its
      outcome. */
  lemma AnswerToRequest(max: nat, ds: seq<Datagram>, n: nat)
    requires AllWellFormed(ds) && n < |ds|
    ensures var cmds := Commands(ds);
      |cmds| == |Replies(max, cmds)| == |ds| && cmds[n] == TheCommand(ds[n]) &&
      Outcome(max, cmds, n).Some? && Replies(max, cmds)[n] == Answer(cmds[n], Outcome(max, cmds, n))
  {
    hide Commands, Outcome, Answer, WellFormed, TheCommand, Replies;
    CommandsOfWellFormed(ds);
    ReplyPerCommand(max, Commands(ds), n);
  }

  // ---------------------------------------------------------------- by datagrams and replies alone

  /** Datagram i is a WRITE of this key and its own reply says that it passed. */
  predicate Acknowledged(ds: seq<Datagram>, replies: seq<Ctx<string>>, i: nat, key: string)
    requires i < |ds| && i < |replies| && WellFormed(ds[i])
  {
    var nc := ds[i].body.value;
    nc.kind == 1 && nc.ops[0] == key && replies[i].payload == "WRITE_PASS"
  }

  /** The value in the last of the first n datagrams that is such a WRITE. */
  ghost function LastAcknowledged(ds: seq<Datagram>, replies: seq<Ctx<string>>, n: nat, key: string): Option<string>
    requires AllWellFormed(ds) && n <= |ds| && n <= |replies|
  {
    if n == 0 then None
    else if Acknowledged(ds, replies, n - 1, key) then Some(ds[n - 1].body.value.ops[1])
    else LastAcknowledged(ds, replies, n - 1, key)
  }

  /** A READ gives the value in the last earlier WRITE of its key that was answered WRITE_PASS, or fails
      if there is none. */
  ghost predicate ReadIsAnswered(ds: seq<Datagram>, replies: seq<Ctx<string>>, n: nat)
    requires AllWellFormed(ds) && n < |ds| && n < |replies|
  {
    var nc := ds[n].body.value;
    nc.kind == 0 ==>
      replies[n].payload ==
        match LastAcknowledged(ds, replies, n, nc.ops[0])
        case Some(v) => v
        case None => "READ_FAIL"
  }

  predicate AllFrozen(st: Store)
    requires Shape(st)
  {
    !st.tables[0].isMutable && !st.tables[1].isMutable
  }

  /** The text of a WRITE tells what it did to the map that later READs see: WRITE_PASS, unless both
      tables are frozen, that it put the pair there, and WRITE_FAIL that it changed nothing. */
  ghost predicate WriteTellsOutcome(st: Store, st': Store, key: string, value: string, text: string)
    requires Shape(st) && Shape(st')
  {
    if AllFrozen(st) then text == "WRITE_FAIL" && View(st') == View(st)
    else text == "WRITE_PASS" && View(st') == View(st)[key := value]
  }

  ghost predicate WriteIsAnswered(max: nat, ds: seq<Datagram>, replies: seq<Ctx<string>>, n: nat)
    requires AllWellFormed(ds) && n < |ds| && n < |replies|
  {
    var nc := ds[n].body.value;
    nc.kind == 1 ==>
      WriteTellsOutcome(StoreAfter(max, Commands(ds[..n])), StoreAfter(max, Commands(ds[..n + 1])),
        nc.ops[0], nc.ops[1], replies[n].payload)
  }

  /** Reply n goes to the address and port of request n, with its number, and tells its outcome. */
  ghost predicate IsAnswered(max: nat, ds: seq<Datagram>, replies: seq<Ctx<string>>, n: nat)
    requires AllWellFormed(ds) && n < |ds| && n < |replies|
  {
    var d, reply := ds[n], replies[n];
    && reply.addr == d.addr && reply.port == d.port % 0x1_0000 && reply.seqno == d.seqno
    && ReadIsAnswered(ds, replies, n)
    && WriteIsAnswered(max, ds, replies, n)
  }

  lemma CommandsOfPrefix(ds: seq<Datagram>, n: nat)
    requires AllWellFormed(ds) && n <= |ds|
    ensures |Commands(ds)| == |ds| && Commands(ds[..n]) == Commands(ds)[..n]
  {
    hide Commands, WellFormed, TheCommand;
    CommandsOfWellFormed(ds);
    CommandsOfWellFormed(ds[..n]);
  }

  /** A WRITE of the run: its text, and what it did to the map. */
  lemma OneWrite(max: nat, cmds: seq<Ctx<Cmd>>, n: nat)
    requires n < |cmds| && cmds[n].payload.kind == CMD_WRITE
    ensures Outcome(max, cmds, n).Some?
    ensures WriteTellsOutcome(StoreAfter(max, cmds[..n]), StoreAfter(max, cmds[..n + 1]),
        cmds[n].payload.key, cmds[n].payload.value, Text(Outcome(max, cmds, n).value))
  {
    hide Inv, Switched, StoreAfter, AfterPut;
    var st, cmd := StoreAfter(max, cmds[..n]), cmds[n].payload;
    StoreAfterKeepsInv(max, cmds[..n]);
    assert cmds[..n + 1] == cmds[..n] + [cmds[n]];
    AfterOneMore(max, cmds[..n], cmds[n]);
    PutRefinesOverlay(st, cmd.key, cmd.value);
    FrozenMeans(st);
  }

  lemma FrozenMeans(st: Store)
    requires Shape(st)
    ensures AllFrozen(st) <==> forall t <- st.tables :: !t.isMutable
  {
    assert st.tables[0] in st.tables && st.tables[1] in st.tables;
  }

  lemma WriteAnswer(max: nat, ds: seq<Datagram>, replies: seq<Ctx<string>>, n: nat)
    requires AllWellFormed(ds) && n < |ds| && n < |replies| && replies <= Replies(max, Commands(ds))
    ensures WriteIsAnswered(max, ds, replies, n)
  {
    hide Commands, Replies, StoreAfter, WriteTellsOutcome, Outcome;
    AnswerToRequest(max, ds, n);
    CommandsOfPrefix(ds, n);
    CommandsOfPrefix(ds, n + 1);
    if ds[n].body.value.kind == 1 {
      OneWrite(max, Commands(ds), n);
    }
  }

  /** The commands that passed are the datagrams that were answered so. */
  lemma AcknowledgedIsPassed(max: nat, ds: seq<Datagram>, replies: seq<Ctx<string>>, i: nat, key: string)
    requires AllWellFormed(ds) && i < |ds| && i < |replies| && replies <= Replies(max, Commands(ds))
    ensures |Commands(ds)| == |ds|
    ensures Acknowledged(ds, replies, i, key) <==> Passed(max, Commands(ds), i, key)
    ensures Acknowledged(ds, replies, i, key) ==> Commands(ds)[i].payload.value == ds[i].body.value.ops[1]
  {
    hide Commands, Replies, StoreAfter, PutStatus;
    AnswerToRequest(max, ds, i);
  }

  lemma {:induction false} LastAcknowledgedIsPassed(max: nat, ds: seq<Datagram>, replies: seq<Ctx<string>>,
                                                    n: nat, key: string)
    requires AllWellFormed(ds) && n <= |ds| && n <= |replies| && replies <= Replies(max, Commands(ds))
    ensures |Commands(ds)| == |ds|
    ensures LastAcknowledged(ds, replies, n, key) == LastPassed(max, Commands(ds), n, key)
  {
    hide Commands, Replies, Passed, Acknowledged, WellFormed;
    CommandsOfWellFormed(ds);
    if n > 0 {
      AcknowledgedIsPassed(max, ds, replies, n - 1, key);
      LastAcknowledgedIsPassed(max, ds, replies, n - 1, key);
    }
  }

  lemma ReadAnswer(max: nat, ds: seq<Datagram>, replies: seq<Ctx<string>>, n: nat)
    requires AllWellFormed(ds) && n < |ds| && n < |replies| && replies <= Replies(max, Commands(ds))
    ensures ReadIsAnswered(ds, replies, n)
    ensures ds[n].body.value.kind == 0 ==>
      |Commands(ds)| == |ds| && replies[n].payload == Expected(max, Commands(ds), n)
  {
    hide Commands, Replies, Outcome, LastPassed, LastAcknowledged;
    AnswerToRequest(max, ds, n);
    if ds[n].body.value.kind == 0 {
      var key := ds[n].body.value.ops[0];
      ReadSeesLastWrite(max, Commands(ds), n);
      LastAcknowledgedIsPassed(max, ds, replies, n, key);
    }
  }

  /** The replies of the store to well-formed requests answer them, one each, in order. */
  lemma RequestsAreAnswered(max: nat, ds: seq<Datagram>, replies: seq<Ctx<string>>, n: nat)
    requires AllWellFormed(ds) && n < |replies| && replies <= Replies(max, Commands(ds))
    ensures n < |ds| && IsAnswered(max, ds, replies, n)
    ensures var cmds := Commands(ds);
      |cmds| == |ds| && cmds[n] == TheCommand(ds[n]) &&
      (ds[n].body.value.kind == 0 ==> replies[n].payload == Expected(max, cmds, n))
  {
    hide Expected, Commands, Replies, ReadIsAnswered, WriteIsAnswered, Outcome;
    CommandsOfWellFormed(ds);
    AtMostOneReplyEach(max, Commands(ds));
    AnswerToRequest(max, ds, n);
    ReadAnswer(max, ds, replies, n);
    WriteAnswer(max, ds, replies, n);
  }

  /** If all requests are well formed, reply n answers request n: it goes back to that request's
      address and port with its number, a READ is answered with the value in the last earlier WRITE of its
      key that was itself answered WRITE_PASS, or with READ_FAIL if there is none, and a WRITE is answered
      WRITE_PASS if it changed the map that later READs see, and WRITE_FAIL if it changed nothing. */
  lemma EndToEnd(max: nat, acts: seq<Action>, cap: nat, n: nat)
    requires AllWellFormed(Run(max, acts, cap).arrived)
    requires n < |Run(max, acts, cap).sent|
    ensures var s := Run(max, acts, cap); n < |s.arrived| && IsAnswered(max, s.arrived, s.sent, n)
    ensures var s := Run(max, acts, cap);
      var cmds := Commands(s.arrived);
      n < |s.arrived| == |cmds| && cmds[n] == TheCommand(s.arrived[n]) &&
      (s.arrived[n].body.value.kind == 0 ==> s.sent[n].payload == Expected(max, cmds, n))
  {
    hide IsAnswered, Run, Expected, Commands;
    RepliesInOrder(max, acts, cap);
    RequestsAreAnswered(max, Run(max, acts, cap).arrived, Run(max, acts, cap).sent, n);
  }

  // ---------------------------------------------------------------- among other datagrams

  /** What a datagram is taken for: a request without a command the input stage knows, or with too few
      operands, is a READ or a WRITE of the empty key if that is what its uninitialised `type` holds. */
  function Meant(d: Datagram): Datagram {
    if WellFormed(d) || d.Garbled? || d.body.None? then d
    else
      match d.body.value.junk
      case CMD_READ => d.(body := Some(NetCommand(0, [""], OTHER)))
      case CMD_WRITE => d.(body := Some(NetCommand(1, ["", ""], OTHER)))
      case OTHER => d
  }

  /** The requests in a sequence of datagrams; all others are dropped. */
  function Requests(ds: seq<Datagram>): seq<Datagram> {
    if ds == [] then []
    else Requests(ds[..|ds| - 1]) + if WellFormed(Meant(ds[|ds| - 1])) then [Meant(ds[|ds| - 1])] else []
  }

  lemma {:induction false} RequestsAreWellFormed(ds: seq<Datagram>)
    ensures AllWellFormed(Requests(ds))
  {
    if ds != [] {
      hide WellFormed, Meant;
      RequestsAreWellFormed(ds[..|ds| - 1]);
    }
  }

  /** Two sequences of datagrams with the same store and the same replies. */
  ghost predicate Alike(max: nat, a: seq<Datagram>, b: seq<Datagram>) {
    && StoreAfter(max, Commands(a)) == StoreAfter(max, Commands(b))
    && Replies(max, Commands(a)) == Replies(max, Commands(b))
  }

  /** The other datagrams leave the store and the replies to the requests alone. */
  lemma {:induction false} OthersAreDropped(max: nat, ds: seq<Datagram>)
    ensures Alike(max, ds, Requests(ds))
  {
    hide Alike, Requests;
    if ds == [] {
      NothingIsAlike(max);
    } else {
      var before, d := ds[..|ds| - 1], ds[|ds| - 1];
      assert ds == before + [d];
      OthersAreDropped(max, before);
      OneMoreIsAlike(max, before, d);
    }
  }

  lemma NothingIsAlike(max: nat)
    ensures Alike(max, [], Requests([]))
  {
    hide StoreAfter, Replies, Commands;
  }

  lemma OneMoreIsAlike(max: nat, ds: seq<Datagram>, d: Datagram)
    requires Alike(max, ds, Requests(ds))
    ensures Alike(max, ds + [d], Requests(ds + [d]))
  {
    hide StoreAfter, Replies, Commands, Requests, WellFormed, Meant, StoreThen, Results, RenderedAll;
    RequestsAre(ds, d);
    if WellFormed(Meant(d)) {
      MeansTheCommand(d);
      OneMoreRequest(max, ds, d, Meant(d));
      MeansItself(Meant(d));
      OneMoreRequest(max, Requests(ds), Meant(d), Meant(d));
    } else {
      OneDropped(max, ds, d);
    }
  }

  lemma RequestsAre(ds: seq<Datagram>, d: Datagram)
    ensures Requests(ds + [d]) == if WellFormed(Meant(d)) then Requests(ds) + [Meant(d)] else Requests(ds)
  {
    hide WellFormed, Meant;
    assert (ds + [d])[..|ds|] == ds;
  }

  lemma MeansTheCommand(d: Datagram)
    requires WellFormed(Meant(d))
    ensures DecodedAll(Received(d)) == [TheCommand(Meant(d))]
  {
  }

  lemma MeansItself(d: Datagram)
    requires WellFormed(d)
    ensures DecodedAll(Received(d)) == [TheCommand(d)]
  {
  }

  lemma OneMoreRequest(max: nat, ds: seq<Datagram>, d: Datagram, request: Datagram)
    requires WellFormed(request) && DecodedAll(Received(d)) == [TheCommand(request)]
    ensures var st, c := StoreAfter(max, Commands(ds)), TheCommand(request);
      && StoreAfter(max, Commands(ds + [d])) == StoreThen(st, c.payload)
      && Replies(max, Commands(ds + [d])) == Replies(max, Commands(ds)) + RenderedAll(Results(st, c))
  {
    hide StoreAfter, StoreThen, Replies, Results, RenderedAll, TheCommand;
    assert (ds + [d])[..|ds|] == ds;
    AfterOneMore(max, Commands(ds), TheCommand(request));
  }

  lemma OneDropped(max: nat, ds: seq<Datagram>, d: Datagram)
    requires !WellFormed(Meant(d))
    ensures StoreAfter(max, Commands(ds + [d])) == StoreAfter(max, Commands(ds))
    ensures Replies(max, Commands(ds + [d])) == Replies(max, Commands(ds))
  {
    hide StoreAfter, Replies, AfterPut;
    assert (ds + [d])[..|ds|] == ds;
    if d.Request? && d.body.Some? {
      var c := Ctx(d.addr, d.port % 0x1_0000, d.seqno, Cmd(OTHER, "", ""));
      assert DecodedAll(Received(d)) == [c];
      AfterOneMore(max, Commands(ds), c);
      assert RenderedAll([]) == [];
    } else {
      assert DecodedAll(Received(d)) == [];
      assert Commands(ds) + [] == Commands(ds);
    }
  }

  /** Whatever arrives, reply n answers the n-th request among it. */
  lemma EndToEndAmongOthers(max: nat, acts: seq<Action>, cap: nat, n: nat)
    requires n < |Run(max, acts, cap).sent|
    ensures var s := Run(max, acts, cap);
      AllWellFormed(Requests(s.arrived)) && n < |Requests(s.arrived)| && IsAnswered(max, Requests(s.arrived), s.sent, n)
  {
    hide IsAnswered, Run, Replies, Commands, Requests, StoreAfter;
    RepliesInOrder(max, acts, cap);
    var s := Run(max, acts, cap);
    OthersAreDropped(max, s.arrived);
    RequestsAreWellFormed(s.arrived);
    RequestsAreAnswered(max, Requests(s.arrived), s.sent, n);
  }

  // ---------------------------------------------------------------- every request is answered

  /** The steps that what is on its way has still to go. */
  function StepsLeft(s: State): nat {
    (if s.rx.Some? then 12 else 0) + 11 * |s.q0|
    + (if s.input.Popped? then 10 else if s.input.Made? then 9 else 0) + 8 * |s.q1|
    + (if s.memtable.Popped? then 7 else if s.memtable.Made? then 6 else 0) + 5 * |s.q2|
    + (if s.output.Popped? then 4 else if s.output.Made? then 3 else 0) + 2 * |s.q3|
    + (if s.tx.Some? then 1 else 0)
  }

  lemma StageStepAdvances(s: State, a: Action, cap: nat)
    requires Shape(s.store) && Enabled(s, a, cap) && !a.Receive?
    ensures StepsLeft(Step(s, a, cap)) < StepsLeft(s)
  {
    hide StoreThen, Results, Decoded, Shape;
  }

  /** A stage that can go on, the last ones first. */
  lemma SomeStageGoesOn(s: State, cap: nat) returns (a: Action)
    requires cap > 0 && !NothingOnItsWay(s)
    ensures Enabled(s, a, cap) && !a.Receive?
  {
    a :=
      if s.tx.Some? then TxSend
      else if s.q3 != [] then TxPop
      else if s.output.Made? then OutPush
      else if s.output.Popped? then OutWork
      else if s.q2 != [] then OutPop
      else if s.memtable.Made? then MtPush
      else if s.memtable.Popped? then MtWork
      else if s.q1 != [] then MtPop
      else if s.input.Made? then InPush
      else if s.input.Popped? then InWork
      else if s.q0 != [] then InPop
      else RxPush;
  }

  lemma RunOneMore(max: nat, acts: seq<Action>, a: Action, cap: nat)
    ensures Run(max, acts + [a], cap) == Step(Run(max, acts, cap), a, cap)
  {
    hide Step;
    assert (acts + [a])[..|acts|] == acts;
  }

  /** From any state of any run the stages answer everything that has arrived, one step after the other,
      also over queues of one element. */
  lemma {:induction false} StagesAnswerAll(max: nat, acts: seq<Action>, cap: nat) returns (more: seq<Action>)
    requires cap > 0
    ensures var s, s' := Run(max, acts, cap), Run(max, acts + more, cap);
      |more| <= StepsLeft(s) && s'.arrived == s.arrived && s'.sent == Replies(max, Commands(s.arrived))
    decreases StepsLeft(Run(max, acts, cap))
  {
    hide Run, Step, Replies, Commands, StepsLeft, NothingOnItsWay, Enabled;
    var s := Run(max, acts, cap);
    if NothingOnItsWay(s) {
      more := [];
      assert acts + [] == acts;
      QuiescentPipelineHasAnsweredAll(max, acts, cap);
    } else {
      var a := SomeStageGoesOn(s, cap);
      StageStepAdvances(s, a, cap);
      NothingArrives(s, a, cap);
      RunOneMore(max, acts, a, cap);
      var rest := StagesAnswerAll(max, acts + [a], cap);
      more := [a] + rest;
      assert acts + more == acts + [a] + rest;
    }
  }

  lemma NothingArrives(s: State, a: Action, cap: nat)
    requires Shape(s.store) && !a.Receive?
    ensures Step(s, a, cap).arrived == s.arrived
  {
    hide StoreThen, Results, Decoded, Shape;
  }

  /** The receiver takes the next datagram whenever it has handed on the last. */
  lemma ReceiverListens(max: nat, acts: seq<Action>, cap: nat, d: Datagram)
    requires Run(max, acts, cap).rx.None?
    ensures Run(max, acts + [Receive(d)], cap).arrived == Run(max, acts, cap).arrived + [d]
  {
    hide Received;
    RunOneMore(max, acts, Receive(d), cap);
  }

  lemma {:induction false} FrozenForever(max: nat, cmds: seq<Ctx<Cmd>>, n: nat)
    requires n <= |cmds| && AllFrozen(StoreAfter(max, cmds[..n]))
    ensures AllFrozen(StoreAfter(max, cmds))
    decreases |cmds|
  {
    if n < |cmds| {
      var before := cmds[..|cmds| - 1];
      assert before[..n] == cmds[..n];
      FrozenForever(max, before, n);
      var cmd := cmds[|cmds| - 1].payload;
      StoreAfterKeepsInv(max, before);
      PutRefinesOverlay(StoreAfter(max, before), cmd.key, cmd.value);
    } else {
      assert cmds[..n] == cmds;
    }
  }

  /** No stage ends a flush: from the first WRITE that is refused on, every WRITE is.  This is the store
      with a flush flag of its own; the memtable stage never sets the pointer to one, so a WRITE that
      raises the flag goes through an unset pointer first (FlushFlag says which WRITE that is). */
  lemma RefusedForever(max: nat, cmds: seq<Ctx<Cmd>>, m: nat, n: nat)
    requires m <= n < |cmds| && cmds[m].payload.kind == CMD_WRITE && cmds[n].payload.kind == CMD_WRITE
    requires Outcome(max, cmds, m) != Some(CmdResult(WRITE_PASS, ""))
    ensures Outcome(max, cmds, n) == Some(CmdResult(WAIT_FLUSH, ""))
    ensures Text(Outcome(max, cmds, n).value) == "WRITE_FAIL"
  {
    assert cmds[..n][..m] == cmds[..m];
    StoreAfterKeepsInv(max, cmds[..m]);
    PutRefinesOverlay(StoreAfter(max, cmds[..m]), "", "");
    assert AllFrozen(StoreAfter(max, cmds[..m])) by {
      var tables := StoreAfter(max, cmds[..m]).tables;
      assert tables[0] in tables && tables[1] in tables;
    }
    FrozenForever(max, cmds[..n], m);
    StoreAfterKeepsInv(max, cmds[..n]);
  }

  // ---------------------------------------------------------------- the loops of the stages

  /** The input stage's loop over the contexts it pops before the end signal. */
  method InputStage(popped: seq<Ctx<Option<NetCommand>>>) returns (pushed: seq<Ctx<Cmd>>)
    ensures pushed == DecodedAll(popped)
  {
    pushed := [];
    for i := 0 to |popped|
      invariant pushed == DecodedAll(popped[..i])
    {
      assert popped[..i + 1] == popped[..i] + [popped[i]];
      DecodedAllAppend(popped[..i], [popped[i]]);
      var ctx := popped[i];
      if ctx.payload.None? {
        continue;
      }
      var nc := ctx.payload.value;
      var cmd := Cmd(nc.junk, "", "");
      if nc.kind == 0 && |nc.ops| >= 1 {
        cmd := cmd.(kind := CMD_READ, key := nc.ops[0]);
      } else if nc.kind == 1 && |nc.ops| >= 2 {
        cmd := cmd.(kind := CMD_WRITE, key := nc.ops[0], value := nc.ops[1]);
      }
      pushed := pushed + [Ctx(ctx.addr, ctx.port, ctx.seqno, cmd)];
    }
    assert popped[..|popped|] == popped;
  }

  /** One round of the memtable stage's loop (33-47); None is a dropped command. */
  method Serve(kvs: KVStore, cmd: Cmd) returns (res: Option<CmdResult>)
    requires kvs.Valid()
    modifies kvs, kvs.mt_[0], kvs.mt_[1]
    ensures kvs.Valid()
    ensures kvs.Model() == StoreThen(old(kvs.Model()), cmd) && res == Executed(old(kvs.Model()), cmd)
  {
    if cmd.kind == CMD_READ {
      var status, val := kvs.Get(cmd.key, "");
      res := Some(CmdResult(status, val));
    } else if cmd.kind == CMD_WRITE {
      var status := kvs.Put(cmd.key, cmd.value);
      res := Some(CmdResult(status, ""));
    } else {
      res := None;
    }
  }

  lemma OneMoreServed(max: nat, cmds: seq<Ctx<Cmd>>, i: nat, pushed: seq<Ctx<CmdResult>>)
    requires i < |cmds| && RenderedAll(pushed) == Replies(max, cmds[..i])
    ensures var st := StoreAfter(max, cmds[..i]);
      && StoreAfter(max, cmds[..i + 1]) == StoreThen(st, cmds[i].payload)
      && RenderedAll(pushed + Results(st, cmds[i])) == Replies(max, cmds[..i + 1])
  {
    assert cmds[..i + 1][..i] == cmds[..i];
    var more := Results(StoreAfter(max, cmds[..i]), cmds[i]);
    assert RenderedAll(pushed + more) == RenderedAll(pushed) + RenderedAll(more);
  }

  /** The memtable stage's loop over the contexts it pops, on its own store. */
  method MemtableStage(max: nat, popped: seq<Ctx<Cmd>>) returns (pushed: seq<Ctx<CmdResult>>)
    ensures RenderedAll(pushed) == Replies(max, popped)
  {
    var kvs := new KVStore(max);
    pushed := [];
    for i := 0 to |popped|
      invariant fresh(kvs) && fresh(kvs.mt_) && kvs.Valid() && fresh(kvs.mt_[0]) && fresh(kvs.mt_[1])
      invariant kvs.Model() == StoreAfter(max, popped[..i])
      invariant RenderedAll(pushed) == Replies(max, popped[..i])
    {
      OneMoreServed(max, popped, i, pushed);
      ghost var all := pushed + Results(kvs.Model(), popped[i]);
      var ctx := popped[i];
      var res := Serve(kvs, ctx.payload);
      if res.Some? {
        pushed := pushed + [Ctx(ctx.addr, ctx.port, ctx.seqno, res.value)];
      }
      assert pushed == all;
    }
    assert popped[..|popped|] == popped;
  }

  /** The output stage's loop over the contexts it pops. */
  method OutputStage(popped: seq<Ctx<CmdResult>>) returns (pushed: seq<Ctx<string>>)
    ensures pushed == RenderedAll(popped)
  {
    pushed := [];
    for i := 0 to |popped|
      invariant pushed == RenderedAll(popped[..i])
    {
      var ctx := popped[i];
      var cr := ctx.payload;
      var resp_str := "";
      if cr.status == READ_FAIL {
        resp_str := "READ_FAIL";
      } else if cr.status == READ_PASS {
        resp_str := cr.result;
      } else if cr.status == WRITE_PASS {
        resp_str := "WRITE_PASS";
      } else {
        resp_str := "WRITE_FAIL";
      }
      pushed := pushed + [Ctx(ctx.addr, ctx.port, ctx.seqno, resp_str)];
    }
    assert popped[..|popped|] == popped;
  }
}
