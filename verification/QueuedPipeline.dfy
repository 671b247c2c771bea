/** The five stages over the slot protocol: the machine of Pipeline with an SpscQueue in place of each of
    the four sequences, so that every load and store of a push or a pop is a step and all of them
    interleave.  Every run of it is a run of Pipeline with queues of 2^k elements. */
module QueuedPipeline {
  import opened Bits
  import opened KVStores
  import opened MemTables
  import opened Pipeline
  import opened QueueContents
  import opened Wrappers
  import Spsc = SpscQueue

  // ---------------------------------------------------------------- one queue between two stages

  /** The producer makes a step of `push(item)`, if it has something to push. */
  function PushOn<T>(q: Spsc.State<T>, item: Option<T>): Spsc.State<T> {
    if item.Some? then Spsc.Step(q, Spsc.Produce(item.value, false)) else q
  }

  /** This step makes `push` return. */
  predicate Pushed<T>(q: Spsc.State<T>, item: Option<T>) {
    item.Some? && q.p.Publish?
  }

  /** The consumer makes a step of `pop()`, if it has nothing in hand. */
  function PopFrom<T>(q: Spsc.State<T>, idle: bool): Spsc.State<T> {
    if idle then Spsc.Step(q, Spsc.Consume(false)) else q
  }

  /** What `pop` returns with this step, if it does. */
  function Taken<T>(q: Spsc.State<T>, idle: bool): Option<T> {
    if idle && q.c.Release? then q.c.v else None
  }

  ghost predicate LinkInv<T>(q: Spsc.State<T>, item: Option<T>, idle: bool, k: nat) {
    QueueInv(q, item) && q.k == k && (!idle ==> q.c.ReadyC?)
  }

  lemma LinkPush<T>(q: Spsc.State<T>, item: Option<T>, idle: bool, k: nat)
    requires LinkInv(q, item, idle, k)
    ensures var q' := PushOn(q, item);
      && Ordered(q) && LinkInv(q', if Pushed(q, item) then None else item, idle, k) && Ordered(q')
      && Contents(q') == (if Pushed(q, item) then Contents(q) + [item.value] else Contents(q))
      && (Pushed(q, item) ==> |Contents(q)| < Pow2(k))
  {
    hide Spsc.Inv, Spsc.Step, Offers, Contents, Ordered, Pow2;
    if item.Some? {
      PushStep(q, item.value);
    }
  }

  lemma LinkPop<T>(q: Spsc.State<T>, item: Option<T>, idle: bool, k: nat)
    requires LinkInv(q, item, idle, k)
    ensures var q', x := PopFrom(q, idle), Taken(q, idle);
      && Ordered(q) && LinkInv(q', item, idle && x.None?, k) && Ordered(q')
      && (x.Some? ==> Contents(q) != [] && x.value == Contents(q)[0])
      && Contents(q') == (if x.Some? then Contents(q)[1..] else Contents(q))
  {
    hide Spsc.Inv, Spsc.Step, Offers, Contents, Ordered, Pow2;
    if idle {
      PopStep(q, item);
    }
  }

  /** With nothing to push the producer is in no `push`, so it may start one. */
  lemma LinkOffer<T>(q: Spsc.State<T>, item: Option<T>, idle: bool, k: nat)
    requires LinkInv(q, None, idle, k)
    ensures LinkInv(q, item, idle, k)
  {
    hide Spsc.Inv, Contents, Ordered, Pow2;
  }

  lemma LinkIdle<T>(q: Spsc.State<T>, item: Option<T>, idle: bool, k: nat)
    requires LinkInv(q, item, idle, k)
    ensures LinkInv(q, item, true, k)
  {
    hide QueueInv;
  }

  // ---------------------------------------------------------------- the machine

  /** `rest` is what Pipeline has besides the queues; its own queues stay unused. */
  datatype State = State(
    rest: Pipeline.State,
    q0: Spsc.State<Ctx<Option<NetCommand>>>,
    q1: Spsc.State<Ctx<Cmd>>,
    q2: Spsc.State<Ctx<CmdResult>>,
    q3: Spsc.State<Ctx<string>>)

  /** Local steps are those of Pipeline that touch no queue. */
  datatype Action =
    | Local(a: Pipeline.Action)
    | Push0 | Pop0 | Push1 | Pop1 | Push2 | Pop2 | Push3 | Pop3

  predicate TouchesNoQueue(a: Pipeline.Action) {
    a.Receive? || a.InWork? || a.MtWork? || a.OutWork? || a.TxSend?
  }

  function MadeBy<A, B>(h: Hand<A, B>): Option<B> {
    if h.Made? then Some(h.b) else None
  }

  function Start(max: nat, bits: nat, k: nat): State {
    State.State(Pipeline.Start(max), Spsc.Init(bits, k), Spsc.Init(bits, k), Spsc.Init(bits, k), Spsc.Init(bits, k))
  }

  function Step(s: State, a: Action): (s': State)
    requires Shape(s.rest.store)
    ensures Shape(s'.rest.store)
  {
    var r := s.rest;
    match a
    case Local(b) => if TouchesNoQueue(b) then s.(rest := Pipeline.Step(r, b, 0)) else s
    case Push0 => s.(q0 := PushOn(s.q0, r.rx), rest := if Pushed(s.q0, r.rx) then r.(rx := None) else r)
    case Pop0 =>
      var x := Taken(s.q0, r.input.Empty?);
      s.(q0 := PopFrom(s.q0, r.input.Empty?), rest := if x.Some? then r.(input := Popped(x.value)) else r)
    case Push1 =>
      s.(q1 := PushOn(s.q1, MadeBy(r.input)), rest := if Pushed(s.q1, MadeBy(r.input)) then r.(input := Empty) else r)
    case Pop1 =>
      var x := Taken(s.q1, r.memtable.Empty?);
      s.(q1 := PopFrom(s.q1, r.memtable.Empty?), rest := if x.Some? then r.(memtable := Popped(x.value)) else r)
    case Push2 =>
      s.(q2 := PushOn(s.q2, MadeBy(r.memtable)),
         rest := if Pushed(s.q2, MadeBy(r.memtable)) then r.(memtable := Empty) else r)
    case Pop2 =>
      var x := Taken(s.q2, r.output.Empty?);
      s.(q2 := PopFrom(s.q2, r.output.Empty?), rest := if x.Some? then r.(output := Popped(x.value)) else r)
    case Push3 =>
      s.(q3 := PushOn(s.q3, MadeBy(r.output)),
         rest := if Pushed(s.q3, MadeBy(r.output)) then r.(output := Empty) else r)
    case Pop3 =>
      var x := Taken(s.q3, r.tx.None?);
      s.(q3 := PopFrom(s.q3, r.tx.None?), rest := if x.Some? then r.(tx := x) else r)
  }

  function Run(max: nat, bits: nat, k: nat, acts: seq<Action>): (s: State)
    ensures Shape(s.rest.store)
  {
    if acts == [] then Start(max, bits, k) else Step(Run(max, bits, k, acts[..|acts| - 1]), acts[|acts| - 1])
  }

  // ---------------------------------------------------------------- the machine it refines

  ghost predicate Inv(s: State, k: nat) {
    && Shape(s.rest.store)
    && LinkInv(s.q0, s.rest.rx, s.rest.input.Empty?, k)
    && LinkInv(s.q1, MadeBy(s.rest.input), s.rest.memtable.Empty?, k)
    && LinkInv(s.q2, MadeBy(s.rest.memtable), s.rest.output.Empty?, k)
    && LinkInv(s.q3, MadeBy(s.rest.output), s.rest.tx.None?, k)
    && AllOrdered(s)
  }

  predicate AllOrdered(s: State) {
    Ordered(s.q0) && Ordered(s.q1) && Ordered(s.q2) && Ordered(s.q3)
  }

  /** The state of Pipeline it stands for. */
  function Abs(s: State): Pipeline.State
    requires AllOrdered(s)
  {
    s.rest.(q0 := Contents(s.q0), q1 := Contents(s.q1), q2 := Contents(s.q2), q3 := Contents(s.q3))
  }

  /** The step of Pipeline this step is, if any. */
  function AbsStep(s: State, a: Action): Option<Pipeline.Action> {
    var r := s.rest;
    match a
    case Local(b) => if TouchesNoQueue(b) then Some(b) else None
    case Push0 => if Pushed(s.q0, r.rx) then Some(RxPush) else None
    case Pop0 => if Taken(s.q0, r.input.Empty?).Some? then Some(InPop) else None
    case Push1 => if Pushed(s.q1, MadeBy(r.input)) then Some(InPush) else None
    case Pop1 => if Taken(s.q1, r.memtable.Empty?).Some? then Some(MtPop) else None
    case Push2 => if Pushed(s.q2, MadeBy(r.memtable)) then Some(MtPush) else None
    case Pop2 => if Taken(s.q2, r.output.Empty?).Some? then Some(OutPop) else None
    case Push3 => if Pushed(s.q3, MadeBy(r.output)) then Some(OutPush) else None
    case Pop3 => if Taken(s.q3, r.tx.None?).Some? then Some(TxPop) else None
  }

  ghost predicate Refines(s: State, a: Action, k: nat)
    requires Shape(s.rest.store) && AllOrdered(s)
  {
    var s' := Step(s, a);
    Inv(s', k) &&
    Abs(s') == match AbsStep(s, a) { case None => Abs(s) case Some(b) => Pipeline.Step(Abs(s), b, Pow2(k)) }
  }

  lemma LocalRefines(s: State, b: Pipeline.Action, k: nat)
    requires Inv(s, k) && TouchesNoQueue(b)
    ensures Refines(s, Local(b), k)
  {
    hide LinkInv, Contents, Ordered, Pow2, Received, Decoded, Results, Rendered, StoreThen, Shape;
    LocalKeepsLinks(s, b, k);
  }

  lemma LocalKeepsLinks(s: State, b: Pipeline.Action, k: nat)
    requires Inv(s, k) && TouchesNoQueue(b)
    ensures Inv(Step(s, Local(b)), k)
  {
    hide QueueInv, Ordered, Pow2, Received, Decoded, Results, Rendered, StoreThen;
    var r, r' := s.rest, Pipeline.Step(s.rest, b, 0);
    if r.rx.None? { LinkOffer(s.q0, r'.rx, r.input.Empty?, k); }
    if !r.input.Made? { LinkOffer(s.q1, MadeBy(r'.input), r.memtable.Empty?, k); }
    if !r.memtable.Made? { LinkOffer(s.q2, MadeBy(r'.memtable), r.output.Empty?, k); }
    if !r.output.Made? { LinkOffer(s.q3, MadeBy(r'.output), r.tx.None?, k); }
  }

  lemma Queue0Refines(s: State, a: Action, k: nat)
    requires Inv(s, k) && (a.Push0? || a.Pop0?)
    ensures Refines(s, a, k)
  {
    hide LinkInv, Contents, Ordered, Pow2, PushOn, PopFrom, Shape;
    var r := s.rest;
    if a.Push0? {
      LinkPush(s.q0, r.rx, r.input.Empty?, k);
    } else {
      LinkPop(s.q0, r.rx, r.input.Empty?, k);
    }
  }

  lemma Queue1Refines(s: State, a: Action, k: nat)
    requires Inv(s, k) && (a.Push1? || a.Pop1?)
    ensures Refines(s, a, k)
  {
    hide LinkInv, Contents, Ordered, Pow2, PushOn, PopFrom, Shape;
    var r := s.rest;
    if a.Push1? {
      LinkIdle(s.q0, r.rx, r.input.Empty?, k);
      LinkPush(s.q1, MadeBy(r.input), r.memtable.Empty?, k);
    } else {
      LinkPop(s.q1, MadeBy(r.input), r.memtable.Empty?, k);
    }
  }

  lemma Queue2Refines(s: State, a: Action, k: nat)
    requires Inv(s, k) && (a.Push2? || a.Pop2?)
    ensures Refines(s, a, k)
  {
    hide LinkInv, Contents, Ordered, Pow2, PushOn, PopFrom, Shape;
    var r := s.rest;
    if a.Push2? {
      LinkIdle(s.q1, MadeBy(r.input), r.memtable.Empty?, k);
      LinkPush(s.q2, MadeBy(r.memtable), r.output.Empty?, k);
    } else {
      LinkPop(s.q2, MadeBy(r.memtable), r.output.Empty?, k);
    }
  }

  lemma Queue3Refines(s: State, a: Action, k: nat)
    requires Inv(s, k) && (a.Push3? || a.Pop3?)
    ensures Refines(s, a, k)
  {
    hide LinkInv, Contents, Ordered, Pow2, PushOn, PopFrom, Shape;
    var r := s.rest;
    if a.Push3? {
      LinkIdle(s.q2, MadeBy(r.memtable), r.output.Empty?, k);
      LinkPush(s.q3, MadeBy(r.output), r.tx.None?, k);
    } else {
      LinkPop(s.q3, MadeBy(r.output), r.tx.None?, k);
    }
  }

  /** Every step is a step of Pipeline or leaves the state it stands for. */
  lemma StepRefines(s: State, a: Action, k: nat)
    requires Inv(s, k)
    ensures Refines(s, a, k)
  {
    hide Refines, Pow2, LinkInv, Ordered;
    match a
    case Local(b) =>
      if TouchesNoQueue(b) { LocalRefines(s, b, k); } else { NothingRefines(s, b, k); }
    case Push0 => Queue0Refines(s, a, k);
    case Pop0 => Queue0Refines(s, a, k);
    case Push1 => Queue1Refines(s, a, k);
    case Pop1 => Queue1Refines(s, a, k);
    case Push2 => Queue2Refines(s, a, k);
    case Pop2 => Queue2Refines(s, a, k);
    case Push3 => Queue3Refines(s, a, k);
    case Pop3 => Queue3Refines(s, a, k);
  }

  lemma NothingRefines(s: State, b: Pipeline.Action, k: nat)
    requires Inv(s, k) && !TouchesNoQueue(b)
    ensures Refines(s, Local(b), k)
  {
    hide LinkInv, Contents, Ordered, Pow2;
  }

  /** The steps of Pipeline in a run. */
  function AbsRun(max: nat, bits: nat, k: nat, acts: seq<Action>): seq<Pipeline.Action> {
    if acts == [] then []
    else
      var before := acts[..|acts| - 1];
      AbsRun(max, bits, k, before) +
      match AbsStep(Run(max, bits, k, before), acts[|acts| - 1]) { case None => [] case Some(b) => [b] }
  }

  lemma StartRefines(max: nat, bits: nat, k: nat)
    requires Spsc.Geometry(bits, k)
    ensures Inv(Start(max, bits, k), k) && Abs(Start(max, bits, k)) == Pipeline.Start(max)
  {
    hide QueueInv, Contents, Ordered, Pow2;
    NewQueue<Ctx<Option<NetCommand>>>(bits, k, None);
    NewQueue<Ctx<Cmd>>(bits, k, None);
    NewQueue<Ctx<CmdResult>>(bits, k, None);
    NewQueue<Ctx<string>>(bits, k, None);
  }

  lemma PipelineOneMore(max: nat, acts: seq<Pipeline.Action>, b: Pipeline.Action, cap: nat)
    ensures Pipeline.Run(max, acts + [b], cap) == Pipeline.Step(Pipeline.Run(max, acts, cap), b, cap)
  {
    hide Pipeline.Step;
    assert (acts + [b])[..|acts|] == acts;
  }

  /** Refinement: every run over the slot protocol stands for a run over bounded sequences. */
  lemma {:induction false} RunRefines(max: nat, bits: nat, k: nat, acts: seq<Action>)
    requires Spsc.Geometry(bits, k)
    ensures var s := Run(max, bits, k, acts);
      Inv(s, k) && Abs(s) == Pipeline.Run(max, AbsRun(max, bits, k, acts), Pow2(k))
  {
    if acts == [] {
      StartRefines(max, bits, k);
    } else {
      var before, a := acts[..|acts| - 1], acts[|acts| - 1];
      RunRefines(max, bits, k, before);
      var s := Run(max, bits, k, before);
      StepRefines(s, a, k);
      hide Inv, Pow2, Step, AbsStep, Pipeline.Step, Pipeline.Run, Shape;
      match AbsStep(s, a)
      case None => assert AbsRun(max, bits, k, before) + [] == AbsRun(max, bits, k, before);
      case Some(b) => PipelineOneMore(max, AbsRun(max, bits, k, before), b, Pow2(k));
    }
  }

  /** The replies sent are the first of those the store would give to the requests one by one in the order
      of arrival, whatever the interleaving of the loads and stores of the queues. */
  lemma QueuedRepliesInOrder(max: nat, bits: nat, k: nat, acts: seq<Action>)
    requires Spsc.Geometry(bits, k)
    ensures var r := Run(max, bits, k, acts).rest; r.sent <= Replies(max, Commands(r.arrived))
  {
    RunRefines(max, bits, k, acts);
    RepliesInOrder(max, AbsRun(max, bits, k, acts), Pow2(k));
  }

  /** With well-formed requests reply n answers request n, over the slot protocol too. */
  lemma QueuedEndToEnd(max: nat, bits: nat, k: nat, acts: seq<Action>, n: nat)
    requires Spsc.Geometry(bits, k)
    requires var r := Run(max, bits, k, acts).rest; n < |r.sent| && AllWellFormed(r.arrived)
    ensures var r := Run(max, bits, k, acts).rest; n < |r.arrived| && IsAnswered(max, r.arrived, r.sent, n)
    ensures var r := Run(max, bits, k, acts).rest;
      var cmds := Commands(r.arrived);
      n < |r.arrived| == |cmds| && cmds[n] == TheCommand(r.arrived[n]) &&
      (r.arrived[n].body.value.kind == 0 ==> r.sent[n].payload == Expected(max, cmds, n))
  {
    hide Commands, Expected, IsAnswered;
    RunRefines(max, bits, k, acts);
    EndToEnd(max, AbsRun(max, bits, k, acts), Pow2(k), n);
  }

  /** Whatever arrives, reply n answers the n-th request among it. */
  lemma QueuedEndToEndAmongOthers(max: nat, bits: nat, k: nat, acts: seq<Action>, n: nat)
    requires Spsc.Geometry(bits, k) && n < |Run(max, bits, k, acts).rest.sent|
    ensures var r := Run(max, bits, k, acts).rest;
      AllWellFormed(Requests(r.arrived)) && n < |Requests(r.arrived)| && IsAnswered(max, Requests(r.arrived), r.sent, n)
  {
    hide Commands, IsAnswered, Requests;
    RunRefines(max, bits, k, acts);
    EndToEndAmongOthers(max, AbsRun(max, bits, k, acts), Pow2(k), n);
  }

  // ---------------------------------------------------------------- every request is answered

  /** The loads and stores that a push and a pop have still to make. */
  function SlotSteps<T>(q: Spsc.State<T>): nat {
    (match q.p
     case ReadyP => 6
     case LoadHead(_, _) => 5
     case CheckTail(_, _) => 5
     case StoreHead(_, _) => 4
     case AwaitEmpty(_, _) => 3
     case Write(_, _) => 2
     case Publish(_) => 1)
    + match q.c
      case ReadyC => 6
      case LoadTail(_) => 5
      case CheckHead(_) => 5
      case StoreTail(_) => 4
      case AwaitStored(_) => 3
      case Read(_) => 2
      case Release(_, _) => 1
  }

  /** A push into a queue with room does not wait... */
  lemma PushGoesOn<T>(q: Spsc.State<T>, item: Option<T>, idle: bool, k: nat)
    requires LinkInv(q, item, idle, k) && item.Some? && |Contents(q)| < Pow2(k) && !Pushed(q, item)
    ensures SlotSteps(PushOn(q, item)) < SlotSteps(q)
  {
    hide Spsc.Window, Spsc.History, Pow2, Spsc.Increment;
    if q.p.AwaitEmpty? {
      Spsc.AwaitedRoom(q);
    } else if q.p.Write? {
      Spsc.Inside(q, |q.accepted| - 1);
    }
  }

  /** ...nor does a pop from a queue with an element. */
  lemma PopGoesOn<T>(q: Spsc.State<T>, item: Option<T>, idle: bool, k: nat)
    requires LinkInv(q, item, idle, k) && idle && Contents(q) != [] && Taken(q, idle).None?
    ensures SlotSteps(PopFrom(q, idle)) < SlotSteps(q)
  {
    hide Spsc.Window, Spsc.History, Pow2, Spsc.Increment;
    if q.c.AwaitStored? {
      Spsc.AwaitedElement(q);
    } else if q.c.Read? {
      Spsc.Inside(q, |q.popped|);
    }
  }

  function AllSlotSteps(s: State): nat {
    SlotSteps(s.q0) + SlotSteps(s.q1) + SlotSteps(s.q2) + SlotSteps(s.q3)
  }

  /** The load or store to make for a step of Pipeline. */
  function Towards(a: Pipeline.Action): Action {
    match a
    case RxPush => Push0
    case InPop => Pop0
    case InPush => Push1
    case MtPop => Pop1
    case MtPush => Push2
    case OutPop => Pop2
    case OutPush => Push3
    case TxPop => Pop3
    case _ => Local(a)
  }

  /** It is that step of Pipeline, or brings the queue nearer to it. */
  ghost predicate GoesOn(s: State, a: Pipeline.Action) {
    AbsStep(s, Towards(a)) == Some(a)
    || (AbsStep(s, Towards(a)) == None && Shape(s.rest.store) && AllSlotSteps(Step(s, Towards(a))) < AllSlotSteps(s))
  }

  lemma PushesGoOn(s: State, a: Pipeline.Action, k: nat)
    requires Inv(s, k) && Enabled(Abs(s), a, Pow2(k)) && (a.RxPush? || a.InPush? || a.MtPush? || a.OutPush?)
    ensures GoesOn(s, a)
  {
    hide LinkInv, Contents, Ordered, Pow2, PushOn, SlotSteps, Shape;
    var r := s.rest;
    if AbsStep(s, Towards(a)) == None {
      match a
      case RxPush => PushGoesOn(s.q0, r.rx, r.input.Empty?, k);
      case InPush => PushGoesOn(s.q1, MadeBy(r.input), r.memtable.Empty?, k);
      case MtPush => PushGoesOn(s.q2, MadeBy(r.memtable), r.output.Empty?, k);
      case OutPush => PushGoesOn(s.q3, MadeBy(r.output), r.tx.None?, k);
    }
  }

  lemma PopsGoOn(s: State, a: Pipeline.Action, k: nat)
    requires Inv(s, k) && Enabled(Abs(s), a, Pow2(k)) && (a.InPop? || a.MtPop? || a.OutPop? || a.TxPop?)
    ensures GoesOn(s, a)
  {
    hide LinkInv, Contents, Ordered, Pow2, PopFrom, SlotSteps, Shape;
    var r := s.rest;
    if AbsStep(s, Towards(a)) == None {
      match a
      case InPop => PopGoesOn(s.q0, r.rx, r.input.Empty?, k);
      case MtPop => PopGoesOn(s.q1, MadeBy(r.input), r.memtable.Empty?, k);
      case OutPop => PopGoesOn(s.q2, MadeBy(r.memtable), r.output.Empty?, k);
      case TxPop => PopGoesOn(s.q3, MadeBy(r.output), r.tx.None?, k);
    }
  }

  lemma StageGoesOn(s: State, a: Pipeline.Action, k: nat)
    requires Inv(s, k) && Enabled(Abs(s), a, Pow2(k)) && !a.Receive?
    ensures GoesOn(s, a)
  {
    hide Inv, Pow2, Enabled;
    if a.RxPush? || a.InPush? || a.MtPush? || a.OutPush? {
      PushesGoOn(s, a, k);
    } else if a.InPop? || a.MtPop? || a.OutPop? || a.TxPop? {
      PopsGoOn(s, a, k);
    }
  }

  lemma QueuedRunOneMore(max: nat, bits: nat, k: nat, acts: seq<Action>, a: Action)
    ensures Run(max, bits, k, acts + [a]) == Step(Run(max, bits, k, acts), a)
  {
    hide Step;
    assert (acts + [a])[..|acts|] == acts;
  }

  /** One load, store or step nearer to all answers. */
  lemma OneStepOn(s: State, k: nat) returns (a: Action)
    requires Inv(s, k) && !NothingOnItsWay(Abs(s))
    ensures Inv(Step(s, a), k) && Step(s, a).rest.arrived == s.rest.arrived
    ensures StepsLeft(Abs(Step(s, a))) < StepsLeft(Abs(s))
         || (StepsLeft(Abs(Step(s, a))) == StepsLeft(Abs(s)) && AllSlotSteps(Step(s, a)) < AllSlotSteps(s))
  {
    hide Step, Pipeline.Step, StepsLeft, AllSlotSteps, Enabled, NothingOnItsWay, LinkInv, Pow2, AbsStep;
    var b := SomeStageGoesOn(Abs(s), Pow2(k));
    a := Towards(b);
    StageGoesOn(s, b, k);
    StepRefines(s, a, k);
    if AbsStep(s, a) == Some(b) {
      StageStepAdvances(Abs(s), b, Pow2(k));
      NothingArrives(Abs(s), b, Pow2(k));
    }
  }

  /** Over the slot protocol too the stages answer everything that has arrived, load by load and store by
      store, from any state of any run. */
  lemma QueuedStagesAnswerAll(max: nat, bits: nat, k: nat, acts: seq<Action>) returns (more: seq<Action>)
    requires Spsc.Geometry(bits, k)
    ensures var r, r' := Run(max, bits, k, acts).rest, Run(max, bits, k, acts + more).rest;
      r'.arrived == r.arrived && r'.sent == Replies(max, Commands(r.arrived))
  {
    RunRefines(max, bits, k, acts);
    more := AnswersFrom(max, bits, k, acts);
  }

  lemma {:induction false} AnswersFrom(max: nat, bits: nat, k: nat, acts: seq<Action>) returns (more: seq<Action>)
    requires Spsc.Geometry(bits, k) && Inv(Run(max, bits, k, acts), k)
    ensures var r, r' := Run(max, bits, k, acts).rest, Run(max, bits, k, acts + more).rest;
      r'.arrived == r.arrived && r'.sent == Replies(max, Commands(r.arrived))
    decreases StepsLeft(Abs(Run(max, bits, k, acts))), AllSlotSteps(Run(max, bits, k, acts))
  {
    hide Run, Step, Replies, Commands, StepsLeft, NothingOnItsWay, AllSlotSteps, LinkInv, Pow2;
    var s := Run(max, bits, k, acts);
    if NothingOnItsWay(Abs(s)) {
      more := [];
      assert acts + [] == acts;
      RunRefines(max, bits, k, acts);
      QuiescentPipelineHasAnsweredAll(max, AbsRun(max, bits, k, acts), Pow2(k));
    } else {
      var a := OneStepOn(s, k);
      QueuedRunOneMore(max, bits, k, acts, a);
      var rest := AnswersFrom(max, bits, k, acts + [a]);
      more := [a] + rest;
      assert acts + more == acts + [a] + rest;
    }
  }
}
