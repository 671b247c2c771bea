/** The slot protocol of SpscQueue as a bounded sequence: each of its steps leaves the elements in the
    queue, except the store that publishes an element, which appends it, and the store that releases
    a slot, which takes the oldest.  This is `push` and `pop`, the calls the stages make. */
module QueueContents {
  import opened Bits
  import opened SpscQueue
  import opened Wrappers

  /** Published and not yet released. */
  function Contents<T>(s: State<T>): seq<T>
    requires Ordered(s)
  {
    s.accepted[|s.popped|..Published(s)]
  }

  predicate Ordered<T>(s: State<T>) {
    |s.popped| <= Published(s) <= |s.accepted|
  }

  /** What the producer is pushing: the value `push` was called with, until it returns. */
  ghost predicate Offers<T>(s: State<T>, item: Option<T>) {
    match s.p
    case ReadyP => true
    case LoadHead(v, trying) => !trying && item == Some(v)
    case CheckTail(_, _) => false
    case StoreHead(v, _) => item == Some(v)
    case AwaitEmpty(v, _) => item == Some(v)
    case Write(v, _) => item == Some(v)
    case Publish(_) => |s.accepted| > 0 && item == Some(s.accepted[|s.accepted| - 1])
  }

  /** The consumer is in no `try_pop`. */
  predicate Pops<T>(s: State<T>) {
    !s.c.CheckHead? && (s.c.LoadTail? ==> !s.c.trying)
  }

  /** A queue between two stages: its producer is pushing `item`. */
  ghost predicate QueueInv<T>(s: State<T>, item: Option<T>) {
    Inv(s) && Ordered(s) && Offers(s, item) && Pops(s) && |Contents(s)| <= Pow2(s.k)
  }

  lemma InvOrdered<T>(s: State<T>)
    requires Inv(s)
    ensures Ordered(s) && |Contents(s)| <= Pow2(s.k)
  {
    hide Window, History, ProducerOk, ConsumerOk, Pow2;
  }

  lemma PublishAppends<T>(s: State<T>, v: T)
    requires QueueInv(s, Some(v)) && s.p.Publish?
    ensures var s' := Step(s, Produce(v, false));
      && s'.p.ReadyP? && s'.c == s.c && Ordered(s') && Contents(s') == Contents(s) + [v] && |Contents(s)| < Pow2(s.k)
  {
    Inside(s, Published(s));
    hide Window, History, Pow2, Slots;
    var s' := Step(s, Produce(v, false));
    assert s'.accepted[|s.popped|..] == s.accepted[|s.popped|..|s.accepted| - 1] + [s.accepted[|s.accepted| - 1]];
  }

  lemma PushingKeepsContents<T>(s: State<T>, v: T)
    requires QueueInv(s, Some(v)) && !s.p.Publish?
    ensures var s' := Step(s, Produce(v, false));
      && s'.c == s.c && Ordered(s') && Contents(s') == Contents(s) && Offers(s', Some(v))
  {
    hide Window, History, ConsumerOk, Pow2, Signed, Increment;
    var s' := Step(s, Produce(v, false));
    if s.p.StoreHead? {
      assert s'.accepted[|s.popped|..|s.accepted|] == s.accepted[|s.popped|..|s.accepted|];
    }
  }

  /** A step of `push(v)`. */
  lemma PushStep<T>(s: State<T>, v: T)
    requires QueueInv(s, Some(v))
    ensures var s' := Step(s, Produce(v, false));
      && Ordered(s') && s'.k == s.k
      && QueueInv(s', if s.p.Publish? then None else Some(v))
      && Contents(s') == (if s.p.Publish? then Contents(s) + [v] else Contents(s))
      && (s.p.Publish? ==> |Contents(s)| < Pow2(s.k))
      && (s'.c == s.c && (s.p.Publish? ==> s'.p.ReadyP?))
  {
    hide Inv, Step, Pow2, Contents, Ordered, Published;
    StepKeepsInv(s, Produce(v, false));
    InvOrdered(Step(s, Produce(v, false)));
    if s.p.Publish? {
      PublishAppends(s, v);
    } else {
      PushingKeepsContents(s, v);
    }
  }

  lemma ReleaseTakes<T>(s: State<T>, item: Option<T>)
    requires QueueInv(s, item) && s.c.Release?
    ensures var s' := Step(s, Consume(false));
      && Contents(s) != [] && s.c.v == Some(Contents(s)[0])
      && s'.c.ReadyC? && Ordered(s') && Contents(s') == Contents(s)[1..] && Offers(s', item)
  {
    Inside(s, |s.popped|);
    hide Window, History, Pow2, Slots;
  }

  lemma PoppingKeepsContents<T>(s: State<T>, item: Option<T>)
    requires QueueInv(s, item) && !s.c.Release?
    ensures var s' := Step(s, Consume(false));
      && Ordered(s') && Contents(s') == Contents(s) && Offers(s', item) && Pops(s')
  {
    hide Inv, Pow2, Signed, Increment;
  }

  /** A step of `pop()`. */
  lemma PopStep<T>(s: State<T>, item: Option<T>)
    requires QueueInv(s, item)
    ensures var s' := Step(s, Consume(false));
      && Ordered(s') && s'.k == s.k && QueueInv(s', item)
      && Contents(s') == (if s.c.Release? then Contents(s)[1..] else Contents(s))
    ensures s.c.Release? ==>
      Contents(s) != [] && s.c.v == Some(Contents(s)[0]) && Step(s, Consume(false)).c.ReadyC?
  {
    hide Inv, Pow2, Contents, Ordered, Published, Offers, Signed, Increment;
    StepKeepsInv(s, Consume(false));
    InvOrdered(Step(s, Consume(false)));
    if s.c.Release? {
      ReleaseTakes(s, item);
    } else {
      PoppingKeepsContents(s, item);
    }
    hide Step;
  }

  lemma NewQueue<T>(bits: nat, k: nat, item: Option<T>)
    requires Geometry(bits, k)
    ensures var s := Init<T>(bits, k); s.k == k && QueueInv(s, item) && Ordered(s) && Contents(s) == []
  {
    var s := Init<T>(bits, k);
    RunKeepsInv<T>(bits, k, []);
    hide Inv, Pow2;
    assert Run<T>(bits, k, []) == s;
  }
}
