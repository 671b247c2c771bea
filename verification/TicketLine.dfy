/** Tickets drawn in order whose holders then compete for slots that are used in turn: the push side or
    the pop side of src/util/atomic_queue/atomic_queue.h with several threads (224-234, 249-260, 312, 325).
    Ticket i belongs to lane i modulo the number of slots, one lane for each slot. */
module TicketLine {
  import opened Bits

  type Tid = nat

  /** A ticket that won its slot, and whether it was its turn. */
  datatype Win = Win(ticket: nat, inTurn: bool)

  /** `issued` tickets were drawn; `waiting` has the threads that have not won their slot yet; `won` lists the
      tickets that won, lane by lane, in order.  `timely`: no ticket was drawn before the previous one of
      its lane had won. */
  datatype Line = Line(size: nat, issued: nat, waiting: map<Tid, nat>, won: map<nat, seq<Win>>, timely: bool)

  function NewLine(size: nat): Line {
    Line(size, 0, map[], map[], true)
  }

  function Won(l: Line, lane: nat): seq<Win> {
    if lane in l.won then l.won[lane] else []
  }

  function Lane(l: Line, ticket: nat): nat
    requires l.size > 0
  {
    ticket % l.size
  }

  predicate Has(wins: seq<Win>, ticket: nat) {
    exists j :: 0 <= j < |wins| && wins[j].ticket == ticket
  }

  predicate HasWon(l: Line, ticket: nat)
    requires l.size > 0
  {
    Has(Won(l, Lane(l, ticket)), ticket)
  }

  /** The ticket before this one in its lane has won. */
  predicate PreviousWon(l: Line, ticket: nat)
    requires l.size > 0
  {
    ticket >= l.size ==> HasWon(l, ticket - l.size)
  }

  /** The next ticket would wait behind none in its lane. */
  predicate MayDraw(l: Line)
    requires l.size > 0
  {
    PreviousWon(l, l.issued)
  }

  function Drawn(l: Line, t: Tid): (l': Line)
    requires l.size > 0
    ensures l'.size == l.size
  {
    l.(issued := l.issued + 1, waiting := l.waiting[t := l.issued], timely := l.timely && MayDraw(l))
  }

  /** No other thread waits in the same lane with an earlier ticket. */
  predicate InTurn(l: Line, t: Tid)
    requires l.size > 0 && t in l.waiting
  {
    forall u <- l.waiting :: u != t && Lane(l, l.waiting[u]) == Lane(l, l.waiting[t]) ==> l.waiting[t] <= l.waiting[u]
  }

  function Winning(l: Line, t: Tid): (l': Line)
    requires l.size > 0 && t in l.waiting
    ensures l'.size == l.size
  {
    var i := l.waiting[t];
    l.(waiting := l.waiting - {t}, won := l.won[Lane(l, i) := Won(l, Lane(l, i)) + [Win(i, InTurn(l, t))]])
  }

  // ---------------------------------------------------------------- the invariant

  /** The first n wins of the lane were in turn. */
  predicate InTurnUpTo(l: Line, lane: nat, n: nat)
    requires n <= |Won(l, lane)|
  {
    forall j :: 0 <= j < n ==> Won(l, lane)[j].inTurn
  }

  /** The first n wins of the lane are its first n tickets, in order. */
  predicate OrderedUpTo(l: Line, lane: nat, n: nat)
    requires l.size > 0 && n <= |Won(l, lane)|
  {
    forall j :: 0 <= j < n ==> Won(l, lane)[j].ticket / l.size == j
  }

  ghost predicate Tickets(l: Line)
    requires l.size > 0
  {
    && (forall t <- l.waiting :: l.waiting[t] < l.issued && !HasWon(l, l.waiting[t]))
    && (forall t <- l.waiting, u <- l.waiting :: l.waiting[t] == l.waiting[u] ==> t == u)
    && (forall i: nat :: i < l.issued ==> HasWon(l, i) || i in l.waiting.Values)
    && (forall lane: nat, j :: 0 <= j < |Won(l, lane)| ==>
          Won(l, lane)[j].ticket < l.issued && Lane(l, Won(l, lane)[j].ticket) == lane)
  }

  ghost predicate Inv(l: Line) {
    && l.size > 0 && Tickets(l)
    && (forall lane: nat, n: nat :: n <= |Won(l, lane)| ==> (InTurnUpTo(l, lane, n) <==> OrderedUpTo(l, lane, n)))
    && (l.timely ==> forall i: nat :: i < l.issued ==> PreviousWon(l, i))
    && (l.timely ==> forall lane: nat :: InTurnUpTo(l, lane, |Won(l, lane)|))
  }

  /** Every win so far was in turn. */
  ghost predicate AllInTurn(l: Line) {
    forall lane: nat :: InTurnUpTo(l, lane, |Won(l, lane)|)
  }

  lemma NewLineOk(size: nat)
    requires size > 0
    ensures Inv(NewLine(size)) && AllInTurn(NewLine(size))
  {
  }

  lemma SameTicket(i: nat, j: nat, size: nat)
    requires size > 0 && i / size == j / size && i % size == j % size
    ensures i == j
  {
    DivMod(i, size);
    DivMod(j, size);
  }

  lemma DrawnIsNoWin(l: Line, t: Tid)
    requires l.size > 0
    ensures forall lane: nat :: Won(Drawn(l, t), lane) == Won(l, lane)
    ensures forall i: nat :: HasWon(Drawn(l, t), i) == HasWon(l, i)
  {
    hide Has, MayDraw;
  }

  /** Every ticket drawn has won or waits. */
  lemma DrawnIsAccounted(l: Line, t: Tid, i: nat)
    requires l.size > 0 && Tickets(l) && t !in l.waiting && i <= l.issued
    ensures HasWon(Drawn(l, t), i) || i in Drawn(l, t).waiting.Values
  {
    hide HasWon, Won, MayDraw;
    var l' := Drawn(l, t);
    DrawnIsNoWin(l, t);
    assert l'.waiting[t] == l.issued;
    if i < l.issued && !HasWon(l, i) {
      var u :| u in l.waiting && l.waiting[u] == i;
      assert l'.waiting[u] == i;
    }
  }

  lemma DrawnKeepsTickets(l: Line, t: Tid)
    requires l.size > 0 && Tickets(l) && t !in l.waiting
    ensures Tickets(Drawn(l, t))
  {
    hide HasWon, Won, MayDraw;
    DrawnIsNoWin(l, t);
    FreshTicket(l);
    forall i: nat | i < l.issued + 1 ensures HasWon(Drawn(l, t), i) || i in Drawn(l, t).waiting.Values {
      DrawnIsAccounted(l, t, i);
    }
  }

  lemma FreshTicket(l: Line)
    requires l.size > 0 && Tickets(l)
    ensures !HasWon(l, l.issued)
  {
    hide Won;
  }

  lemma DrawnKeepsInv(l: Line, t: Tid)
    requires Inv(l) && t !in l.waiting
    ensures Inv(Drawn(l, t))
  {
    hide HasWon, Tickets, Won;
    var l' := Drawn(l, t);
    DrawnKeepsTickets(l, t);
    DrawnIsNoWin(l, t);
    forall lane: nat, n: nat | n <= |Won(l', lane)| ensures InTurnUpTo(l', lane, n) <==> OrderedUpTo(l', lane, n) {
      assert InTurnUpTo(l, lane, n) <==> OrderedUpTo(l, lane, n);
    }
    forall lane: nat | l'.timely ensures InTurnUpTo(l', lane, |Won(l', lane)|) {
      assert InTurnUpTo(l, lane, |Won(l, lane)|);
    }
    forall i: nat | l'.timely && i < l'.issued ensures PreviousWon(l', i) {
      if i < l.issued {
        assert PreviousWon(l, i);
      }
    }
  }

  lemma HasOneMore(wins: seq<Win>, w: Win, ticket: nat)
    ensures Has(wins + [w], ticket) <==> Has(wins, ticket) || ticket == w.ticket
  {
    var more := wins + [w];
    assert more[|wins|] == w;
    if Has(wins, ticket) {
      var j :| 0 <= j < |wins| && wins[j].ticket == ticket;
      assert more[j].ticket == ticket;
    }
  }

  lemma WonOneMore(l: Line, t: Tid)
    requires l.size > 0 && t in l.waiting
    ensures var l', lane := Winning(l, t), Lane(l, l.waiting[t]);
      && Won(l', lane) == Won(l, lane) + [Win(l.waiting[t], InTurn(l, t))]
      && (forall other: nat :: other != lane ==> Won(l', other) == Won(l, other))
      && (forall i: nat :: HasWon(l', i) <==> HasWon(l, i) || i == l.waiting[t])
  {
    hide InTurn, Has;
    var l', lane, i := Winning(l, t), Lane(l, l.waiting[t]), l.waiting[t];
    forall k: nat ensures HasWon(l', k) <==> HasWon(l, k) || k == i {
      HasOneMore(Won(l, lane), Win(i, InTurn(l, t)), k);
    }
  }

  lemma WinningKeepsTickets(l: Line, t: Tid)
    requires l.size > 0 && Tickets(l) && t in l.waiting
    ensures Tickets(Winning(l, t))
  {
    hide HasWon, Won, InTurn;
    WonOneMore(l, t);
    var l' := Winning(l, t);
    forall i: nat | i < l'.issued ensures HasWon(l', i) || i in l'.waiting.Values {
      if !HasWon(l, i) && i != l.waiting[t] {
        var u :| u in l.waiting && l.waiting[u] == i;
        assert l'.waiting[u] == i;
      }
    }
  }

  /** A waiting ticket is none of those that won. */
  lemma NotBefore(l: Line, i: nat)
    requires l.size > 0 && !HasWon(l, i) && Tickets(l) && OrderedUpTo(l, Lane(l, i), |Won(l, Lane(l, i))|)
    ensures i / l.size >= |Won(l, Lane(l, i))|
  {
    var wins := Won(l, Lane(l, i));
    if i / l.size < |wins| {
      SameTicket(wins[i / l.size].ticket, i, l.size);
    }
  }

  /** After the first wins of a lane in order, a win is in turn exactly if it is of the next ticket. */
  lemma NextInOrder(l: Line, t: Tid)
    requires l.size > 0 && Tickets(l) && t in l.waiting
    requires var lane := Lane(l, l.waiting[t]); OrderedUpTo(l, lane, |Won(l, lane)|)
    ensures InTurn(l, t) <==> l.waiting[t] / l.size == |Won(l, Lane(l, l.waiting[t]))|
  {
    hide HasWon, OrderedUpTo, Won;
    var i := l.waiting[t];
    NotBefore(l, i);
    if i / l.size > |Won(l, Lane(l, i))| {
      EarlierWaits(l, t);
    } else {
      forall u | u in l.waiting && u != t && Lane(l, l.waiting[u]) == Lane(l, i) ensures i <= l.waiting[u] {
        if l.waiting[u] < i {
          EarlierHasWon(l, i, l.waiting[u]);
        }
      }
    }
  }

  lemma EarlierHasWon(l: Line, i: nat, w: nat)
    requires l.size > 0 && Tickets(l) && w < i && Lane(l, w) == Lane(l, i)
    requires OrderedUpTo(l, Lane(l, i), |Won(l, Lane(l, i))|) && i / l.size == |Won(l, Lane(l, i))|
    ensures HasWon(l, w)
  {
    DivMod(i, l.size);
    DivMod(w, l.size);
    var a, b := w / l.size, i / l.size;
    if a >= b {
      MulMonotone(b, a, l.size);
    }
    SameTicket(Won(l, Lane(l, w))[a].ticket, w, l.size);
  }

  /** The ticket of the lane's next round. */
  lemma NextRound(i: nat, n: nat, size: nat)
    requires size > 0 && n < i / size
    ensures var w := n * size + i % size; w < i && w % size == i % size && w / size == n
  {
    var lane, q := i % size, i / size;
    DivMod(i, size);
    Quotient(n * size + lane, n, lane, size);
    MulMonotone(n + 1, q, size);
    assert (n + 1) * size == n * size + size;
  }

  lemma EarlierWaits(l: Line, t: Tid)
    requires l.size > 0 && Tickets(l) && t in l.waiting
    requires var lane := Lane(l, l.waiting[t]);
      OrderedUpTo(l, lane, |Won(l, lane)|) && l.waiting[t] / l.size > |Won(l, lane)|
    ensures !InTurn(l, t)
  {
    var i := l.waiting[t];
    var n := |Won(l, Lane(l, i))|;
    var w := n * l.size + Lane(l, i);
    NextRound(i, n, l.size);
    RoundNotWon(l, w);
    var u :| u in l.waiting && l.waiting[u] == w;
    assert u != t && Lane(l, l.waiting[u]) == Lane(l, i) && l.waiting[u] < i;
  }

  lemma RoundNotWon(l: Line, w: nat)
    requires l.size > 0 && OrderedUpTo(l, Lane(l, w), |Won(l, Lane(l, w))|) && w / l.size == |Won(l, Lane(l, w))|
    ensures !HasWon(l, w)
  {
    hide Won;
  }

  /** If no ticket was drawn early, nobody waits behind another in a lane. */
  lemma {:induction false} TimelyHasWon(l: Line, i: nat, w: nat)
    requires l.size > 0 && i < l.issued && w < i && Lane(l, w) == Lane(l, i)
    requires forall k: nat :: k < l.issued ==> PreviousWon(l, k)
    ensures HasWon(l, w)
    decreases i - w
  {
    hide HasWon;
    var next := w + l.size;
    Quotient(next, w / l.size + 1, w % l.size, l.size);
    if next > i {
      Between(w, i, l.size);
    }
    assert PreviousWon(l, next);
  }

  lemma Between(w: nat, i: nat, size: nat)
    requires size > 0 && w < i < w + size
    ensures w % size != i % size
  {
    if w % size == i % size {
      DivMod(w, size);
      DivMod(i, size);
      var d := i / size - w / size;
      assert d * size == i - w;
      if d >= 1 {
        AtLeast(d, size);
      } else {
        MulMonotone(d, 0, size);
      }
    }
  }

  lemma TimelyIsInTurn(l: Line, t: Tid)
    requires Inv(l) && l.timely && t in l.waiting
    ensures InTurn(l, t)
  {
    hide HasWon, InTurnUpTo, OrderedUpTo, Won;
    forall u | u in l.waiting && u != t && Lane(l, l.waiting[u]) == Lane(l, l.waiting[t])
      ensures l.waiting[t] <= l.waiting[u]
    {
      if l.waiting[u] < l.waiting[t] {
        TimelyHasWon(l, l.waiting[t], l.waiting[u]);
      }
    }
  }

  lemma WinningKeepsOrder(l: Line, t: Tid, lane: nat, n: nat)
    requires Inv(l) && t in l.waiting && n <= |Won(Winning(l, t), lane)|
    ensures InTurnUpTo(Winning(l, t), lane, n) <==> OrderedUpTo(Winning(l, t), lane, n)
  {
    var l' := Winning(l, t);
    WonOneMore(l, t);
    hide HasWon, InTurn;
    if n <= |Won(l, lane)| {
      assert InTurnUpTo(l, lane, n) <==> OrderedUpTo(l, lane, n);
      assert forall j :: 0 <= j < n ==> Won(l', lane)[j] == Won(l, lane)[j];
    } else {
      var m := n - 1;
      assert InTurnUpTo(l, lane, m) <==> OrderedUpTo(l, lane, m);
      assert forall j :: 0 <= j < m ==> Won(l', lane)[j] == Won(l, lane)[j];
      if OrderedUpTo(l, lane, m) {
        NextInOrder(l, t);
      }
    }
  }

  lemma WinningKeepsInv(l: Line, t: Tid)
    requires Inv(l) && t in l.waiting
    ensures Inv(Winning(l, t))
  {
    hide HasWon, Won, InTurn, Tickets;
    var l' := Winning(l, t);
    WinningKeepsTickets(l, t);
    WonOneMore(l, t);
    forall lane: nat, n: nat | n <= |Won(l', lane)| ensures InTurnUpTo(l', lane, n) <==> OrderedUpTo(l', lane, n) {
      WinningKeepsOrder(l, t, lane, n);
    }
    if l.timely {
      TimelyIsInTurn(l, t);
      forall lane: nat ensures InTurnUpTo(l', lane, |Won(l', lane)|) {
        assert InTurnUpTo(l, lane, |Won(l, lane)|);
      }
      forall i: nat | i < l'.issued ensures PreviousWon(l', i) {
        assert PreviousWon(l, i);
      }
    }
  }

  /** Timely drawing is enough for every win to be in turn. */
  lemma TimelyMeansInTurn(l: Line)
    requires Inv(l) && l.timely
    ensures AllInTurn(l)
  {
  }

  /** A ticket may be drawn at any time nobody waits. */
  lemma NobodyWaits(l: Line)
    requires Inv(l) && l.waiting == map[]
    ensures MayDraw(l)
  {
    hide HasWon, InTurnUpTo, OrderedUpTo;
  }
}
