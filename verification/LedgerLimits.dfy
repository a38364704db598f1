/**
 Which quantity events the ledger takes, in terms of its sums, and what no run of postings can exceed.
 */
module LedgerLimits {
  import opened Basics
  import opened QuantityLedger
  import L = OdooLifecycle

  /** The line is new with a quantity that is not negative, or it is known with this ordered quantity. */
  predicate LineFits(l: Ledger, line: string, ordered: real) {
    if line in l.projections then l.projections[line].ordered == ordered else 0.0 <= ordered
  }

  /** What a dimension of the line would add up to with the event. */
  function With(l: Ledger, e: Event, d: Dimension): real {
    Sum(l.events, e.line, d) + (if d == e.dimension then e.delta else 0.0)
  }

  /** No dimension of the line falls below nothing, and no more is cancelled than was ordered. */
  predicate Fits(l: Ledger, e: Event, ordered: real) {
    && 0.0 <= With(l, e, Confirmed) && 0.0 <= With(l, e, Shipped) && 0.0 <= With(l, e, Received) && 0.0 <= With(l, e, Invoiced)
    && 0.0 <= With(l, e, Cancelled) <= ordered
  }

  lemma NameOnLine(l: Ledger, e: Event)
    requires LedgerInv(l)
    ensures e in l.events <==> e in OfLine(l.events, e.line)
    ensures e in l.events ==> forall x :: x in l.events && x.id == e.id ==> x == e
  {
    NamesOfLine(l.events, e.line);
    if e in l.events {
      var i :| 0 <= i < |l.events| && l.events[i] == e;
      forall x | x in l.events && x.id == e.id ensures x == e {
        var j :| 0 <= j < |l.events| && l.events[j] == x;
      }
    }
  }

  lemma LoadedTotals(l: Ledger, e: Event, ordered: real)
    requires LedgerInv(l)
    ensures Load(l, e.line, ordered).Some? <==> LineFits(l, e.line, ordered)
    ensures LineFits(l, e.line, ordered) ==>
              var p := Load(l, e.line, ordered).value;
              p.ordered == ordered && 0.0 <= ordered && p.applied == OfLine(l.events, e.line) && forall d :: Total(p, d) == Sum(l.events, e.line, d)
  {
    assert Agrees(l, e.line);
  }

  /**
   An event is taken exactly if its line fits, it is not nothing, and either it is in the ledger word for
   word already, or its name is new and the line's sums stay within their limits.
   */
  lemma TakenExactly(l: Ledger, ordered: real, e: Event)
    requires LedgerInv(l)
    ensures Persist(l, ordered, e).Some? <==>
              && LineFits(l, e.line, ordered) && e.delta != 0.0
              && (e in l.events || (e.id !in Names(l.events) && Fits(l, e, ordered)))
    ensures Persist(l, ordered, e).Some? ==>
              Persist(l, ordered, e).value.events == (if e in l.events then l.events else l.events + [e])
  {
    LoadedTotals(l, e, ordered);
    NameOnLine(l, e);
    NamesOfLine(l.events, e.line);
    if LineFits(l, e.line, ordered) {
      var p := Load(l, e.line, ordered).value;
      AcceptedFits(l, ordered, e, p);
      if e.id in Names(p.applied) {
        var x :| x in p.applied && x.id == e.id;
        assert x in l.events;
      }
    }
  }

  lemma AcceptedFits(l: Ledger, ordered: real, e: Event, p: Projection)
    requires p.ordered == ordered && 0.0 <= ordered && forall d :: Total(p, d) == Sum(l.events, e.line, d)
    ensures Acceptable(Projection(p.ordered, p.totals[e.dimension := Total(p, e.dimension) + e.delta], p.applied + [e])) <==> Fits(l, e, ordered)
  {
  }

  /** Over every run of imports and other postings no sum is ever negative, and no line has more cancelled than its ordered quantity. */
  lemma NeverBelowNothing(ps: seq<L.Posting>, line: string, d: Dimension)
    ensures var l := L.RunPostings(Ledger([], map[]), ps);
            && 0.0 <= Sum(l.events, line, d)
            && (line in l.projections ==> Sum(l.events, line, Cancelled) <= l.projections[line].ordered)
            && (line !in l.projections ==> Sum(l.events, line, d) == 0.0)
  {
    L.LedgerAlwaysAgrees(ps);
    assert Agrees(L.RunPostings(Ledger([], map[]), ps), line);
  }
}
