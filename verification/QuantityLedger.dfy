/** The append-only ledger of purchase-order line quantities and the projection cached for each line. */
module QuantityLedger {
  // Quantities are exact numbers here. An Odoo event is named by everything that enters its fingerprint.

  import opened Basics

  datatype Dimension = Confirmed | Shipped | Received | Invoiced | Cancelled

  datatype EventId =
    | Odoo(entity: string, dimension: Dimension, delta: real, occurredAt: int, revision: int)
    | Other(source: string, name: string)

  datatype Event = Event(id: EventId, line: string, dimension: Dimension, delta: real, occurredAt: int)

  datatype Projection = Projection(ordered: real, totals: map<Dimension, real>, applied: seq<Event>)

  datatype Ledger = Ledger(events: seq<Event>, projections: map<string, Projection>)

  function Total(p: Projection, d: Dimension): real {
    if d in p.totals then p.totals[d] else 0.0
  }

  function NewProjection(ordered: real): Projection {
    Projection(ordered, map[], [])
  }

  predicate Acceptable(p: Projection) {
    && 0.0 <= p.ordered
    && 0.0 <= Total(p, Confirmed) && 0.0 <= Total(p, Shipped) && 0.0 <= Total(p, Received)
    && 0.0 <= Total(p, Invoiced) && 0.0 <= Total(p, Cancelled) <= p.ordered
  }

  function Names(events: seq<Event>): set<EventId> {
    set e | e in events :: e.id
  }

  datatype Application = Applied(projection: Projection) | Duplicate | Rejected

  /** `applyPurchaseOrderLineQuantityEvent` */
  function ApplyEvent(p: Projection, e: Event): Application {
    if e.delta == 0.0 then Rejected
    else if e.id in Names(p.applied) then (if e in p.applied then Duplicate else Rejected)
    else
      var next := Projection(p.ordered, p.totals[e.dimension := Total(p, e.dimension) + e.delta], p.applied + [e]);
      if Acceptable(next) then Applied(next) else Rejected
  }

  /** `loadQuantityProjection`: no result where the source throws. */
  function Load(l: Ledger, line: string, ordered: real): Option<Projection> {
    if line !in l.projections then (if 0.0 <= ordered then Some(NewProjection(ordered)) else None)
    else if l.projections[line].ordered != ordered then None
    else Some(l.projections[line])
  }

  /** Appending an event and replacing its line's projection; the event table refuses a name twice. */
  function Append(l: Ledger, e: Event, next: Projection): Option<Ledger> {
    if e.id in Names(l.events) then None
    else Some(Ledger(l.events + [e], l.projections[e.line := next]))
  }

  /** `persistOdooQuantityEvent` */
  function Persist(l: Ledger, ordered: real, e: Event): Option<Ledger> {
    var current := Load(l, e.line, ordered);
    if current.None? then None
    else
      match ApplyEvent(current.value, e)
      case Applied(next) => Append(l, e, next)
      case Duplicate => Some(l)
      case Rejected => None
  }

  // ---- the cache agrees with the ledger

  function Sum(events: seq<Event>, line: string, d: Dimension): real {
    if events == [] then 0.0
    else
      var e := events[|events| - 1];
      Sum(events[..|events| - 1], line, d) + (if e.line == line && e.dimension == d then e.delta else 0.0)
  }

  function OfLine(events: seq<Event>, line: string): seq<Event> {
    if events == [] then []
    else
      var front, e := OfLine(events[..|events| - 1], line), events[|events| - 1];
      if e.line == line then front + [e] else front
  }

  ghost predicate Agrees(l: Ledger, line: string) {
    if line in l.projections then
      && l.projections[line].applied == OfLine(l.events, line)
      && Acceptable(l.projections[line])
      && forall d :: Total(l.projections[line], d) == Sum(l.events, line, d)
    else
      OfLine(l.events, line) == [] && forall d :: Sum(l.events, line, d) == 0.0
  }

  ghost predicate UniqueNames(events: seq<Event>) {
    forall i, j :: 0 <= i < j < |events| ==> events[i].id != events[j].id
  }

  ghost predicate LedgerInv(l: Ledger) {
    UniqueNames(l.events) && forall line {:trigger Agrees(l, line)} :: Agrees(l, line)
  }

  lemma AppendSums(events: seq<Event>, e: Event, line: string, d: Dimension)
    ensures Sum(events + [e], line, d) == Sum(events, line, d) + (if e.line == line && e.dimension == d then e.delta else 0.0)
    ensures OfLine(events + [e], line) == OfLine(events, line) + (if e.line == line then [e] else [])
  {
    assert (events + [e])[..|events|] == events;
  }

  lemma AppendAgreesElsewhere(l: Ledger, e: Event, next: Projection, line: string)
    requires Agrees(l, line) && line != e.line
    ensures Agrees(Ledger(l.events + [e], l.projections[e.line := next]), line)
  {
    forall d ensures Sum(l.events + [e], line, d) == Sum(l.events, line, d) {
      AppendSums(l.events, e, line, d);
    }
    AppendSums(l.events, e, line, e.dimension);
    assert OfLine(l.events, line) + [] == OfLine(l.events, line);
  }

  lemma AppendAgreesHere(l: Ledger, e: Event, current: Projection)
    requires Agrees(l, e.line) && (e.line in l.projections ==> current == l.projections[e.line])
    requires e.line !in l.projections ==> current == NewProjection(current.ordered)
    requires ApplyEvent(current, e).Applied?
    ensures Agrees(Ledger(l.events + [e], l.projections[e.line := ApplyEvent(current, e).projection]), e.line)
  {
    var next := ApplyEvent(current, e).projection;
    forall d ensures Total(next, d) == Sum(l.events + [e], e.line, d) {
      AppendSums(l.events, e, e.line, d);
      assert Total(current, d) == Sum(l.events, e.line, d);
    }
    AppendSums(l.events, e, e.line, e.dimension);
  }

  lemma AppendUnique(events: seq<Event>, e: Event)
    requires UniqueNames(events) && e.id !in Names(events)
    ensures UniqueNames(events + [e])
  {
    forall i | 0 <= i < |events| ensures events[i].id != e.id {
      assert events[i].id in Names(events);
    }
  }

  /** Every event that is accepted, from Odoo or from elsewhere, keeps the cache in step with the ledger. */
  lemma PersistKeepsLedger(l: Ledger, ordered: real, e: Event)
    requires LedgerInv(l) && Persist(l, ordered, e).Some?
    ensures LedgerInv(Persist(l, ordered, e).value)
  {
    var l' := Persist(l, ordered, e).value;
    assert Agrees(l, e.line);
    if l' != l {
      AppendUnique(l.events, e);
      AppendAgreesHere(l, e, Load(l, e.line, ordered).value);
      forall line | line != e.line ensures Agrees(l', line) {
        assert Agrees(l, line);
        AppendAgreesElsewhere(l, e, l'.projections[e.line], line);
      }
    }
  }

  // ---- sums by source entity

  /** `sourceEntityQuantity`: what Odoo's events under one entity add up to, on whatever line. */
  function EntitySum(events: seq<Event>, entity: string, d: Dimension): real {
    if events == [] then 0.0
    else
      var e := events[|events| - 1];
      EntitySum(events[..|events| - 1], entity, d)
      + (if e.id.Odoo? && e.id.entity == entity && e.dimension == d then e.delta else 0.0)
  }

  lemma AppendEntitySum(events: seq<Event>, e: Event, entity: string, d: Dimension)
    ensures EntitySum(events + [e], entity, d)
         == EntitySum(events, entity, d) + (if e.id.Odoo? && e.id.entity == entity && e.dimension == d then e.delta else 0.0)
  {
    assert (events + [e])[..|events|] == events;
  }

  function OdooEvent(entity: string, line: string, d: Dimension, delta: real, occurredAt: int, revision: int): Event {
    Event(Odoo(entity, d, delta, occurredAt, revision), line, d, delta, occurredAt)
  }

  // ---- following a source quantity, and filling up a confirmation

  /** One receipt line: post the difference between its quantity and what was posted for it before. */
  function FollowReceipt(l: Ledger, ordered: real, line: string, entity: string, quantity: real, revision: int): Option<Ledger> {
    var delta := quantity - EntitySum(l.events, entity, Received);
    if delta == 0.0 then Some(l) else Persist(l, ordered, OdooEvent(entity, line, Received, delta, revision, revision))
  }

  /** One line of a confirmed order: post the part that nobody has confirmed yet. */
  function FillConfirmation(l: Ledger, ordered: real, line: string, orderedAt: int, revision: int): Option<Ledger> {
    var current := Load(l, line, ordered);
    if current.None? then None
    else
      var delta := ordered - Total(current.value, Confirmed);
      if delta > 0.0 then Persist(l, ordered, OdooEvent(line, line, Confirmed, delta, orderedAt, revision)) else Some(l)
  }

  lemma NamesOfLine(events: seq<Event>, line: string)
    ensures forall e :: e in OfLine(events, line) ==> e in events && e.line == line
    ensures forall e :: e in events && e.line == line ==> e in OfLine(events, line)
  {
    if events != [] {
      NamesOfLine(events[..|events| - 1], line);
      assert events == events[..|events| - 1] + [events[|events| - 1]];
    }
  }

  /** The event was posted, or it had been posted before, word for word. */
  lemma PersistEffect(l: Ledger, ordered: real, e: Event)
    requires LedgerInv(l) && Persist(l, ordered, e).Some?
    ensures var l' := Persist(l, ordered, e).value;
            if e.id in Names(l.events) then l' == l && e in l.events
            else l'.events == l.events + [e] && e.line in l'.projections && l'.projections[e.line].ordered == ordered
                 && forall other :: other in l.projections && other != e.line ==> other in l'.projections && l'.projections[other] == l.projections[other]
  {
    assert Agrees(l, e.line);
    NamesOfLine(l.events, e.line);
  }

  lemma PersistNames(l: Ledger, ordered: real, e: Event)
    requires LedgerInv(l) && Persist(l, ordered, e).Some?
    ensures Names(Persist(l, ordered, e).value.events) == Names(l.events) + {e.id}
  {
    PersistEffect(l, ordered, e);
    NamesAppend(l.events, e);
  }

  lemma NamesAppend(events: seq<Event>, e: Event)
    ensures Names(events + [e]) == Names(events) + {e.id}
  {
  }

  /** What a successful posting adds to the totals: its amount once, or nothing if it was posted before. */
  lemma PersistSums(l: Ledger, ordered: real, e: Event)
    requires LedgerInv(l) && Persist(l, ordered, e).Some? && e.id.Odoo?
    ensures var l' := Persist(l, ordered, e).value;
            var posted := if e.id in Names(l.events) then 0.0 else e.delta;
            && LedgerInv(l')
            && (forall line, d :: Sum(l'.events, line, d) == Sum(l.events, line, d) + (if line == e.line && d == e.dimension then posted else 0.0))
            && (forall entity, d :: EntitySum(l'.events, entity, d)
                 == EntitySum(l.events, entity, d) + (if entity == e.id.entity && d == e.dimension then posted else 0.0))
  {
    PersistKeepsLedger(l, ordered, e);
    PersistEffect(l, ordered, e);
    forall line, d ensures Sum(l.events + [e], line, d) == Sum(l.events, line, d) + (if line == e.line && d == e.dimension then e.delta else 0.0) {
      AppendSums(l.events, e, line, d);
    }
    forall entity, d ensures EntitySum(l.events + [e], entity, d)
         == EntitySum(l.events, entity, d) + (if entity == e.id.entity && d == e.dimension then e.delta else 0.0) {
      AppendEntitySum(l.events, e, entity, d);
    }
  }

  /**
   After a successful step a receipt line's postings add up to its quantity, exactly if nothing was
   to be posted or the same correction had not been posted under the same receipt revision before.
   */
  lemma ReceiptFollowed(l: Ledger, ordered: real, line: string, entity: string, quantity: real, revision: int)
    requires LedgerInv(l) && FollowReceipt(l, ordered, line, entity, quantity, revision).Some?
    ensures var l' := FollowReceipt(l, ordered, line, entity, quantity, revision).value;
            var delta := quantity - EntitySum(l.events, entity, Received);
            && LedgerInv(l')
            && (EntitySum(l'.events, entity, Received) == quantity
                <==> delta == 0.0 || Odoo(entity, Received, delta, revision, revision) !in Names(l.events))
            && (forall other, d :: other != entity || d != Received ==> EntitySum(l'.events, other, d) == EntitySum(l.events, other, d))
            && (forall other, d :: other != line || d != Received ==> Sum(l'.events, other, d) == Sum(l.events, other, d))
  {
    var delta := quantity - EntitySum(l.events, entity, Received);
    if delta != 0.0 {
      PersistSums(l, ordered, OdooEvent(entity, line, Received, delta, revision, revision));
    }
  }

  /**
   After a successful step a confirmed line is confirmed in full and not beyond what was confirmed
   before, exactly if it already was or this fill-up had not been posted under the same revision.
   */
  lemma ConfirmationFilled(l: Ledger, ordered: real, line: string, orderedAt: int, revision: int)
    requires LedgerInv(l) && FillConfirmation(l, ordered, line, orderedAt, revision).Some?
    ensures var l' := FillConfirmation(l, ordered, line, orderedAt, revision).value;
            var before := Sum(l.events, line, Confirmed);
            && LedgerInv(l')
            && (Sum(l'.events, line, Confirmed) == (if before < ordered then ordered else before)
                <==> ordered <= before || Odoo(line, Confirmed, ordered - before, orderedAt, revision) !in Names(l.events))
            && (forall other, d :: other != line || d != Confirmed ==> Sum(l'.events, other, d) == Sum(l.events, other, d))
            && (forall other, d :: d != Confirmed ==> EntitySum(l'.events, other, d) == EntitySum(l.events, other, d))
  {
    assert Agrees(l, line);
    var before := Sum(l.events, line, Confirmed);
    assert Total(Load(l, line, ordered).value, Confirmed) == before;
    if before < ordered {
      PersistSums(l, ordered, OdooEvent(line, line, Confirmed, ordered - before, orderedAt, revision));
    }
  }
}
