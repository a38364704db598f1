/**
 From the rows of a snapshot to the ledger and the order's status: what a successful import leaves in the
 ledger for a kept receipt line or order line is the quantity of its row.
 */
module OdooArrivals {
  import opened Basics
  import opened Decimals
  import opened QuantityLedger
  import opened OdooTables
  import opened OdooImport
  import opened OdooCandidates
  import opened OdooReimport
  import opened OdooSnapshot
  import opened OdooFields
  import L = OdooLifecycle

  // ---- the accepted candidates, field by field

  ghost predicate ReceiptLineFrom(cs: seq<Line>, ids: set<string>, x: L.ReceiptLine) {
    exists c :: c in cs && c.id in ids && c.content == ReceivedFor(x.poLine, x.quantity) && c.id == x.id && c.document == x.receipt
  }

  ghost predicate OrderLineFrom(cs: seq<Line>, ids: set<string>, x: L.PoLine) {
    exists c :: c in cs && c.id in ids && c.content == Ordered(x.ordered) && c.id == x.id && c.document == x.po
  }

  lemma {:induction false} ReceivedLinesAre(cs: seq<Line>, ids: set<string>, x: L.ReceiptLine)
    ensures x in ReceivedLines(cs, ids) <==> ReceiptLineFrom(cs, ids, x)
  {
    if cs != [] {
      var front, c := cs[..|cs| - 1], cs[|cs| - 1];
      ReceivedLinesAre(front, ids, x);
      InFrontOrLast(cs);
      assert ReceiptLineFrom(cs, ids, x) <==>
               || ReceiptLineFrom(front, ids, x)
               || (c.id in ids && c.content == ReceivedFor(x.poLine, x.quantity) && c.id == x.id && c.document == x.receipt);
    }
  }

  lemma {:induction false} OrderLinesFrom(cs: seq<Line>, ids: set<string>, x: L.PoLine)
    ensures x in OrderLines(cs, ids) <==> OrderLineFrom(cs, ids, x)
  {
    if cs != [] {
      var front, c := cs[..|cs| - 1], cs[|cs| - 1];
      OrderLinesFrom(front, ids, x);
      InFrontOrLast(cs);
      assert OrderLineFrom(cs, ids, x) <==>
               || OrderLineFrom(front, ids, x)
               || (c.id in ids && c.content == Ordered(x.ordered) && c.id == x.id && c.document == x.po);
    }
  }

  lemma {:induction false} ReceiptIsListed(cs: seq<Doc>, ids: set<string>, c: Doc)
    requires c in cs && c.content.Receipt? && c.id in ids
    ensures L.Receipt(c.id, c.content.po, c.content.receivedAt, c.updatedAt) in SortedReceipts(cs, ids)
  {
    var front, last := cs[..|cs| - 1], cs[|cs| - 1];
    InFrontOrLast(cs);
    if c in front {
      ReceiptIsListed(front, ids, c);
    }
    if last.content.Receipt? && last.id in ids {
      InsertElements(L.Receipt(last.id, last.content.po, last.content.receivedAt, last.updatedAt), SortedReceipts(front, ids));
    }
  }

  lemma {:induction false} ReceiptOfFinds(rs: seq<L.Receipt>, x: L.Receipt)
    requires NamedReceipts(rs) && x in rs
    ensures L.ReceiptOf(rs, x.id) == Some(x)
  {
    var i :| 0 <= i < |rs| && rs[i] == x;
    if i > 0 {
      assert rs[0].id != rs[i].id && rs[1..][i - 1] == x;
      forall j, k | 0 <= j < k < |rs[1..]| ensures rs[1..][j].id != rs[1..][k].id {
        assert rs[j + 1].id != rs[k + 1].id;
      }
      ReceiptOfFinds(rs[1..], x);
    }
  }

  lemma {:induction false} LineOfSome(lines: seq<L.PoLine>, x: L.PoLine)
    requires x in lines
    ensures L.LineOf(lines, x.id).Some?
  {
    InFrontOrLast(lines);
    if lines[|lines| - 1].id != x.id {
      LineOfSome(lines[..|lines| - 1], x);
    }
  }

  // ---- what the import stored

  ghost predicate DocStored(b: Batch, after: Store, d: Doc) {
    d in b.docs && Owns(after.docs, d)
  }

  ghost predicate HasDocument(b: Batch, after: Store, id: string) {
    exists d :: DocStored(b, after, d) && d.id == id
  }

  /** The candidate line is in the table word for word, and its document as its own. */
  ghost predicate LineStored(b: Batch, after: Store, c: Line) {
    c in b.lines && c.Key() in after.lines && after.lines[c.Key()].value == c && HasDocument(b, after, c.document)
  }

  lemma StampedIn(cs: seq<Doc>, at: int, d: Doc)
    requires d in cs
    ensures Stamp(d, at) in Stamped(cs, at)
  {
    var i :| 0 <= i < |cs| && cs[i] == d;
    assert Stamped(cs, at)[i] == Stamp(d, at);
  }

  lemma DocAccepted(store: Store, b: Batch, at: int, docs: Rows<Doc>, orders: map<string, L.PoRow>, d: Doc)
    requires SoundStore(store) && DistinctBatch(b) && d in b.docs
    requires docs == AfterDocs(store.docs, Stamped(b.docs, at), at)
    ensures Owns(WithOrders(docs, orders), d) <==> d.id in AcceptedDocs(store.docs, Stamped(b.docs, at), at)
  {
    var cs := Stamped(b.docs, at);
    StampedDistinct(b.docs, at);
    DocsLeft(store.docs, cs, at);
    StampedIn(b.docs, at, d);
    assert DocLeft(docs, AcceptedDocs(store.docs, cs, at), Stamp(d, at));
    StampKeeps(docs, d, at);
    WithOrdersKeeps(docs, orders, d);
  }

  ghost predicate IdOf(docs: seq<Doc>, id: string) {
    exists d :: d in docs && d.id == id
  }

  lemma SameIdOf(cs: seq<Doc>, docs: seq<Doc>, id: string)
    requires |cs| == |docs| && forall i :: 0 <= i < |cs| ==> cs[i].id == docs[i].id
    requires IdOf(cs, id)
    ensures IdOf(docs, id)
  {
    var d :| d in cs && d.id == id;
    var i :| 0 <= i < |cs| && cs[i] == d;
    assert docs[i] in docs && docs[i].id == id;
  }

  lemma AcceptedHaveCandidates(rows: Rows<Doc>, cs: seq<Doc>, at: int)
    ensures forall id :: id in AcceptedDocs(rows, cs, at) ==> IdOf(cs, id)
  {
    AcceptedDocsAreCandidates(rows, cs, at);
  }

  lemma LineStoredIs(rows: Rows<Line>, b: Batch, after: Store, parents: set<string>, c: Line)
    requires DistinctBatch(b) && c in b.lines && AfterLines(rows, parents, b.lines) == Some(after.lines)
    requires forall id :: id in parents <==> HasDocument(b, after, id)
    ensures LineStored(b, after, c) <==> c.id in AcceptedLines(rows, parents, b.lines)
  {
    LinesLeft(rows, parents, b.lines);
    assert LineLeft(after.lines, parents, AcceptedLines(rows, parents, b.lines), c);
  }

  /** Exactly the documents and lines with these ids are stored. */
  ghost predicate TakesExactly(b: Batch, after: Store, parents: set<string>, ids: set<string>) {
    && (forall d :: d in b.docs ==> (DocStored(b, after, d) <==> d.id in parents))
    && (forall c :: c in b.lines ==> (LineStored(b, after, c) <==> c.id in ids))
  }

  /** The parts of one successful import. */
  ghost predicate Parts(store: Store, b: Batch, at: int, after: Store, parents: set<string>, ids: set<string>, a: L.Accepted) {
    && TakesExactly(b, after, parents, ids) && a == AcceptedOf(Stamped(b.docs, at), b.lines, parents, ids, at)
    && L.WellNamed(a) && L.PostAll(store.ledger, a) == Some(after.ledger)
  }

  lemma ParentsAreDocuments(b: Batch, at: int, after: Store, parents: set<string>)
    requires forall id :: id in parents ==> IdOf(Stamped(b.docs, at), id)
    requires forall d :: d in b.docs ==> (DocStored(b, after, d) <==> d.id in parents)
    ensures forall id :: id in parents <==> HasDocument(b, after, id)
  {
    forall id | id in parents ensures HasDocument(b, after, id) {
      SameIdOf(Stamped(b.docs, at), b.docs, id);
      var d :| d in b.docs && d.id == id;
      assert DocStored(b, after, d);
    }
  }

  lemma ImportHasParts(store: Store, b: Batch, at: int)
    returns (parents: set<string>, ids: set<string>, a: L.Accepted, docs: Rows<Doc>, orders: map<string, L.PoRow>)
    requires SoundStore(store) && DistinctBatch(b) && Import(store, b, at).Some?
    ensures Parts(store, b, at, Import(store, b, at).value, parents, ids, a)
    ensures Import(store, b, at).value.docs == WithOrders(docs, orders)
    ensures L.Lifecycle(store.ledger, OrderRows(docs), a) == Some((Import(store, b, at).value.ledger, orders))
    ensures Import(store, b, at).value.stages == store.stages + ConfirmedStages(a.pos) + ArrivalStages(Import(store, b, at).value.ledger, a, a.pos)
  {
    var after := Import(store, b, at).value;
    var lines, ledger;
    docs, parents, lines, a, ledger, orders := ImportParts(store, b, at);
    ids := AcceptedLines(store.lines, parents, b.lines);
    AcceptedWellNamed(b.docs, b.lines, parents, ids, at);
    forall d | d in b.docs ensures DocStored(b, after, d) <==> d.id in parents {
      DocAccepted(store, b, at, docs, orders, d);
    }
    AcceptedHaveCandidates(store.docs, Stamped(b.docs, at), at);
    ParentsAreDocuments(b, at, after, parents);
    forall c | c in b.lines ensures LineStored(b, after, c) <==> c.id in ids {
      LineStoredIs(store.lines, b, after, parents, c);
    }
  }

  // ---- receipts

  lemma ReceiptListed(docs: seq<Doc>, at: int, parents: set<string>, d: Doc)
    requires NamedReceipts(SortedReceipts(Stamped(docs, at), parents)) && d in docs && d.id in parents && d.content.Receipt?
    ensures L.ReceiptOf(SortedReceipts(Stamped(docs, at), parents), d.id) == Some(L.Receipt(d.id, d.content.po, d.content.receivedAt, d.updatedAt))
  {
    StampedIn(docs, at, d);
    ReceiptIsListed(Stamped(docs, at), parents, d);
    ReceiptOfFinds(SortedReceipts(Stamped(docs, at), parents), L.Receipt(d.id, d.content.po, d.content.receivedAt, d.updatedAt));
  }

  /** The postings under the receipt line add up to its quantity, exactly if they did or the missing part is new under this revision. */
  ghost predicate Arrives(l: Ledger, l': Ledger, id: string, quantity: real, revision: int) {
    var missing := quantity - EntitySum(l.events, id, Received);
    EntitySum(l'.events, id, Received) == quantity <==> missing == 0.0 || Odoo(id, Received, missing, revision, revision) !in Names(l.events)
  }

  lemma LedgerFollows(l: Ledger, a: L.Accepted, x: L.ReceiptLine, y: L.PoLine, rc: L.Receipt)
    requires LedgerInv(l) && L.WellNamed(a) && L.PostAll(l, a).Some?
    requires x in a.receiptLines && y in a.poLines && y.id == x.poLine && L.ReceiptOf(a.receipts, x.receipt) == Some(rc)
    ensures Arrives(l, L.PostAll(l, a).value, x.id, x.quantity, rc.updatedAt)
  {
    LineOfSome(a.poLines, y);
    L.DistinctConverges(l, a);
    assert L.Followed(l, L.PostAll(l, a).value, a, x);
    assert L.Linked(a, x);
  }

  lemma OrderLineListed(b: Batch, after: Store, parents: set<string>, ids: set<string>, c: Line)
    requires TakesExactly(b, after, parents, ids) && LineStored(b, after, c) && c.content.Ordered?
    ensures L.PoLine(c.id, c.document, c.content.quantity) in OrderLines(b.lines, ids) && c.document in parents
  {
    OrderLinesFrom(b.lines, ids, L.PoLine(c.id, c.document, c.content.quantity));
    var e :| DocStored(b, after, e) && e.id == c.document;
  }

  lemma ReceiptLineListed(b: Batch, after: Store, parents: set<string>, ids: set<string>, c: Line)
    requires TakesExactly(b, after, parents, ids) && LineStored(b, after, c) && c.content.ReceivedFor?
    ensures L.ReceiptLine(c.id, c.document, c.content.poLine, c.content.quantity) in ReceivedLines(b.lines, ids) && c.document in parents
  {
    ReceivedLinesAre(b.lines, ids, L.ReceiptLine(c.id, c.document, c.content.poLine, c.content.quantity));
    var e :| DocStored(b, after, e) && e.id == c.document;
  }

  /** Of a batch: the postings under a stored receipt line with a stored order line. */
  lemma StoredArrives(store: Store, b: Batch, at: int, after: Store, c: Line, y: Line, d: Doc)
    requires SoundStore(store) && DistinctBatch(b) && Import(store, b, at) == Some(after)
    requires LineStored(b, after, c) && c.content.ReceivedFor? && LineStored(b, after, y) && y.content.Ordered? && y.id == c.content.poLine
    requires d in b.docs && d.content.Receipt? && d.id == c.document
    ensures Arrives(store.ledger, after.ledger, c.id, c.content.quantity, d.updatedAt)
  {
    var parents, ids, a, docs, orders := ImportHasParts(store, b, at);
    ReceiptLineListed(b, after, parents, ids, c);
    OrderLineListed(b, after, parents, ids, y);
    NamesOfReceipts(b, at, parents, ids, a);
    ReceiptListed(b.docs, at, parents, d);
    LedgerFollows(store.ledger, a, L.ReceiptLine(c.id, c.document, c.content.poLine, c.content.quantity),
                  L.PoLine(y.id, y.document, y.content.quantity), L.Receipt(d.id, d.content.po, d.content.receivedAt, d.updatedAt));
  }

  lemma NamesOfReceipts(b: Batch, at: int, parents: set<string>, ids: set<string>, a: L.Accepted)
    requires a == AcceptedOf(Stamped(b.docs, at), b.lines, parents, ids, at) && L.WellNamed(a)
    ensures a.poLines == OrderLines(b.lines, ids) && a.receiptLines == ReceivedLines(b.lines, ids)
    ensures a.receipts == SortedReceipts(Stamped(b.docs, at), parents) && NamedReceipts(a.receipts)
  {
  }

  /** A kept line of a kept receipt whose order line belongs to the receipt's order. */
  ghost predicate KeptReceiptLine(s: Snapshot, r: ReceiptRow, l: ReceiptLineRow) {
    r in s.receipts && ReceiptKept(r) && l in r.lines && ReceiptLineKept(l) && exists order :: Belongs(s, r, order) && Owner(s, l.orderLine, order)
  }

  /** When Odoo last touched the receipt: the revision under which its quantities are posted. */
  function RevisionOf(r: ReceiptRow): int
    requires r.doneAt.Some?
  {
    if r.updatedAt.Some? then r.updatedAt.value else r.doneAt.value
  }

  lemma ReceiptOfLine(s: Snapshot, r: ReceiptRow, l: ReceiptLineRow, c: Line) returns (d: Doc)
    requires KeptReceiptLine(s, r, l) && ReceiptLineSays(c, l, r)
    ensures IsReceiptLine(s, c) && IsReceipt(s, d) && d.content.Receipt? && d.id == c.document && d.updatedAt == RevisionOf(r)
  {
    var order :| Belongs(s, r, order) && Owner(s, l.orderLine, order);
    assert LineOfReceipt(s, r, order, c);
    var when := r.doneAt.value;
    d := Doc("receipt:odoo:" + Decimal(r.id), "odoo", "stock.picking:" + Decimal(r.id), "received", r.createdAt.GetOr(when), RevisionOf(r),
             Receipt(order, when), r.details);
    assert ReceiptSays(d, r, order);
  }

  /**
   After a successful import the postings under a stored receipt line, whose order line is stored too, add
   up to the quantity of its row, exactly if they did before or the missing part was not posted under the
   same revision of the receipt before.
   */
  lemma ReceivedIsTheRow(store: Store, s: Snapshot, at: int, after: Store, r: ReceiptRow, l: ReceiptLineRow, c: Line, y: Line)
    requires SoundStore(store) && DistinctRows(s) && Import(store, CandidatesOf(s), at) == Some(after)
    requires KeptReceiptLine(s, r, l) && ReceiptLineSays(c, l, r) && LineStored(CandidatesOf(s), after, c)
    requires LineStored(CandidatesOf(s), after, y) && y.content.Ordered? && y.id == OrderLineName(l.orderLine)
    ensures Arrives(store.ledger, after.ledger, "receipt-line:odoo:" + Decimal(l.id), l.quantity.value, RevisionOf(r))
  {
    var d := ReceiptOfLine(s, r, l, c);
    CandidatesDistinct(s);
    DocsAreTheRows(s);
    StoredArrives(store, CandidatesOf(s), at, after, c, y, d);
  }

  // ---- confirmations

  /** The line is confirmed up to its quantity and no further than it was, exactly if it was or the rest is new under this revision. */
  ghost predicate IsConfirmed(l: Ledger, l': Ledger, id: string, quantity: real, orderedAt: int, revision: int) {
    var before := Sum(l.events, id, QuantityLedger.Confirmed);
    Sum(l'.events, id, QuantityLedger.Confirmed) == (if before < quantity then quantity else before)
    <==> quantity <= before || Odoo(id, QuantityLedger.Confirmed, quantity - before, orderedAt, revision) !in Names(l.events)
  }

  lemma LedgerConfirms(l: Ledger, a: L.Accepted, po: L.Po, line: L.PoLine)
    requires LedgerInv(l) && L.WellNamed(a) && L.PostAll(l, a).Some?
    requires po in a.pos && po.status == "confirmed" && line in a.poLines && line.po == po.id
    ensures IsConfirmed(l, L.PostAll(l, a).value, line.id, line.ordered, po.orderedAt, po.updatedAt)
  {
    L.JobsElements(a.pos, a.poLines);
    L.DistinctConverges(l, a);
    assert L.Filled(l, L.PostAll(l, a).value, L.Job(po, line));
  }

  lemma OrderListed(docs: seq<Doc>, at: int, parents: set<string>, d: Doc)
    requires d in docs && d.id in parents && d.content.PurchaseOrder?
    ensures L.Po(d.id, d.status, d.content.confirmedAt, d.content.orderedAt, at) in Orders(Stamped(docs, at), parents)
  {
    StampedIn(docs, at, d);
    OrderIsListed(Stamped(docs, at), parents, Stamp(d, at));
  }

  lemma StoredIsConfirmed(store: Store, b: Batch, at: int, after: Store, c: Line, d: Doc)
    requires SoundStore(store) && DistinctBatch(b) && Import(store, b, at) == Some(after)
    requires LineStored(b, after, c) && c.content.Ordered?
    requires d in b.docs && d.content.PurchaseOrder? && d.id == c.document && d.status == "confirmed"
    ensures IsConfirmed(store.ledger, after.ledger, c.id, c.content.quantity, d.content.orderedAt, at)
  {
    var parents, ids, a, docs, orders := ImportHasParts(store, b, at);
    OrderLineListed(b, after, parents, ids, c);
    OrderListed(b.docs, at, parents, d);
    LedgerConfirms(store.ledger, a, L.Po(d.id, d.status, d.content.confirmedAt, d.content.orderedAt, at), L.PoLine(c.id, c.document, c.content.quantity));
  }

  lemma OrderOfLine(s: Snapshot, o: OrderRow, l: OrderLineRow, c: Line) returns (d: Doc)
    requires OrderKept(s, o) && l in o.lines && OrderLineKept(l) && OrderLineSays(c, l, o)
    ensures IsOrderLine(s, c) && IsOrder(s, d) && OrderSays(d, o) && d.id == c.document
  {
    d := OrderDoc(o);
  }

  /** The same for what Odoo has confirmed: orders in its state `purchase` or `done`. */
  lemma ConfirmedIsTheRow(store: Store, s: Snapshot, at: int, after: Store, o: OrderRow, l: OrderLineRow, c: Line)
    requires SoundStore(store) && DistinctRows(s) && Import(store, CandidatesOf(s), at) == Some(after)
    requires OrderKept(s, o) && o.state in {"purchase", "done"} && l in o.lines && OrderLineKept(l) && OrderLineSays(c, l, o)
    requires LineStored(CandidatesOf(s), after, c)
    ensures IsConfirmed(store.ledger, after.ledger, "purchase-order-line:odoo:" + Decimal(l.id), l.quantity.value, o.orderedAt.value, at)
  {
    var d := OrderOfLine(s, o, l, c);
    CandidatesDistinct(s);
    DocsAreTheRows(s);
    StoredIsConfirmed(store, CandidatesOf(s), at, after, c, d);
  }

  // ---- the status of an order

  ghost predicate LineOfOrder(b: Batch, after: Store, d: Doc, c: Line) {
    LineStored(b, after, c) && c.content.Ordered? && c.document == d.id
  }

  ghost predicate SomeReceived(b: Batch, after: Store, d: Doc) {
    exists c :: LineOfOrder(b, after, d, c) && Sum(after.ledger.events, c.id, Received) > 0.0
  }

  ghost predicate AllReceived(b: Batch, after: Store, d: Doc) {
    forall c :: LineOfOrder(b, after, d, c) ==>
      Sum(after.ledger.events, c.id, Received) + Sum(after.ledger.events, c.id, QuantityLedger.Cancelled) >= c.content.quantity
  }

  lemma LinesOfOrderAre(b: Batch, after: Store, parents: set<string>, ids: set<string>, d: Doc)
    requires TakesExactly(b, after, parents, ids)
    ensures var lines := L.LinesOf(OrderLines(b.lines, ids), d.id);
            && (forall c :: LineOfOrder(b, after, d, c) ==> L.PoLine(c.id, c.document, c.content.quantity) in lines)
            && (forall x :: x in lines ==> exists c :: LineOfOrder(b, after, d, c) && c.id == x.id && c.content.quantity == x.ordered)
  {
    var all := OrderLines(b.lines, ids);
    L.LinesOfElements(all, d.id);
    forall c | LineOfOrder(b, after, d, c) ensures L.PoLine(c.id, c.document, c.content.quantity) in all {
      OrderLinesFrom(b.lines, ids, L.PoLine(c.id, c.document, c.content.quantity));
    }
    forall x | x in L.LinesOf(all, d.id) ensures exists c :: LineOfOrder(b, after, d, c) && c.id == x.id && c.content.quantity == x.ordered {
      OrderLinesFrom(b.lines, ids, x);
      var c :| c in b.lines && c.id in ids && c.content == Ordered(x.ordered) && c.id == x.id && c.document == x.po;
      assert LineOfOrder(b, after, d, c);
    }
  }

  /** What the order's lines say of its status, in terms of the ledger. */
  ghost predicate EndsAt(l: Ledger, lines: seq<L.PoLine>, status: string) {
    L.AnyLineReceived(l, lines) ==> status == (if L.EveryLineCovered(l, lines) then "received" else "partially_received")
  }

  lemma StatusFromLines(b: Batch, after: Store, parents: set<string>, ids: set<string>, d: Doc, status: string)
    requires TakesExactly(b, after, parents, ids) && EndsAt(after.ledger, L.LinesOf(OrderLines(b.lines, ids), d.id), status)
    ensures SomeReceived(b, after, d) ==> status == (if AllReceived(b, after, d) then "received" else "partially_received")
  {
    var lines, l := L.LinesOf(OrderLines(b.lines, ids), d.id), after.ledger;
    LinesOfOrderAre(b, after, parents, ids, d);
    if SomeReceived(b, after, d) {
      var c :| LineOfOrder(b, after, d, c) && Sum(l.events, c.id, Received) > 0.0;
      var i :| 0 <= i < |lines| && lines[i] == L.PoLine(c.id, c.document, c.content.quantity);
      assert L.AnyLineReceived(l, lines);
    }
    if AllReceived(b, after, d) {
      forall i | 0 <= i < |lines| ensures Sum(l.events, lines[i].id, Received) + Sum(l.events, lines[i].id, QuantityLedger.Cancelled) >= lines[i].ordered {
        assert lines[i] in lines;
      }
    }
    if L.EveryLineCovered(l, lines) {
      forall c | LineOfOrder(b, after, d, c)
        ensures Sum(l.events, c.id, Received) + Sum(l.events, c.id, QuantityLedger.Cancelled) >= c.content.quantity
      {
        var i :| 0 <= i < |lines| && lines[i] == L.PoLine(c.id, c.document, c.content.quantity);
      }
    }
  }

  lemma LifecycleEnds(l: Ledger, rows: map<string, L.PoRow>, a: L.Accepted, l': Ledger, rows': map<string, L.PoRow>, po: L.Po)
    requires LedgerInv(l) && L.Lifecycle(l, rows, a) == Some((l', rows')) && po in a.pos && po.id in rows
    ensures po.id in rows' && EndsAt(l', L.LinesOf(a.poLines, po.id), rows'[po.id].status)
  {
    L.ImportConverges(l, rows, a);
    L.ReceivedStatuses(rows, l', a, a.pos);
  }

  lemma OrderHasRow(docs: Rows<Doc>, orders: map<string, L.PoRow>, d: Doc)
    requires d.content.PurchaseOrder? && d.Key() in WithOrders(docs, orders)
    ensures d.id in OrderRows(docs)
    ensures d.id in orders ==> WithOrders(docs, orders)[d.Key()].value.status == orders[d.id].status
  {
    assert (PurchaseOrders, d.id) in docs;
  }

  lemma StatusAfter(store: Store, b: Batch, at: int, after: Store, d: Doc) returns (parents: set<string>, ids: set<string>)
    requires SoundStore(store) && DistinctBatch(b) && Import(store, b, at) == Some(after)
    requires DocStored(b, after, d) && d.content.PurchaseOrder?
    ensures TakesExactly(b, after, parents, ids)
    ensures EndsAt(after.ledger, L.LinesOf(OrderLines(b.lines, ids), d.id), after.docs[d.Key()].value.status)
  {
    var a, docs, orders;
    parents, ids, a, docs, orders := ImportHasParts(store, b, at);
    OrderListed(b.docs, at, parents, d);
    OrderHasRow(docs, orders, d);
    LifecycleEnds(store.ledger, OrderRows(docs), a, after.ledger, orders, L.Po(d.id, d.status, d.content.confirmedAt, d.content.orderedAt, at));
  }

  /**
   After a successful import a stored order with any received quantity is `received` if all its stored lines
   are, counting what was cancelled, and otherwise `partially_received`.
   */
  lemma StatusIsTheRows(store: Store, s: Snapshot, at: int, after: Store, o: OrderRow, d: Doc)
    requires SoundStore(store) && DistinctRows(s) && Import(store, CandidatesOf(s), at) == Some(after)
    requires OrderKept(s, o) && OrderSays(d, o) && DocStored(CandidatesOf(s), after, d) && SomeReceived(CandidatesOf(s), after, d)
    ensures after.docs[d.Key()].value.status == (if AllReceived(CandidatesOf(s), after, d) then "received" else "partially_received")
  {
    CandidatesDistinct(s);
    var parents, ids := StatusAfter(store, CandidatesOf(s), at, after, d);
    StatusFromLines(CandidatesOf(s), after, parents, ids, d, after.docs[d.Key()].value.status);
  }
}
