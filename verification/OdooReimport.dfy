/** Importing the same candidates again, under another time. */
module OdooReimport {
  // It changes nothing at all exactly under three conditions that can be read off the store after the
  // first import.

  import opened Basics
  import opened QuantityLedger
  import opened OdooTables
  import opened OdooImport
  import opened OdooReposting
  import L = OdooLifecycle

  // ---- what was accepted can be read off the tables

  function OwnedIds(rows: Rows<Doc>, cs: seq<Doc>): set<string> {
    set c | c in cs && Owns(rows, c) :: c.id
  }

  function HeldIds(rows: Rows<Line>, parents: set<string>, cs: seq<Line>): set<string> {
    set c | c in cs && Held(rows, parents, c) :: c.id
  }

  lemma StampKeeps(rows: Rows<Doc>, c: Doc, at: int)
    ensures var d := Stamp(c, at);
            d.id == c.id && d.Key() == c.Key() && (Owns(rows, d) <==> Owns(rows, c)) && (Known(rows, d) <==> Known(rows, c))
            && (SettledDoc(rows, d) <==> SettledDoc(rows, c)) && (Stored(rows, d) <==> Stored(rows, c))
  {
    var d := Stamp(c, at);
    assert d.Ref() == c.Ref() && d.Business() == c.Business();
    assert Owns(rows, c) ==> Merged(rows[c.Key()].value, d, 0).Business() == Merged(rows[c.Key()].value, c, 0).Business();
    assert DocOutcome(rows, d) == DocOutcome(rows, c);
  }

  lemma {:induction false} OwnedStamped(rows: Rows<Doc>, cs: seq<Doc>, at: int)
    ensures OwnedIds(rows, Stamped(cs, at)) == OwnedIds(rows, cs)
    ensures AllSettledDocs(rows, Stamped(cs, at)) <==> AllSettledDocs(rows, cs)
  {
    if cs != [] {
      var front, c := cs[..|cs| - 1], cs[|cs| - 1];
      OwnedStamped(rows, front, at);
      StampKeeps(rows, c, at);
      OwnedLast(rows, cs);
      assert Stamped(cs, at)[..|cs| - 1] == Stamped(front, at);
      OwnedLast(rows, Stamped(cs, at));
    }
  }

  lemma OwnedLast(rows: Rows<Doc>, cs: seq<Doc>)
    requires cs != []
    ensures var front, c := cs[..|cs| - 1], cs[|cs| - 1];
            && OwnedIds(rows, cs) == OwnedIds(rows, front) + (if Owns(rows, c) then {c.id} else {})
            && (AllSettledDocs(rows, cs) <==> AllSettledDocs(rows, front) && SettledDoc(rows, c))
  {
    InFrontOrLast(cs);
  }

  lemma AcceptedAreOwned(rows: Rows<Doc>, cs: seq<Doc>, at: int)
    requires KeyedDocs(rows) && DistinctDocs(cs)
    ensures AcceptedDocs(rows, cs, at) == OwnedIds(AfterDocs(rows, cs, at), cs)
  {
    var rows', accepted := AfterDocs(rows, cs, at), AcceptedDocs(rows, cs, at);
    DocsLeft(rows, cs, at);
    AcceptedDocsAreCandidates(rows, cs, at);
    forall id | id in accepted ensures id in OwnedIds(rows', cs) {
      var c :| c in cs && c.id == id;
      assert DocLeft(rows', accepted, c);
    }
    forall c | c in cs && Owns(rows', c) ensures c.id in accepted {
      assert DocLeft(rows', accepted, c);
    }
  }

  lemma AcceptedAreHeld(rows: Rows<Line>, parents: set<string>, cs: seq<Line>)
    requires DistinctLines(cs) && AfterLines(rows, parents, cs).Some?
    ensures AcceptedLines(rows, parents, cs) == HeldIds(AfterLines(rows, parents, cs).value, parents, cs)
  {
    var rows', accepted := AfterLines(rows, parents, cs).value, AcceptedLines(rows, parents, cs);
    LinesLeft(rows, parents, cs);
    AcceptedLinesAreCandidates(rows, parents, cs);
    forall id | id in accepted ensures id in HeldIds(rows', parents, cs) {
      var c :| c in cs && c.id == id;
      assert LineLeft(rows', parents, accepted, c);
    }
    forall c | c in cs && Held(rows', parents, c) ensures c.id in accepted {
      assert LineLeft(rows', parents, accepted, c);
    }
  }

  // ---- stamping

  lemma {:induction false} StampedDistinct(cs: seq<Doc>, at: int)
    requires DistinctDocs(cs)
    ensures DistinctDocs(Stamped(cs, at))
  {
  }

  lemma {:induction false} OrdersRestamped(cs: seq<Doc>, ids: set<string>, t1: int, t2: int)
    ensures Orders(Stamped(cs, t2), ids) == RestampPos(Orders(Stamped(cs, t1), ids), t2)
    ensures SortedReceipts(Stamped(cs, t2), ids) == SortedReceipts(Stamped(cs, t1), ids)
  {
    if cs != [] {
      var front, c := cs[..|cs| - 1], cs[|cs| - 1];
      OrdersRestamped(front, ids, t1, t2);
      assert Stamped(cs, t1)[..|cs| - 1] == Stamped(front, t1) && Stamped(cs, t2)[..|cs| - 1] == Stamped(front, t2);
      if c.content.PurchaseOrder? && c.id in ids {
        var po := L.Po(c.id, c.status, c.content.confirmedAt, c.content.orderedAt, t1);
        var orders := Orders(Stamped(front, t1), ids);
        assert (orders + [po])[..|orders|] == orders;
      }
    }
  }

  lemma AcceptedRestamped(docs: seq<Doc>, lines: seq<Line>, docIds: set<string>, lineIds: set<string>, t1: int, t2: int)
    ensures AcceptedOf(Stamped(docs, t2), lines, docIds, lineIds, t2)
         == Restamp(AcceptedOf(Stamped(docs, t1), lines, docIds, lineIds, t1), t2)
  {
    OrdersRestamped(docs, docIds, t1, t2);
  }

  // ---- the accepted candidates are well named

  lemma {:induction false} OrdersNamed(cs: seq<Doc>, ids: set<string>)
    requires DistinctDocs(cs)
    ensures forall i, j :: 0 <= i < j < |Orders(cs, ids)| ==> Orders(cs, ids)[i].id != Orders(cs, ids)[j].id
    ensures forall po :: po in Orders(cs, ids) ==> exists c :: c in cs && c.content.PurchaseOrder? && c.id == po.id && c.id in ids
  {
    if cs != [] {
      var front, c := cs[..|cs| - 1], cs[|cs| - 1];
      LastDocIsNew(cs);
      OrdersNamed(front, ids);
      var orders := Orders(front, ids);
      forall po | po in Orders(cs, ids) ensures exists d :: d in cs && d.content.PurchaseOrder? && d.id == po.id && d.id in ids {
        if po in orders {
          var d :| d in front && d.content.PurchaseOrder? && d.id == po.id && d.id in ids;
          assert d in cs;
        } else {
          assert c in cs;
        }
      }
      forall i | 0 <= i < |orders| ensures orders[i].id != c.id {
        assert orders[i] in orders;
      }
    }
  }

  lemma InsertElements(r: L.Receipt, rs: seq<L.Receipt>)
    ensures |Insert(r, rs)| == |rs| + 1 && forall x :: x in Insert(r, rs) <==> x == r || x in rs
  {
    if rs != [] && Earlier(r, rs[|rs| - 1]) {
      InsertElements(r, rs[..|rs| - 1]);
      InFrontOrLast(rs);
    }
  }

  ghost predicate NamedReceipts(rs: seq<L.Receipt>) {
    forall i, j :: 0 <= i < j < |rs| ==> rs[i].id != rs[j].id
  }

  lemma {:induction false} InsertNamed(r: L.Receipt, rs: seq<L.Receipt>)
    requires NamedReceipts(rs) && forall x :: x in rs ==> x.id != r.id
    ensures NamedReceipts(Insert(r, rs))
  {
    if rs != [] && Earlier(r, rs[|rs| - 1]) {
      var front, last := rs[..|rs| - 1], rs[|rs| - 1];
      InFrontOrLast(rs);
      InsertNamed(r, front);
      InsertElements(r, front);
      forall i | 0 <= i < |Insert(r, front)| ensures Insert(r, front)[i].id != last.id {
        var x := Insert(r, front)[i];
        assert x in Insert(r, front);
        if x in front {
          var k :| 0 <= k < |front| && front[k] == x;
          assert rs[k].id != rs[|front|].id;
        }
      }
    }
  }

  lemma {:induction false} ReceiptsNamed(cs: seq<Doc>, ids: set<string>)
    requires DistinctDocs(cs)
    ensures NamedReceipts(SortedReceipts(cs, ids))
    ensures forall r :: r in SortedReceipts(cs, ids) ==> exists c :: c in cs && c.id == r.id
  {
    if cs != [] {
      var front, c := cs[..|cs| - 1], cs[|cs| - 1];
      LastDocIsNew(cs);
      ReceiptsNamed(front, ids);
      var rs := SortedReceipts(front, ids);
      forall x | x in rs ensures x.id != c.id {
        var d :| d in front && d.id == x.id;
      }
      if c.content.Receipt? && c.id in ids {
        var r := L.Receipt(c.id, c.content.po, c.content.receivedAt, c.updatedAt);
        InsertNamed(r, rs);
        InsertElements(r, rs);
      }
      forall r | r in SortedReceipts(cs, ids) ensures exists d :: d in cs && d.id == r.id {
        if r in rs {
          var d :| d in front && d.id == r.id;
          assert d in cs;
        } else {
          assert c in cs;
        }
      }
    }
  }

  lemma {:induction false} LinesNamed(cs: seq<Line>, ids: set<string>)
    requires DistinctLines(cs)
    ensures forall i, j :: 0 <= i < j < |OrderLines(cs, ids)| ==> OrderLines(cs, ids)[i].id != OrderLines(cs, ids)[j].id
    ensures forall i, j :: 0 <= i < j < |ReceivedLines(cs, ids)| ==> ReceivedLines(cs, ids)[i].id != ReceivedLines(cs, ids)[j].id
    ensures forall x :: x in OrderLines(cs, ids) ==> exists c :: c in cs && c.id == x.id
    ensures forall x :: x in ReceivedLines(cs, ids) ==> exists c :: c in cs && c.id == x.id
  {
    if cs != [] {
      var front, c := cs[..|cs| - 1], cs[|cs| - 1];
      LastLineIsNew(cs);
      LinesNamed(front, ids);
      var ordered, received := OrderLines(front, ids), ReceivedLines(front, ids);
      assert c in cs;
      forall x | x in ordered ensures x.id != c.id && exists d :: d in cs && d.id == x.id {
        var d :| d in front && d.id == x.id;
        assert d in cs;
      }
      forall x | x in received ensures x.id != c.id && exists d :: d in cs && d.id == x.id {
        var d :| d in front && d.id == x.id;
        assert d in cs;
      }
      forall i | 0 <= i < |ordered| ensures ordered[i].id != c.id {
        assert ordered[i] in ordered;
      }
      forall i | 0 <= i < |received| ensures received[i].id != c.id {
        assert received[i] in received;
      }
    }
  }

  lemma AcceptedWellNamed(docs: seq<Doc>, lines: seq<Line>, docIds: set<string>, lineIds: set<string>, at: int)
    requires DistinctDocs(docs) && DistinctLines(lines)
    ensures L.WellNamed(AcceptedOf(Stamped(docs, at), lines, docIds, lineIds, at))
  {
    StampedDistinct(docs, at);
    OrdersNamed(Stamped(docs, at), docIds);
    ReceiptsNamed(Stamped(docs, at), docIds);
    LinesNamed(lines, lineIds);
  }

  // ---- the tables after the first import

  /** The lifecycle gave every order row a version; it never touched anything but status and time. */
  lemma WithOrdersKeeps(rows: Rows<Doc>, orders: map<string, L.PoRow>, c: Doc)
    ensures Owns(WithOrders(rows, orders), c) <==> Owns(rows, c)
    ensures c.Key() in WithOrders(rows, orders) <==> c.Key() in rows
    ensures !c.content.PurchaseOrder? && c.Key() in rows ==> WithOrders(rows, orders)[c.Key()] == rows[c.Key()]
  {
  }

  lemma WithOrdersKeyed(rows: Rows<Doc>, orders: map<string, L.PoRow>)
    requires KeyedDocs(rows)
    ensures KeyedDocs(WithOrders(rows, orders))
  {
    var rows' := WithOrders(rows, orders);
    forall k | k in rows' ensures rows'[k].value.Key() == k && rows'[k].value.Ref() == rows[k].value.Ref() {
      assert rows[k].value.Key() == k;
    }
  }

  lemma OrdersRoundTrip(rows: Rows<Doc>, orders: map<string, L.PoRow>)
    requires orders.Keys == OrderRows(rows).Keys
    ensures OrderRows(WithOrders(rows, orders)) == orders
    ensures WithOrders(WithOrders(rows, orders), orders) == WithOrders(rows, orders)
  {
    var rows' := WithOrders(rows, orders);
    forall id | id in orders ensures id in OrderRows(rows') && OrderRows(rows')[id] == orders[id] {
      assert id in OrderRows(rows);
      assert (PurchaseOrders, id) in rows';
    }
    forall id | id in OrderRows(rows') ensures id in orders {
      assert (PurchaseOrders, id) in rows;
      assert id in OrderRows(rows);
    }
  }

  lemma WithOrdersGrows(rows: Rows<Doc>, orders: map<string, L.PoRow>)
    requires RowsGrow(OrderRows(rows), orders)
    ensures Grows(rows, WithOrders(rows, orders))
  {
    var rows' := WithOrders(rows, orders);
    forall k | k in rows
      ensures k in rows' && rows[k].version <= rows'[k].version && (rows[k].version == rows'[k].version ==> rows[k] == rows'[k])
    {
      if k.0 == PurchaseOrders {
        assert k.1 in OrderRows(rows);
      }
    }
  }

  /** The lifecycle leaves a status alone or sets one of its own two. */
  ghost predicate OnlyDerived(rows: map<string, L.PoRow>, rows': map<string, L.PoRow>) {
    rows'.Keys == rows.Keys && forall id :: id in rows ==> rows'[id].status in {rows[id].status, L.PARTLY, L.RECEIVED}
  }

  lemma {:induction false} DerivingOnly(rows: map<string, L.PoRow>, l: Ledger, a: L.Accepted, pos: seq<L.Po>)
    requires L.DeriveAll(rows, l, a, pos).Some?
    ensures OnlyDerived(rows, L.DeriveAll(rows, l, a, pos).value)
  {
    if pos != [] {
      DerivingOnly(rows, l, a, pos[..|pos| - 1]);
    }
  }

  // ---- the conditions

  /** An order keeps its status, and a refused document has its reason left. */
  predicate AtRest(rows: Rows<Doc>, c: Doc) {
    if Owns(rows, c) then c.content.PurchaseOrder? ==> c.status == CONFIRMED || rows[c.Key()].value.status == c.status
    else Known(rows, c) || c.Key() in rows || NumberTaken(rows, c)
  }

  ghost predicate DocsAtRest(rows: Rows<Doc>, cs: seq<Doc>) {
    forall c {:trigger AtRest(rows, c)} :: c in cs ==> AtRest(rows, c)
  }

  /** A line that is not stored though its document is has its number still taken. */
  predicate LineAtRest(rows: Rows<Line>, parents: set<string>, c: Line) {
    c.document in parents && c.Key() !in rows ==> PlaceTaken(rows, c)
  }

  ghost predicate LinesAtRest(rows: Rows<Line>, parents: set<string>, cs: seq<Line>) {
    forall c {:trigger LineAtRest(rows, parents, c)} :: c in cs ==> LineAtRest(rows, parents, c)
  }

  /** The candidates of the batch as stored, under the time of another import. */
  function Again(s: Store, b: Batch, at: int): L.Accepted {
    var parents := OwnedIds(s.docs, b.docs);
    AcceptedOf(Stamped(b.docs, at), b.lines, parents, HeldIds(s.lines, parents, b.lines), at)
  }

  ghost predicate Settled(s: Store, b: Batch, at: int) {
    && DocsAtRest(s.docs, b.docs)
    && LinesAtRest(s.lines, OwnedIds(s.docs, b.docs), b.lines)
    && NoLineShort(s.ledger, Again(s, b, at))
  }

  lemma RestIsSettled(rows: Rows<Doc>, orders: map<string, L.PoRow>, c: Doc)
    requires OnlyDerived(OrderRows(rows), orders)
    requires Owns(rows, c) ==> Stored(rows, c)
    ensures SettledDoc(WithOrders(rows, orders), c) <==> AtRest(WithOrders(rows, orders), c)
  {
    var rows' := WithOrders(rows, orders);
    WithOrdersKeeps(rows, orders, c);
    if Owns(rows, c) {
      assert Known(rows', c);
      if c.content.PurchaseOrder? {
        assert c.id in OrderRows(rows);
      }
    }
  }

  lemma HeldIsSettled(rows: Rows<Line>, parents: set<string>, c: Line)
    requires Held(rows, parents, c) || Turned(rows, parents, c)
    ensures SettledLine(rows, parents, c) <==> LineAtRest(rows, parents, c)
  {
  }

  ghost predicate OwnedAreStored(rows: Rows<Doc>, cs: seq<Doc>) {
    forall c {:trigger Owns(rows, c)} :: c in cs && Owns(rows, c) ==> Stored(rows, c)
  }

  lemma LeftMeansStored(rows: Rows<Doc>, accepted: set<string>, cs: seq<Doc>, at: int)
    requires AllDocsLeft(rows, accepted, Stamped(cs, at))
    ensures OwnedAreStored(rows, cs)
  {
    forall c | c in cs && Owns(rows, c) ensures Stored(rows, c) {
      var i :| 0 <= i < |cs| && cs[i] == c;
      assert Stamped(cs, at)[i] in Stamped(cs, at);
      assert DocLeft(rows, accepted, Stamp(c, at));
      StampKeeps(rows, c, at);
    }
  }

  lemma RestingDocs(rows: Rows<Doc>, orders: map<string, L.PoRow>, cs: seq<Doc>)
    requires OnlyDerived(OrderRows(rows), orders) && OwnedAreStored(rows, cs)
    ensures AllSettledDocs(WithOrders(rows, orders), cs) <==> DocsAtRest(WithOrders(rows, orders), cs)
  {
    forall c | c in cs ensures SettledDoc(WithOrders(rows, orders), c) <==> AtRest(WithOrders(rows, orders), c) {
      RestIsSettled(rows, orders, c);
    }
  }

  lemma OwnedWithOrders(rows: Rows<Doc>, orders: map<string, L.PoRow>, cs: seq<Doc>)
    ensures OwnedIds(WithOrders(rows, orders), cs) == OwnedIds(rows, cs)
  {
    forall c | c in cs ensures Owns(WithOrders(rows, orders), c) <==> Owns(rows, c) {
      WithOrdersKeeps(rows, orders, c);
    }
  }

  lemma RestingLines(rows: Rows<Line>, parents: set<string>, accepted: set<string>, cs: seq<Line>)
    requires AllLinesLeft(rows, parents, accepted, cs)
    ensures AllSettledLines(rows, parents, cs) <==> LinesAtRest(rows, parents, cs)
  {
    forall c | c in cs ensures SettledLine(rows, parents, c) <==> LineAtRest(rows, parents, c) {
      assert LineLeft(rows, parents, accepted, c);
      HeldIsSettled(rows, parents, c);
    }
  }

  // ---- the two imports

  /** The steps of a successful import, named. */
  lemma ImportParts(s: Store, b: Batch, at: int)
    returns (docs: Rows<Doc>, parents: set<string>, lines: Rows<Line>, a: L.Accepted, ledger: Ledger, orders: map<string, L.PoRow>)
    requires Import(s, b, at).Some?
    ensures docs == AfterDocs(s.docs, Stamped(b.docs, at), at) && parents == AcceptedDocs(s.docs, Stamped(b.docs, at), at)
    ensures AfterLines(s.lines, parents, b.lines) == Some(lines)
    ensures a == AcceptedOf(Stamped(b.docs, at), b.lines, parents, AcceptedLines(s.lines, parents, b.lines), at)
    ensures L.PostAll(s.ledger, a) == Some(ledger) && L.DeriveAll(OrderRows(docs), ledger, a, a.pos) == Some(orders)
    ensures Import(s, b, at).value
         == Store(WithOrders(docs, orders), lines, ledger, s.stages + ConfirmedStages(a.pos) + ArrivalStages(ledger, a, a.pos))
  {
    var cs := Stamped(b.docs, at);
    docs, parents := AfterDocs(s.docs, cs, at), AcceptedDocs(s.docs, cs, at);
    lines := AfterLines(s.lines, parents, b.lines).value;
    a := AcceptedOf(cs, b.lines, parents, AcceptedLines(s.lines, parents, b.lines), at);
    ledger, orders := L.Lifecycle(s.ledger, OrderRows(docs), a).value.0, L.Lifecycle(s.ledger, OrderRows(docs), a).value.1;
  }

  lemma ImportIs(s: Store, b: Batch, at: int, docs: Rows<Doc>, parents: set<string>, lines: Rows<Line>,
                 a: L.Accepted, ledger: Ledger, orders: map<string, L.PoRow>)
    requires docs == AfterDocs(s.docs, Stamped(b.docs, at), at) && parents == AcceptedDocs(s.docs, Stamped(b.docs, at), at)
    requires AfterLines(s.lines, parents, b.lines) == Some(lines)
    requires a == AcceptedOf(Stamped(b.docs, at), b.lines, parents, AcceptedLines(s.lines, parents, b.lines), at)
    requires L.PostAll(s.ledger, a) == Some(ledger) && L.DeriveAll(OrderRows(docs), ledger, a, a.pos) == Some(orders)
    ensures Import(s, b, at)
         == Some(Store(WithOrders(docs, orders), lines, ledger, s.stages + ConfirmedStages(a.pos) + ArrivalStages(ledger, a, a.pos)))
  {
    assert L.Lifecycle(s.ledger, OrderRows(docs), a) == Some((ledger, orders));
  }

  ghost predicate SoundStore(s: Store) {
    KeyedDocs(s.docs) && KeyedLines(s.lines) && LedgerInv(s.ledger)
  }

  ghost predicate DistinctBatch(b: Batch) {
    DistinctDocs(b.docs) && DistinctLines(b.lines)
  }

  /** Every order of the accepted candidates has a row, so its status was derived and its lines load. */
  lemma OrdersHaveRows(docs: Rows<Doc>, b: Batch, at: int, lineIds: set<string>)
    requires DistinctBatch(b)
    ensures var a := AcceptedOf(Stamped(b.docs, at), b.lines, OwnedIds(docs, b.docs), lineIds, at);
            forall po :: po in a.pos ==> po.id in OrderRows(docs)
  {
    var cs := Stamped(b.docs, at);
    StampedDistinct(b.docs, at);
    OwnedStamped(docs, b.docs, at);
    OrdersNamed(cs, OwnedIds(docs, cs));
    forall po | po in Orders(cs, OwnedIds(docs, cs)) ensures po.id in OrderRows(docs) {
      var c :| c in cs && c.content.PurchaseOrder? && c.id == po.id && c.id in OwnedIds(docs, cs);
      var d :| d in cs && Owns(docs, d) && d.id == c.id;
      SameIdSameDoc(cs, c, d);
      assert (PurchaseOrders, po.id) in docs;
    }
  }

  lemma SameIdSameDoc(cs: seq<Doc>, c: Doc, d: Doc)
    requires DistinctDocs(cs) && c in cs && d in cs && c.id == d.id
    ensures c == d
  {
    var i :| 0 <= i < |cs| && cs[i] == c;
    var j :| 0 <= j < |cs| && cs[j] == d;
  }

  lemma StatusesMeanLoadable(rows: map<string, L.PoRow>, l: Ledger, a: L.Accepted)
    requires L.DeriveAll(rows, l, a, a.pos).Some? && L.DistinctPos(a.pos)
    requires forall po :: po in a.pos ==> po.id in rows
    ensures AllLoadable(l, a)
    ensures forall at :: L.DeriveAll(L.DeriveAll(rows, l, a, a.pos).value, l, Restamp(a, at), RestampPos(a.pos, at))
                      == L.DeriveAll(rows, l, a, a.pos)
  {
    var rows' := L.DeriveAll(rows, l, a, a.pos).value;
    L.StatusesDerived(rows, l, a, a.pos);
    forall po | po in a.pos ensures L.Loadable(l, L.LinesOf(a.poLines, po.id)) {
      assert L.StatusDerived(rows, rows', l, a, po);
    }
    forall at ensures L.DeriveAll(rows', l, Restamp(a, at), RestampPos(a.pos, at)) == Some(rows') {
      DerivingAgain(rows, rows', l, a, a.pos, at);
    }
  }

  lemma {:induction false} SameStages(l: Ledger, a: L.Accepted, pos: seq<L.Po>, at: int)
    ensures ConfirmedStages(RestampPos(pos, at)) == ConfirmedStages(pos)
    ensures ArrivalStages(l, Restamp(a, at), RestampPos(pos, at)) == ArrivalStages(l, a, pos)
  {
    if pos != [] {
      var front, last := pos[..|pos| - 1], pos[|pos| - 1];
      SameStages(l, a, front, at);
      assert RestampPos(pos, at)[..|pos| - 1] == RestampPos(front, at);
      SameDerivation(l, last, at, L.LinesOf(a.poLines, last.id));
    }
  }

  /** The store after one import, seen from the next one: the same candidates are accepted again. */
  lemma AfterFirst(s: Store, b: Batch, t1: int, t2: int)
    requires SoundStore(s) && DistinctBatch(b) && Import(s, b, t1).Some?
    ensures var s1 := Import(s, b, t1).value; var a2 := Again(s1, b, t2);
            && SoundStore(s1)
            && (AllSettledDocs(s1.docs, b.docs) <==> DocsAtRest(s1.docs, b.docs))
            && (AllSettledLines(s1.lines, OwnedIds(s1.docs, b.docs), b.lines) <==> LinesAtRest(s1.lines, OwnedIds(s1.docs, b.docs), b.lines))
            && (L.PostAll(s1.ledger, a2) == Some(s1.ledger) <==> NoLineShort(s1.ledger, a2))
            && L.DeriveAll(OrderRows(s1.docs), s1.ledger, a2, a2.pos) == Some(OrderRows(s1.docs))
            && WithOrders(s1.docs, OrderRows(s1.docs)) == s1.docs
            && ConfirmedStages(a2.pos) <= s1.stages && ArrivalStages(s1.ledger, a2, a2.pos) <= s1.stages
  {
    var docs, parents, lines, a, ledger, orders := ImportParts(s, b, t1);
    var cs := Stamped(b.docs, t1);
    StampedDistinct(b.docs, t1);
    // documents
    DocsLeft(s.docs, cs, t1);
    AcceptedAreOwned(s.docs, cs, t1);
    OwnedStamped(docs, b.docs, t1);
    LeftMeansStored(docs, parents, b.docs, t1);
    DerivingOnly(OrderRows(docs), ledger, a, a.pos);
    RestingDocs(docs, orders, b.docs);
    WithOrdersKeyed(docs, orders);
    OwnedWithOrders(docs, orders, b.docs);
    OrdersRoundTrip(docs, orders);
    // lines
    LinesGrow(s.lines, parents, b.lines);
    LinesLeft(s.lines, parents, b.lines);
    AcceptedAreHeld(s.lines, parents, b.lines);
    RestingLines(lines, parents, AcceptedLines(s.lines, parents, b.lines), b.lines);
    // ledger and statuses
    AcceptedWellNamed(b.docs, b.lines, parents, AcceptedLines(s.lines, parents, b.lines), t1);
    AcceptedRestamped(b.docs, b.lines, parents, AcceptedLines(s.lines, parents, b.lines), t1, t2);
    L.PostAllKeeps(s.ledger, a);
    OrdersHaveRows(docs, b, t1, AcceptedLines(s.lines, parents, b.lines));
    StatusesMeanLoadable(OrderRows(docs), ledger, a);
    RepostingIsQuiet(s.ledger, a, t2);
    SameStages(ledger, a, a.pos, t2);
  }

  /** Where every candidate is settled, the upserts accept what the tables hold and write nothing. */
  lemma SettledTables(s1: Store, b: Batch, at: int)
    requires SoundStore(s1) && DistinctBatch(b)
    requires AllSettledDocs(s1.docs, b.docs) && AllSettledLines(s1.lines, OwnedIds(s1.docs, b.docs), b.lines)
    ensures AfterDocs(s1.docs, Stamped(b.docs, at), at) == s1.docs
    ensures var parents := AcceptedDocs(s1.docs, Stamped(b.docs, at), at);
            && AfterLines(s1.lines, parents, b.lines) == Some(s1.lines)
            && Again(s1, b, at) == AcceptedOf(Stamped(b.docs, at), b.lines, parents, AcceptedLines(s1.lines, parents, b.lines), at)
  {
    var cs := Stamped(b.docs, at);
    StampedDistinct(b.docs, at);
    OwnedStamped(s1.docs, b.docs, at);
    DocsUnchanged(s1.docs, cs, at);
    AcceptedAreOwned(s1.docs, cs, at);
    var parents := OwnedIds(s1.docs, b.docs);
    LinesUnchanged(s1.lines, parents, b.lines);
    AcceptedAreHeld(s1.lines, parents, b.lines);
  }

  /** Importing the batch into a store where every table is settled gives the store back. */
  lemma SettledStaysPut(s1: Store, b: Batch, at: int)
    requires SoundStore(s1) && DistinctBatch(b)
    requires AllSettledDocs(s1.docs, b.docs) && AllSettledLines(s1.lines, OwnedIds(s1.docs, b.docs), b.lines)
    requires var a := Again(s1, b, at);
             && L.PostAll(s1.ledger, a) == Some(s1.ledger)
             && L.DeriveAll(OrderRows(s1.docs), s1.ledger, a, a.pos) == Some(OrderRows(s1.docs))
             && WithOrders(s1.docs, OrderRows(s1.docs)) == s1.docs
             && ConfirmedStages(a.pos) <= s1.stages && ArrivalStages(s1.ledger, a, a.pos) <= s1.stages
    ensures Import(s1, b, at) == Some(s1)
  {
    SettledTables(s1, b, at);
    var a, parents := Again(s1, b, at), AcceptedDocs(s1.docs, Stamped(b.docs, at), at);
    ImportIs(s1, b, at, s1.docs, parents, s1.lines, a, s1.ledger, OrderRows(s1.docs));
    StagesAlreadyThere(s1.stages, ConfirmedStages(a.pos), ArrivalStages(s1.ledger, a, a.pos));
  }

  lemma StagesAlreadyThere(stages: set<Stage>, a: set<Stage>, b: set<Stage>)
    requires a <= stages && b <= stages
    ensures stages + a + b == stages
  {
  }

  /** An import that gives the store back changed no table in any of its steps. */
  lemma PutMeansSettled(s1: Store, b: Batch, at: int)
    requires SoundStore(s1) && DistinctBatch(b) && Import(s1, b, at) == Some(s1)
    ensures AllSettledDocs(s1.docs, b.docs) && AllSettledLines(s1.lines, OwnedIds(s1.docs, b.docs), b.lines)
    ensures L.PostAll(s1.ledger, Again(s1, b, at)) == Some(s1.ledger)
  {
    var docs, parents, lines, a, ledger, orders := ImportParts(s1, b, at);
    var cs := Stamped(b.docs, at);
    StampedDistinct(b.docs, at);
    DocsGrow(s1.docs, cs, at);
    DerivingGrows(OrderRows(docs), ledger, a, a.pos);
    WithOrdersGrows(docs, orders);
    GrowsBothWays(s1.docs, docs);
    DocsUnchanged(s1.docs, cs, at);
    AcceptedAreOwned(s1.docs, cs, at);
    OwnedStamped(s1.docs, b.docs, at);
    LinesUnchanged(s1.lines, parents, b.lines);
    AcceptedAreHeld(s1.lines, parents, b.lines);
  }

  /**
   Importing the same candidates again changes nothing, neither a document or line version nor the
   ledger nor a stage, exactly if: each stored order is confirmed in Odoo or has the status it has
   there; each refused document and line still meets a reason to be refused; and no line of a
   confirmed order is short of its confirmation.
   */
  lemma ReimportIsNoOp(s: Store, b: Batch, t1: int, t2: int)
    requires SoundStore(s) && DistinctBatch(b) && Import(s, b, t1).Some?
    ensures var s1 := Import(s, b, t1).value;
            Import(s1, b, t2) == Some(s1) <==> Settled(s1, b, t2)
  {
    var s1 := Import(s, b, t1).value;
    AfterFirst(s, b, t1, t2);
    if Settled(s1, b, t2) {
      SettledStaysPut(s1, b, t2);
    }
    if Import(s1, b, t2) == Some(s1) {
      PutMeansSettled(s1, b, t2);
    }
  }

  // ---- an import that is not a no-op the second time

  const STORED_INVOICE := Doc("invoice:odoo:1", "odoo", "account.move:1", "received", 0, 0, Invoice("supplier:odoo:1", "A"), "")
  const TWIN_INVOICE := Doc("invoice:odoo:2", "odoo", "account.move:2", "received", 0, 0, Invoice("supplier:odoo:1", "A"), "")
  const RENUMBERED := STORED_INVOICE.(content := Invoice("supplier:odoo:1", "B"))

  const TWIN_BATCH := [TWIN_INVOICE, RENUMBERED]
  const WITH_INVOICE: Rows<Doc> := map[STORED_INVOICE.Key() := Row(1, STORED_INVOICE)]
  const WITH_NUMBER_FREED: Rows<Doc> := map[STORED_INVOICE.Key() := Row(2, Merged(STORED_INVOICE, RENUMBERED, 1))]

  lemma {:induction false} TwoDocs(rows: Rows<Doc>, c: Doc, d: Doc, at: int)
    ensures AfterDocs(rows, [c, d], at) == AfterDoc(AfterDoc(rows, c, at), d, at)
  {
    var one, two := [c], [c, d];
    assert two[..1] == one && one[..0] == [];
    assert AfterDocs(rows, one, at) == AfterDoc(AfterDocs(rows, one[..0], at), c, at);
  }

  lemma {:induction false} TwinIsRefused()
    ensures DocOutcome(WITH_INVOICE, TWIN_INVOICE) == Skipped("DUPLICATE_INVOICE_IDENTITY")
    ensures AfterDoc(WITH_INVOICE, RENUMBERED, 1) == WITH_NUMBER_FREED
  {
    assert WITH_INVOICE[STORED_INVOICE.Key()].value.content == TWIN_INVOICE.content;
    assert Owns(WITH_INVOICE, RENUMBERED);
  }

  lemma {:induction false} TwinIsStored()
    ensures !AtRest(WITH_NUMBER_FREED, TWIN_INVOICE) && DocOutcome(WITH_NUMBER_FREED, TWIN_INVOICE) == Created
  {
  }

  /**
   An invoice is refused because its number is taken; later in the same snapshot the number is given
   up; so the next import of the same snapshot stores it.
   */
  lemma {:induction false} RefusedInvoiceIsStoredLater()
    ensures KeyedDocs(WITH_INVOICE) && DistinctDocs(TWIN_BATCH)
    ensures DocOutcome(WITH_INVOICE, TWIN_INVOICE) == Skipped("DUPLICATE_INVOICE_IDENTITY")
    ensures var rows1 := AfterDocs(WITH_INVOICE, TWIN_BATCH, 1);
            TWIN_INVOICE.Key() !in rows1 && !AtRest(rows1, TWIN_INVOICE) && TWIN_INVOICE.Key() in AfterDocs(rows1, TWIN_BATCH, 2)
  {
    TwoDocs(WITH_INVOICE, TWIN_INVOICE, RENUMBERED, 1);
    TwoDocs(WITH_NUMBER_FREED, TWIN_INVOICE, RENUMBERED, 2);
    TwinIsRefused();
    TwinIsStored();
    DocGrows(AfterDoc(WITH_NUMBER_FREED, TWIN_INVOICE, 2), RENUMBERED, 2);
  }
}
