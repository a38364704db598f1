/**
 What an import may do to a stored document, field by field: which row it writes, that Odoo's `confirmed`
 never takes an order back that has gone further here, and which stage events it adds.
 */
module OdooStatuses {
  import opened Basics
  import opened QuantityLedger
  import opened OdooTables
  import opened OdooImport
  import opened OdooCandidates
  import opened OdooReimport
  import opened OdooSnapshot
  import opened OdooFields
  import opened OdooTallies
  import opened OdooArrivals
  import L = OdooLifecycle

  // ---- one document

  /** Statuses an order reaches here after it was confirmed. */
  predicate GoneFurther(status: string) {
    || status == "in_production" || status == "awaiting_shipment" || status == "partially_shipped"
    || status == "shipped" || status == "partially_received" || status == "received"
  }

  /** The status a candidate brings to the stored document. */
  predicate Brings(stored: string, c: Doc, status: string) {
    if c.content.PurchaseOrder? && c.status == "confirmed" && GoneFurther(stored) then status == stored else status == c.status
  }

  /** The foreign object of the candidate is not in the table under any id. */
  ghost predicate Foreign(rows: Rows<Doc>, c: Doc) {
    forall k :: k in rows ==>
      rows[k].value.Kind() != c.Kind() || rows[k].value.system != c.system || rows[k].value.external != c.external
  }

  ghost predicate NumberFree(rows: Rows<Doc>, c: Doc) {
    c.content.Invoice? ==> forall k :: k in rows && rows[k].value.content.Invoice? ==>
      rows[k].value.content.supplier != c.content.supplier || rows[k].value.content.number != c.content.number
  }

  /** The document is there as its own: under its id, for its foreign object. */
  predicate IsOwn(rows: Rows<Doc>, c: Doc) {
    c.Key() in rows && var stored := rows[c.Key()].value;
    stored.Kind() == c.Kind() && stored.system == c.system && stored.external == c.external
  }

  /**
   A new document is stored as it is, if its id, its foreign object and its invoice number are free. One that
   is there takes over the candidate's fields but keeps its creation time, with a new version and time only
   if something changed. Anything else leaves the table alone.
   */
  lemma UpsertExactly(rows: Rows<Doc>, c: Doc, at: int)
    ensures var rows', key := AfterDoc(rows, c, at), c.Key();
            && (Foreign(rows, c) && key !in rows && NumberFree(rows, c) ==> rows' == rows[key := Row(1, c)])
            && (IsOwn(rows, c) ==>
                  && rows'.Keys == rows.Keys && OneRow(rows, rows', key, if rows' == rows then Unchanged else Updated)
                  && var stored, now := rows[key].value, rows'[key].value;
                  && now.id == c.id && now.content == c.content && now.details == c.details && now.createdAt == stored.createdAt
                  && Brings(stored.status, c, now.status)
                  && (rows' != rows ==> now.updatedAt == at))
            && (!IsOwn(rows, c) && !(Foreign(rows, c) && key !in rows && NumberFree(rows, c)) ==> rows' == rows)
  {
    assert IsOwn(rows, c) <==> Owns(rows, c);
    assert Foreign(rows, c) <==> !Known(rows, c);
    assert NumberFree(rows, c) <==> !NumberTaken(rows, c);
  }

  lemma {:induction false} OwnEnds(rows: Rows<Doc>, cs: seq<Doc>, at: int, c: Doc)
    requires DistinctDocs(cs) && c in cs && IsOwn(rows, c)
    ensures var rows' := AfterDocs(rows, cs, at); c.Key() in rows' && Brings(rows[c.Key()].value.status, c, rows'[c.Key()].value.status)
  {
    var front, last := cs[..|cs| - 1], cs[|cs| - 1];
    LastDocIsNew(cs);
    if c == last {
      OtherDocsStay(rows, front, at, c.Key());
      UpsertExactly(AfterDocs(rows, front, at), c, at);
    } else {
      OwnEnds(rows, front, at, c);
      OtherRowStays(AfterDocs(rows, front, at), last, at, c.Key());
    }
  }

  lemma OtherRowStays(rows: Rows<Doc>, c: Doc, at: int, key: Key)
    requires key in rows && c.Key() != key
    ensures key in AfterDoc(rows, c, at) && AfterDoc(rows, c, at)[key] == rows[key]
  {
  }

  // ---- orders do not fall back

  lemma StatusAfterwards(docs: Rows<Doc>, orders: map<string, L.PoRow>, key: Key)
    requires key in docs && OnlyDerived(OrderRows(docs), orders)
    ensures key in WithOrders(docs, orders)
    ensures WithOrders(docs, orders)[key].value.status in {docs[key].value.status, "partially_received", "received"}
  {
    if key.0 == PurchaseOrders {
      assert key.1 in OrderRows(docs);
    }
  }

  lemma BatchKeepsStatus(store: Store, b: Batch, at: int, after: Store, d: Doc)
    requires DistinctDocs(b.docs) && Import(store, b, at) == Some(after)
    requires d in b.docs && d.content.PurchaseOrder? && d.status == "confirmed"
    requires IsOwn(store.docs, d) && GoneFurther(store.docs[d.Key()].value.status)
    ensures d.Key() in after.docs
    ensures after.docs[d.Key()].value.status in {store.docs[d.Key()].value.status, "partially_received", "received"}
  {
    var docs, parents, lines, a, ledger, orders := ImportParts(store, b, at);
    StampedDistinct(b.docs, at);
    StampedIn(b.docs, at, d);
    OwnEnds(store.docs, Stamped(b.docs, at), at, Stamp(d, at));
    DerivingOnly(OrderRows(docs), ledger, a, a.pos);
    StatusAfterwards(docs, orders, d.Key());
  }

  /**
   An order that Odoo still holds as `purchase` or `done`, and that has gone further here, keeps its status
   through every import or moves to the one its receipts say.
   */
  lemma ConfirmedNeverFallsBack(store: Store, s: Snapshot, at: int, after: Store, o: OrderRow, d: Doc)
    requires DistinctRows(s) && Import(store, CandidatesOf(s), at) == Some(after)
    requires OrderKept(s, o) && o.state in {"purchase", "done"} && OrderSays(d, o)
    requires IsOwn(store.docs, d) && GoneFurther(store.docs[d.Key()].value.status)
    ensures d.Key() in after.docs
    ensures after.docs[d.Key()].value.status in {store.docs[d.Key()].value.status, "partially_received", "received"}
  {
    CandidatesDistinct(s);
    DocsAreTheRows(s);
    BatchKeepsStatus(store, CandidatesOf(s), at, after, d);
  }

  // ---- stage events

  ghost predicate ConfirmsAt(pos: seq<L.Po>, st: Stage) {
    st.OrderConfirmed? && exists po :: po in pos && po.id == st.po && po.status == "confirmed" && po.confirmedAt == Some(st.at)
  }

  lemma {:induction false} ConfirmedStagesAre(pos: seq<L.Po>, st: Stage)
    ensures st in ConfirmedStages(pos) <==> ConfirmsAt(pos, st)
  {
    if pos != [] {
      var front, po := pos[..|pos| - 1], pos[|pos| - 1];
      ConfirmedStagesAre(front, st);
      InFrontOrLast(pos);
      assert ConfirmsAt(pos, st) <==>
               || ConfirmsAt(front, st)
               || (st.OrderConfirmed? && po.id == st.po && po.status == "confirmed" && po.confirmedAt == Some(st.at));
    }
  }

  predicate ArrivalOf(st: Stage, po: string, receipt: L.Receipt, complete: bool) {
    || st == InTransit(po, receipt.id, receipt.updatedAt, complete)
    || st == AtWarehouse(po, receipt.id, receipt.updatedAt, complete)
  }

  /** Each receipt has arrived, and only the last one of a complete order completes it. */
  ghost predicate ArrivesBy(po: string, receipts: seq<L.Receipt>, complete: bool, st: Stage) {
    exists i :: 0 <= i < |receipts| && ArrivalOf(st, po, receipts[i], complete && i == |receipts| - 1)
  }

  lemma {:induction false} ReceiptStagesAre(po: string, receipts: seq<L.Receipt>, complete: bool, st: Stage)
    ensures st in ReceiptStages(po, receipts, complete) <==> ArrivesBy(po, receipts, complete, st)
  {
    if receipts != [] {
      var front, n := receipts[..|receipts| - 1], |receipts| - 1;
      ReceiptStagesAre(po, front, false, st);
      if i :| 0 <= i < |front| && ArrivalOf(st, po, front[i], false && i == |front| - 1) {
        assert ArrivalOf(st, po, receipts[i], complete && i == n);
      }
      if i :| 0 <= i < |receipts| && ArrivalOf(st, po, receipts[i], complete && i == n) {
        if i < n {
          assert ArrivalOf(st, po, front[i], false && i == |front| - 1);
        }
      }
      if ArrivalOf(st, po, receipts[n], complete) {
        assert ArrivalOf(st, po, receipts[n], complete && n == |receipts| - 1);
      }
    }
  }

  ghost predicate ArrivesAmong(l: Ledger, a: L.Accepted, pos: seq<L.Po>, st: Stage) {
    exists po :: po in pos && ArrivesFor(l, a, po, st)
  }

  /** The order's status is derived from its lines, and the event is one of its receipts. */
  ghost predicate ArrivesFor(l: Ledger, a: L.Accepted, po: L.Po, st: Stage) {
    var derived := L.DeriveStatus(l, po, L.LinesOf(a.poLines, po.id));
    derived.Becomes? && ArrivesBy(po.id, L.ReceiptsOf(a.receipts, po.id), derived.status == "received", st)
  }

  lemma {:induction false} ArrivalStagesAre(l: Ledger, a: L.Accepted, pos: seq<L.Po>, st: Stage)
    ensures st in ArrivalStages(l, a, pos) <==> ArrivesAmong(l, a, pos, st)
  {
    if pos != [] {
      var front, po := pos[..|pos| - 1], pos[|pos| - 1];
      ArrivalStagesAre(l, a, front, st);
      InFrontOrLast(pos);
      var derived := L.DeriveStatus(l, po, L.LinesOf(a.poLines, po.id));
      if derived.Becomes? {
        ReceiptStagesAre(po.id, L.ReceiptsOf(a.receipts, po.id), derived.status == "received", st);
      }
      assert ArrivesAmong(l, a, pos, st) <==> ArrivesAmong(l, a, front, st) || ArrivesFor(l, a, po, st);
    }
  }

  /** Exactly the stage events a successful import adds: confirmations as Odoo dates them, and the receipts of orders it derived a status for. */
  lemma StagesAdded(store: Store, b: Batch, at: int, after: Store, st: Stage) returns (parents: set<string>, ids: set<string>, a: L.Accepted)
    requires SoundStore(store) && DistinctBatch(b) && Import(store, b, at) == Some(after)
    ensures TakesExactly(b, after, parents, ids) && a == AcceptedOf(Stamped(b.docs, at), b.lines, parents, ids, at)
    ensures st in after.stages <==> st in store.stages || ConfirmsAt(a.pos, st) || ArrivesAmong(after.ledger, a, a.pos, st)
  {
    var docs, orders;
    parents, ids, a, docs, orders := ImportHasParts(store, b, at);
    ConfirmedStagesAre(a.pos, st);
    ArrivalStagesAre(after.ledger, a, a.pos, st);
  }

  // ---- the order of receipts, and the time of a derived status

  /** A proper prefix, or the first difference is in its favour. */
  ghost predicate ComesBefore(a: string, b: string) {
    a < b || exists i :: 0 <= i < |a| && i < |b| && a[..i] == b[..i] && a[i] < b[i]
  }

  lemma CommonPrefixStarts(a: string, b: string)
    requires a != [] && b != []
    ensures forall i :: 0 < i <= |a| && i <= |b| && a[..i] == b[..i] ==> a[0] == b[0]
  {
    forall i | 0 < i <= |a| && i <= |b| && a[..i] == b[..i] ensures a[0] == b[0] {
      assert a[..i][0] == b[..i][0];
    }
  }

  lemma {:induction false} IdBeforeIs(a: string, b: string)
    ensures IdBefore(a, b) <==> ComesBefore(a, b)
  {
    if a != [] && b != [] && a[0] == b[0] {
      IdBeforeIs(a[1..], b[1..]);
      assert a == [a[0]] + a[1..] && b == [b[0]] + b[1..];
      if i :| 0 <= i < |a[1..]| && i < |b[1..]| && a[1..][..i] == b[1..][..i] && a[1..][i] < b[1..][i] {
        assert a[..i + 1] == [a[0]] + a[1..][..i] && b[..i + 1] == [b[0]] + b[1..][..i];
        assert a[i + 1] < b[i + 1];
      }
      if i :| 0 <= i < |a| && i < |b| && a[..i] == b[..i] && a[i] < b[i] {
        assert a[1..][..i - 1] == a[..i][1..] && b[1..][..i - 1] == b[..i][1..];
        assert a[1..][i - 1] < b[1..][i - 1];
      }
    } else if a != [] && b != [] {
      CommonPrefixStarts(a, b);
      if a[0] < b[0] {
        assert a[..0] == b[..0];
      }
    }
  }

  lemma {:induction false} NotBeforeChains(a: string, b: string, c: string)
    requires !IdBefore(b, a) && !IdBefore(c, b)
    ensures !IdBefore(c, a)
  {
    if a != [] && b != [] && c != [] && a[0] == b[0] == c[0] {
      NotBeforeChains(a[1..], b[1..], c[1..]);
    }
  }

  lemma NotEarlierChains(x: L.Receipt, y: L.Receipt, z: L.Receipt)
    requires !Earlier(y, x) && !Earlier(z, y)
    ensures !Earlier(z, x)
  {
    if x.receivedAt == y.receivedAt == z.receivedAt {
      NotBeforeChains(x.id, y.id, z.id);
    }
  }

  /** No receipt stands behind a later one. */
  ghost predicate InOrder(rs: seq<L.Receipt>) {
    forall i, j :: 0 <= i < j < |rs| ==> !Earlier(rs[j], rs[i])
  }

  lemma {:induction false} EarlierIsStrict(a: string, b: string)
    requires IdBefore(a, b)
    ensures !IdBefore(b, a)
  {
    if a != [] && a[0] == b[0] {
      EarlierIsStrict(a[1..], b[1..]);
    }
  }

  lemma {:induction false} InsertInOrder(r: L.Receipt, rs: seq<L.Receipt>)
    requires InOrder(rs)
    ensures InOrder(Insert(r, rs))
  {
    if rs == [] {
    } else {
      var front, last := rs[..|rs| - 1], rs[|rs| - 1];
      InFrontOrLast(rs);
      if Earlier(r, last) {
        InsertInOrder(r, front);
        InsertElements(r, front);
        var inserted := Insert(r, front);
        forall i | 0 <= i < |inserted| ensures !Earlier(last, inserted[i]) {
          assert inserted[i] in inserted;
          if inserted[i] in front {
            var k :| 0 <= k < |front| && front[k] == inserted[i];
            assert !Earlier(rs[|front|], rs[k]);
          } else if r.receivedAt == last.receivedAt {
            EarlierIsStrict(r.id, last.id);
          }
        }
      } else {
        forall i | 0 <= i < |rs| ensures !Earlier(r, rs[i]) {
          if i < |front| {
            NotEarlierChains(rs[i], last, r);
          }
        }
      }
    }
  }

  lemma {:induction false} ReceiptsInOrder(cs: seq<Doc>, ids: set<string>)
    ensures InOrder(SortedReceipts(cs, ids))
  {
    if cs != [] {
      var c := cs[|cs| - 1];
      ReceiptsInOrder(cs[..|cs| - 1], ids);
      if c.content.Receipt? && c.id in ids {
        InsertInOrder(L.Receipt(c.id, c.content.po, c.content.receivedAt, c.updatedAt), SortedReceipts(cs[..|cs| - 1], ids));
      }
    }
  }

  /** The receipt of the order that no other receipt of it comes after. */
  predicate IsLatest(rs: seq<L.Receipt>, po: string, x: L.Receipt) {
    x in rs && x.po == po && forall y :: y in rs && y.po == po ==> y == x || !Earlier(x, y)
  }

  lemma {:induction false} LastOfOrder(rs: seq<L.Receipt>, po: string)
    requires InOrder(rs)
    ensures var own := L.ReceiptsOf(rs, po);
            && (own == [] <==> forall y :: y in rs ==> y.po != po)
            && (own != [] ==> IsLatest(rs, po, own[|own| - 1]))
  {
    if rs != [] {
      var front, last := rs[..|rs| - 1], rs[|rs| - 1];
      InFrontOrLast(rs);
      LastOfOrder(front, po);
      forall y | y in front ensures !Earlier(last, y) {
        var k :| 0 <= k < |front| && front[k] == y;
        assert !Earlier(rs[|front|], rs[k]);
      }
    }
  }

  /** A status that an import derives is as old as the order's latest receipt in it, or as the import where it brings none. */
  lemma StatusTimeIsLatest(docs: seq<Doc>, lines: seq<Line>, docIds: set<string>, lineIds: set<string>, at: int, po: string)
    ensures var a := AcceptedOf(docs, lines, docIds, lineIds, at);
            if forall y :: y in a.receipts ==> y.po != po then L.StatusTime(a, po) == at
            else exists x :: IsLatest(a.receipts, po, x) && L.StatusTime(a, po) == x.updatedAt
  {
    ReceiptsInOrder(docs, docIds);
    LastOfOrder(SortedReceipts(docs, docIds), po);
  }
}
