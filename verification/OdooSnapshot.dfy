module OdooSnapshot {
  // Importing whole snapshots: one run under its idempotency key, and the same snapshot again under
  // another.

  import opened Basics
  import opened Decimals
  import opened QuantityLedger
  import opened OdooTables
  import opened OdooImport
  import opened OdooCandidates
  import opened OdooCounts
  import opened OdooReposting
  import opened OdooReimport
  import L = OdooLifecycle

  // ---- one run

  /** What is kept of a successful run, under its idempotency key. */
  datatype SyncRun = SyncRun(snapshot: Snapshot, stats: Stats, issues: seq<Issue>)

  datatype SyncResult = Imported(run: SyncRun) | Replayed(run: SyncRun) | KeyConflict | Failed

  /**
   The whole import of a snapshot. A known key answers what it answered before, or refuses another
   snapshot; nothing is written then. Otherwise the store becomes what importing the snapshot's candidates
   makes of it, or stays as it was if that fails. Every row was seen, and for every kind seen is created,
   updated, unchanged or skipped; for suppliers that holds exactly if no two valid masters name the same
   partner. Every issue came with the snapshot or stands for one skip.
   */
  method ImportSnapshot(store: Store, runs: map<string, SyncRun>, key: string, s: Snapshot, at: int)
    returns (result: SyncResult, after: Store, runs': map<string, SyncRun>)
    ensures key in runs ==>
              result == (if runs[key].snapshot == s then Replayed(runs[key]) else KeyConflict) && after == store && runs' == runs
    ensures key !in runs ==> (result.Imported? <==> Import(store, CandidatesOf(s), at).Some?) && (result.Imported? || result.Failed?)
    ensures result.Imported? ==> Import(store, CandidatesOf(s), at) == Some(after) && runs' == runs[key := result.run] && result.run.snapshot == s
    ensures result.Failed? ==> after == store && runs' == runs
    ensures result.Imported? ==>
              && AllHandled(result.run.stats, Replaced(s.masters)) && CountsRows(result.run.stats, Drafted(s), s)
              && |result.run.issues| == |s.rejected| + SkippedInAll(result.run.stats)
    ensures result.Imported? ==>
              && AfterLines(store.lines, AcceptedDocs(store.docs, Stamped(CandidatesOf(s).docs, at), at), CandidatesOf(s).lines).Some?
              && result.run.stats == CountedImport(Drafted(s).stats, store, CandidatesOf(s), at)
    ensures Replaced(s.masters) == 0 <==> Distinct(ValidPartners(s.masters))
  {
    DistinctCount(ValidPartners(s.masters));
    after, runs' := store, runs;
    if key in runs {
      return if runs[key].snapshot == s then Replayed(runs[key]) else KeyConflict, store, runs;
    }
    var b, stats, issues := BuildCandidates(s);
    DraftedIsSound(s);
    DraftedCounts(s);
    var importer := new Importer(store, stats, issues);
    var ok := importer.Run(b, at, Replaced(s.masters), |s.rejected|);
    if !ok {
      return Failed, store, runs;
    }
    SameCounts(stats, importer.stats, Drafted(s), s);
    var run := SyncRun(s, importer.stats, importer.issues);
    return Imported(run), importer.Stored(), runs[key := run];
  }

  lemma SameCounts(before: Stats, after: Stats, d: Draft, s: Snapshot)
    requires SameSeen(before, after) && CountsRows(before, d, s)
    ensures CountsRows(after, d, s)
  {
  }

  // ---- distinct rows give distinct candidates

  function Prefix(kind: Kind): string {
    match kind
    case Suppliers => "supplier:odoo:"
    case PurchaseOrders => "purchase-order:odoo:"
    case PurchaseOrderLines => "purchase-order-line:odoo:"
    case Receipts => "receipt:odoo:"
    case ReceiptLines => "receipt-line:odoo:"
    case Invoices => "invoice:odoo:"
    case InvoiceLines => "invoice-line:odoo:"
  }

  function NameOf(kind: Kind, n: nat): string { Prefix(kind) + Decimal(n) }

  lemma SameNumber(kind: Kind, n: nat, m: nat)
    requires NameOf(kind, n) == NameOf(kind, m)
    ensures n == m
  {
    ValueDecimal(n);
    ValueDecimal(m);
    assert NameOf(kind, n)[|Prefix(kind)|..] == Decimal(n) && NameOf(kind, m)[|Prefix(kind)|..] == Decimal(m);
  }

  predicate IsLineKind(kind: Kind) { kind in {PurchaseOrderLines, ReceiptLines, InvoiceLines} }

  lemma SameKind(kind: Kind, other: Kind, n: nat, m: nat)
    requires IsLineKind(kind) == IsLineKind(other) && NameOf(kind, n) == NameOf(other, m)
    ensures kind == other
  {
    assert NameOf(kind, n)[0] == Prefix(kind)[0] && NameOf(other, m)[0] == Prefix(other)[0];
  }

  type Numbers = Kind -> set<int>

  function Plus(used: Numbers, kind: Kind, ids: set<int>): Numbers {
    k => if k == kind then used(k) + ids else used(k)
  }

  ghost predicate DocNumbered(c: Doc, used: Numbers) {
    exists n: nat :: n in used(c.Kind()) && c.id == NameOf(c.Kind(), n)
  }

  ghost predicate LineNumbered(c: Line, used: Numbers) {
    exists n: nat :: n in used(c.Kind()) && c.id == NameOf(c.Kind(), n)
  }

  /** The candidates are distinct, and their ids carry only numbers that were used. */
  ghost predicate Named(docs: seq<Doc>, lines: seq<Line>, used: Numbers) {
    && DistinctDocs(docs) && (forall c {:trigger DocNumbered(c, used)} :: c in docs ==> DocNumbered(c, used))
    && DistinctLines(lines) && (forall c {:trigger LineNumbered(c, used)} :: c in lines ==> LineNumbered(c, used))
  }

  lemma MoreNumbers(docs: seq<Doc>, lines: seq<Line>, used: Numbers, kind: Kind, ids: set<int>)
    requires Named(docs, lines, used)
    ensures Named(docs, lines, Plus(used, kind, ids))
  {
    var more := Plus(used, kind, ids);
    forall c | c in docs ensures DocNumbered(c, more) {
      assert DocNumbered(c, used);
      var n: nat :| n in used(c.Kind()) && c.id == NameOf(c.Kind(), n);
      assert n in more(c.Kind());
    }
    forall c | c in lines ensures LineNumbered(c, more) {
      assert LineNumbered(c, used);
      var n: nat :| n in used(c.Kind()) && c.id == NameOf(c.Kind(), n);
      assert n in more(c.Kind());
    }
  }

  lemma DocAdded(docs: seq<Doc>, lines: seq<Line>, used: Numbers, c: Doc, n: nat)
    requires Named(docs, lines, used) && c.id == NameOf(c.Kind(), n) && n !in used(c.Kind())
    ensures Named(docs + [c], lines, Plus(used, c.Kind(), {n}))
  {
    MoreNumbers(docs, lines, used, c.Kind(), {n});
    forall i | 0 <= i < |docs| ensures docs[i].id != c.id {
      assert DocNumbered(docs[i], used);
      var m: nat :| m in used(docs[i].Kind()) && docs[i].id == NameOf(docs[i].Kind(), m);
      if docs[i].id == c.id {
        SameKind(docs[i].Kind(), c.Kind(), m, n);
        SameNumber(c.Kind(), m, n);
      }
    }
    assert n in Plus(used, c.Kind(), {n})(c.Kind());
  }

  lemma LineAdded(docs: seq<Doc>, lines: seq<Line>, used: Numbers, c: Line, n: nat)
    requires Named(docs, lines, used) && c.id == NameOf(c.Kind(), n) && n !in used(c.Kind())
    ensures Named(docs, lines + [c], Plus(used, c.Kind(), {n}))
  {
    MoreNumbers(docs, lines, used, c.Kind(), {n});
    forall i | 0 <= i < |lines| ensures lines[i].id != c.id {
      assert LineNumbered(lines[i], used);
      var m: nat :| m in used(lines[i].Kind()) && lines[i].id == NameOf(lines[i].Kind(), m);
      if lines[i].id == c.id {
        SameKind(lines[i].Kind(), c.Kind(), m, n);
        SameNumber(c.Kind(), m, n);
      }
    }
    assert n in Plus(used, c.Kind(), {n})(c.Kind());
  }

  lemma Widened(docs: seq<Doc>, lines: seq<Line>, used: Numbers, more: Numbers)
    requires Named(docs, lines, used) && forall k :: used(k) <= more(k)
    ensures Named(docs, lines, more)
  {
    forall c | c in docs ensures DocNumbered(c, more) {
      assert DocNumbered(c, used);
    }
    forall c | c in lines ensures LineNumbered(c, more) {
      assert LineNumbered(c, used);
    }
  }

  /** No positive number occurs twice. */
  ghost predicate DistinctNumbers(ids: seq<int>) {
    forall i, j :: 0 <= i < j < |ids| && PositiveInteger(ids[i]) ==> ids[i] != ids[j]
  }

  ghost predicate Unused(ids: seq<int>, used: set<int>) {
    forall x :: x in ids && PositiveInteger(x) ==> x !in used
  }

  lemma DistinctParts(a: seq<int>, b: seq<int>)
    requires DistinctNumbers(a + b)
    ensures DistinctNumbers(a) && DistinctNumbers(b) && forall x :: x in b && PositiveInteger(x) ==> x !in a
    ensures Elements(a + b) == Elements(a) + Elements(b)
  {
    var ab := a + b;
    assert forall i :: 0 <= i < |a| ==> ab[i] == a[i];
    assert forall i :: 0 <= i < |b| ==> ab[|a| + i] == b[i];
  }

  function OrderLineNumbers(ls: seq<OrderLineRow>): seq<int> {
    if ls == [] then [] else OrderLineNumbers(ls[..|ls| - 1]) + [ls[|ls| - 1].id]
  }

  function ReceiptLineNumbers(ls: seq<ReceiptLineRow>): seq<int> {
    if ls == [] then [] else ReceiptLineNumbers(ls[..|ls| - 1]) + [ls[|ls| - 1].id]
  }

  function InvoiceLineNumbers(ls: seq<InvoiceLineRow>): seq<int> {
    if ls == [] then [] else InvoiceLineNumbers(ls[..|ls| - 1]) + [ls[|ls| - 1].id]
  }

  function OrderNumbers(os: seq<OrderRow>): seq<int> {
    if os == [] then [] else OrderNumbers(os[..|os| - 1]) + [os[|os| - 1].id]
  }

  function ReceiptNumbers(rs: seq<ReceiptRow>): seq<int> {
    if rs == [] then [] else ReceiptNumbers(rs[..|rs| - 1]) + [rs[|rs| - 1].id]
  }

  function InvoiceNumbers(vs: seq<InvoiceRow>): seq<int> {
    if vs == [] then [] else InvoiceNumbers(vs[..|vs| - 1]) + [vs[|vs| - 1].id]
  }

  function AllOrderLines(os: seq<OrderRow>): seq<int> {
    if os == [] then [] else AllOrderLines(os[..|os| - 1]) + OrderLineNumbers(os[|os| - 1].lines)
  }

  function AllReceiptLines(rs: seq<ReceiptRow>): seq<int> {
    if rs == [] then [] else AllReceiptLines(rs[..|rs| - 1]) + ReceiptLineNumbers(rs[|rs| - 1].lines)
  }

  function AllInvoiceLines(vs: seq<InvoiceRow>): seq<int> {
    if vs == [] then [] else AllInvoiceLines(vs[..|vs| - 1]) + InvoiceLineNumbers(vs[|vs| - 1].lines)
  }

  lemma {:induction false} OrderLinesNamed(d: Draft, ls: seq<OrderLineRow>, order: string, used: Numbers)
    requires Named(d.docs, d.lines, used)
    requires DistinctNumbers(OrderLineNumbers(ls)) && Unused(OrderLineNumbers(ls), used(PurchaseOrderLines))
    ensures var after := AfterOrderLines(d, ls, order);
            after.docs == d.docs && Named(d.docs, after.lines, Plus(used, PurchaseOrderLines, Elements(OrderLineNumbers(ls))))
  {
    var all := Plus(used, PurchaseOrderLines, Elements(OrderLineNumbers(ls)));
    if ls == [] {
      Widened(d.docs, d.lines, used, all);
    } else {
      var front, l := ls[..|ls| - 1], ls[|ls| - 1];
      DistinctParts(OrderLineNumbers(front), [l.id]);
      OrderLinesNamed(d, front, order, used);
      var d1, used1 := AfterOrderLines(d, front, order), Plus(used, PurchaseOrderLines, Elements(OrderLineNumbers(front)));
      if GoodOrderLine(l) {
        assert l.id in OrderLineNumbers(ls) && l.id in [l.id];
        LineAdded(d.docs, d1.lines, used1, OrderLineOf(l, order), l.id);
        Widened(d.docs, d1.lines + [OrderLineOf(l, order)], Plus(used1, PurchaseOrderLines, {l.id}), all);
      } else {
        Widened(d.docs, d1.lines, used1, all);
      }
    }
  }

  lemma {:induction false} ReceiptLinesNamed(d: Draft, ls: seq<ReceiptLineRow>, receipt: string, order: string, used: Numbers)
    requires Named(d.docs, d.lines, used)
    requires DistinctNumbers(ReceiptLineNumbers(ls)) && Unused(ReceiptLineNumbers(ls), used(ReceiptLines))
    ensures var after := AfterReceiptLines(d, ls, receipt, order);
            after.docs == d.docs && Named(d.docs, after.lines, Plus(used, ReceiptLines, Elements(ReceiptLineNumbers(ls))))
  {
    var all := Plus(used, ReceiptLines, Elements(ReceiptLineNumbers(ls)));
    if ls == [] {
      Widened(d.docs, d.lines, used, all);
    } else {
      var front, l := ls[..|ls| - 1], ls[|ls| - 1];
      DistinctParts(ReceiptLineNumbers(front), [l.id]);
      ReceiptLinesNamed(d, front, receipt, order, used);
      var d1, used1 := AfterReceiptLines(d, front, receipt, order), Plus(used, ReceiptLines, Elements(ReceiptLineNumbers(front)));
      if GoodReceiptLine(l, order, d1.lineOf) {
        var c := ReceiptLineOf(l, receipt, order, d1.lineOf);
        assert l.id in ReceiptLineNumbers(ls) && l.id in [l.id];
        LineAdded(d.docs, d1.lines, used1, c, l.id);
        Widened(d.docs, d1.lines + [c], Plus(used1, ReceiptLines, {l.id}), all);
      } else {
        Widened(d.docs, d1.lines, used1, all);
      }
    }
  }

  lemma {:induction false} InvoiceLinesNamed(d: Draft, ls: seq<InvoiceLineRow>, invoice: string, used: Numbers)
    requires Named(d.docs, d.lines, used)
    requires DistinctNumbers(InvoiceLineNumbers(ls)) && Unused(InvoiceLineNumbers(ls), used(InvoiceLines))
    ensures var after := AfterInvoiceLines(d, ls, invoice);
            after.docs == d.docs && Named(d.docs, after.lines, Plus(used, InvoiceLines, Elements(InvoiceLineNumbers(ls))))
  {
    var all := Plus(used, InvoiceLines, Elements(InvoiceLineNumbers(ls)));
    if ls == [] {
      Widened(d.docs, d.lines, used, all);
    } else {
      var front, l := ls[..|ls| - 1], ls[|ls| - 1];
      DistinctParts(InvoiceLineNumbers(front), [l.id]);
      InvoiceLinesNamed(d, front, invoice, used);
      var d1, used1 := AfterInvoiceLines(d, front, invoice), Plus(used, InvoiceLines, Elements(InvoiceLineNumbers(front)));
      if GoodInvoiceLine(l) {
        assert l.id in InvoiceLineNumbers(ls) && l.id in [l.id];
        LineAdded(d.docs, d1.lines, used1, InvoiceLineOf(l, invoice), l.id);
        Widened(d.docs, d1.lines + [InvoiceLineOf(l, invoice)], Plus(used1, InvoiceLines, {l.id}), all);
      } else {
        Widened(d.docs, d1.lines, used1, all);
      }
    }
  }

  // The numbers one row of each kind uses, in turn its own and its lines'.

  function UsedBy(used: Numbers, kind: Kind, ids: seq<int>, lineKind: Kind, lineIds: seq<int>): Numbers {
    Plus(Plus(used, kind, Elements(ids)), lineKind, Elements(lineIds))
  }

  /** What the last row and its lines leave for the rows before it, and find used by them. */
  lemma LastRow(used: Numbers, kind: Kind, ids: seq<int>, id: int, lineKind: Kind, lineIds: seq<int>, more: seq<int>)
    requires kind != lineKind
    requires DistinctNumbers(ids + [id]) && Unused(ids + [id], used(kind))
    requires DistinctNumbers(lineIds + more) && Unused(lineIds + more, used(lineKind))
    ensures DistinctNumbers(ids) && Unused(ids, used(kind)) && DistinctNumbers(lineIds) && Unused(lineIds, used(lineKind))
    ensures var before := UsedBy(used, kind, ids, lineKind, lineIds);
      && Unused([id], before(kind)) && DistinctNumbers(more) && Unused(more, before(lineKind))
      && forall k :: UsedBy(before, kind, [id], lineKind, more)(k) <= UsedBy(used, kind, ids + [id], lineKind, lineIds + more)(k)
  {
    DistinctParts(ids, [id]);
    DistinctParts(lineIds, more);
    assert id in ids + [id];
  }

  lemma OrderNamed(d: Draft, o: OrderRow, all: seq<OrderRow>, used: Numbers)
    requires Named(d.docs, d.lines, used) && Unused([o.id], used(PurchaseOrders))
    requires DistinctNumbers(OrderLineNumbers(o.lines)) && Unused(OrderLineNumbers(o.lines), used(PurchaseOrderLines))
    ensures var after := AfterOrder(d, o, all);
            Named(after.docs, after.lines, UsedBy(used, PurchaseOrders, [o.id], PurchaseOrderLines, OrderLineNumbers(o.lines)))
  {
    var more := UsedBy(used, PurchaseOrders, [o.id], PurchaseOrderLines, OrderLineNumbers(o.lines));
    if GoodOrder(o, d.suppliers.Keys) {
      assert o.id in [o.id];
      DocAdded(d.docs, d.lines, used, OrderDoc(o), o.id);
      var d2, used2 := NamesOrder(WithDoc(d, OrderDoc(o)), o, all), Plus(used, PurchaseOrders, {o.id});
      OrderLinesNamed(d2, o.lines, OrderId(o.id), used2);
      Widened(d2.docs, AfterOrder(d, o, all).lines, Plus(used2, PurchaseOrderLines, Elements(OrderLineNumbers(o.lines))), more);
    } else {
      Widened(d.docs, d.lines, used, more);
    }
  }

  lemma {:induction false} OrdersNamed(d: Draft, os: seq<OrderRow>, all: seq<OrderRow>, used: Numbers)
    requires Named(d.docs, d.lines, used)
    requires DistinctNumbers(OrderNumbers(os)) && Unused(OrderNumbers(os), used(PurchaseOrders))
    requires DistinctNumbers(AllOrderLines(os)) && Unused(AllOrderLines(os), used(PurchaseOrderLines))
    ensures var after := AfterOrders(d, os, all);
            Named(after.docs, after.lines, UsedBy(used, PurchaseOrders, OrderNumbers(os), PurchaseOrderLines, AllOrderLines(os)))
  {
    var more := UsedBy(used, PurchaseOrders, OrderNumbers(os), PurchaseOrderLines, AllOrderLines(os));
    if os == [] {
      Widened(d.docs, d.lines, used, more);
    } else {
      var front, o := os[..|os| - 1], os[|os| - 1];
      LastRow(used, PurchaseOrders, OrderNumbers(front), o.id, PurchaseOrderLines, AllOrderLines(front), OrderLineNumbers(o.lines));
      OrdersNamed(d, front, all, used);
      var before := UsedBy(used, PurchaseOrders, OrderNumbers(front), PurchaseOrderLines, AllOrderLines(front));
      OrderNamed(AfterOrders(d, front, all), o, all, before);
      var after := AfterOrders(d, os, all);
      Widened(after.docs, after.lines, UsedBy(before, PurchaseOrders, [o.id], PurchaseOrderLines, OrderLineNumbers(o.lines)), more);
    }
  }

  lemma ReceiptNumbered(d: Draft, r: ReceiptRow, used: Numbers)
    requires Named(d.docs, d.lines, used) && Unused([r.id], used(Receipts))
    requires DistinctNumbers(ReceiptLineNumbers(r.lines)) && Unused(ReceiptLineNumbers(r.lines), used(ReceiptLines))
    ensures var after := AfterReceipt(d, r);
            Named(after.docs, after.lines, UsedBy(used, Receipts, [r.id], ReceiptLines, ReceiptLineNumbers(r.lines)))
  {
    var more := UsedBy(used, Receipts, [r.id], ReceiptLines, ReceiptLineNumbers(r.lines));
    var order := OrderFor(r, d.lineOf, d.orderNamed);
    if GoodReceipt(r) && order.Some? {
      var c := ReceiptDoc(r, order.value);
      assert r.id in [r.id];
      DocAdded(d.docs, d.lines, used, c, r.id);
      var d2, used2 := WithDoc(d, c), Plus(used, Receipts, {r.id});
      ReceiptLinesNamed(d2, r.lines, c.id, order.value, used2);
      Widened(d2.docs, AfterReceipt(d, r).lines, Plus(used2, ReceiptLines, Elements(ReceiptLineNumbers(r.lines))), more);
    } else {
      Widened(d.docs, d.lines, used, more);
    }
  }

  lemma {:induction false} ReceiptsNumbered(d: Draft, rs: seq<ReceiptRow>, used: Numbers)
    requires Named(d.docs, d.lines, used)
    requires DistinctNumbers(ReceiptNumbers(rs)) && Unused(ReceiptNumbers(rs), used(Receipts))
    requires DistinctNumbers(AllReceiptLines(rs)) && Unused(AllReceiptLines(rs), used(ReceiptLines))
    ensures var after := AfterReceipts(d, rs);
            Named(after.docs, after.lines, UsedBy(used, Receipts, ReceiptNumbers(rs), ReceiptLines, AllReceiptLines(rs)))
  {
    var more := UsedBy(used, Receipts, ReceiptNumbers(rs), ReceiptLines, AllReceiptLines(rs));
    if rs == [] {
      Widened(d.docs, d.lines, used, more);
    } else {
      var front, r := rs[..|rs| - 1], rs[|rs| - 1];
      LastRow(used, Receipts, ReceiptNumbers(front), r.id, ReceiptLines, AllReceiptLines(front), ReceiptLineNumbers(r.lines));
      ReceiptsNumbered(d, front, used);
      var before := UsedBy(used, Receipts, ReceiptNumbers(front), ReceiptLines, AllReceiptLines(front));
      ReceiptNumbered(AfterReceipts(d, front), r, before);
      var after := AfterReceipts(d, rs);
      Widened(after.docs, after.lines, UsedBy(before, Receipts, [r.id], ReceiptLines, ReceiptLineNumbers(r.lines)), more);
    }
  }

  lemma InvoiceNumbered(d: Draft, v: InvoiceRow, used: Numbers)
    requires Named(d.docs, d.lines, used) && Unused([v.id], used(Invoices))
    requires DistinctNumbers(InvoiceLineNumbers(v.lines)) && Unused(InvoiceLineNumbers(v.lines), used(InvoiceLines))
    ensures var after := AfterInvoice(d, v);
            Named(after.docs, after.lines, UsedBy(used, Invoices, [v.id], InvoiceLines, InvoiceLineNumbers(v.lines)))
  {
    var more := UsedBy(used, Invoices, [v.id], InvoiceLines, InvoiceLineNumbers(v.lines));
    if GoodInvoice(v, d.suppliers.Keys) {
      assert v.id in [v.id];
      DocAdded(d.docs, d.lines, used, InvoiceDoc(v), v.id);
      var d2, used2 := WithDoc(d, InvoiceDoc(v)), Plus(used, Invoices, {v.id});
      InvoiceLinesNamed(d2, v.lines, InvoiceDoc(v).id, used2);
      Widened(d2.docs, AfterInvoice(d, v).lines, Plus(used2, InvoiceLines, Elements(InvoiceLineNumbers(v.lines))), more);
    } else {
      Widened(d.docs, d.lines, used, more);
    }
  }

  lemma {:induction false} InvoicesNumbered(d: Draft, vs: seq<InvoiceRow>, used: Numbers)
    requires Named(d.docs, d.lines, used)
    requires DistinctNumbers(InvoiceNumbers(vs)) && Unused(InvoiceNumbers(vs), used(Invoices))
    requires DistinctNumbers(AllInvoiceLines(vs)) && Unused(AllInvoiceLines(vs), used(InvoiceLines))
    ensures var after := AfterInvoices(d, vs);
            Named(after.docs, after.lines, UsedBy(used, Invoices, InvoiceNumbers(vs), InvoiceLines, AllInvoiceLines(vs)))
  {
    var more := UsedBy(used, Invoices, InvoiceNumbers(vs), InvoiceLines, AllInvoiceLines(vs));
    if vs == [] {
      Widened(d.docs, d.lines, used, more);
    } else {
      var front, v := vs[..|vs| - 1], vs[|vs| - 1];
      LastRow(used, Invoices, InvoiceNumbers(front), v.id, InvoiceLines, AllInvoiceLines(front), InvoiceLineNumbers(v.lines));
      InvoicesNumbered(d, front, used);
      var before := UsedBy(used, Invoices, InvoiceNumbers(front), InvoiceLines, AllInvoiceLines(front));
      InvoiceNumbered(AfterInvoices(d, front), v, before);
      var after := AfterInvoices(d, vs);
      Widened(after.docs, after.lines, UsedBy(before, Invoices, [v.id], InvoiceLines, InvoiceLineNumbers(v.lines)), more);
    }
  }

  // The suppliers: one document a partner, whatever rows name it.

  ghost predicate OwnNames(d: Draft) {
    forall n: nat :: n in d.suppliers ==> d.suppliers[n].content.Supplier? && d.suppliers[n].id == NameOf(Suppliers, n)
  }

  lemma {:induction false} MastersOwnNames(d: Draft, ms: seq<Master>)
    requires OwnNames(d)
    ensures var after := AfterMasters(d, ms); OwnNames(after) && after.docs == d.docs && after.lines == d.lines
  {
    if ms != [] {
      MastersOwnNames(d, ms[..|ms| - 1]);
    }
  }

  lemma {:induction false} OrderPartnersOwnNames(d: Draft, os: seq<OrderRow>)
    requires OwnNames(d)
    ensures var after := AfterOrderPartners(d, os); OwnNames(after) && after.docs == d.docs && after.lines == d.lines
  {
    if os != [] {
      OrderPartnersOwnNames(d, os[..|os| - 1]);
    }
  }

  lemma {:induction false} InvoicePartnersOwnNames(d: Draft, vs: seq<InvoiceRow>)
    requires OwnNames(d)
    ensures var after := AfterInvoicePartners(d, vs); OwnNames(after) && after.docs == d.docs && after.lines == d.lines
  {
    if vs != [] {
      InvoicePartnersOwnNames(d, vs[..|vs| - 1]);
    }
  }

  lemma {:induction false} SupplierDocsNamed(d: Draft, partners: seq<nat>, used: Numbers)
    requires OwnNames(d) && Distinct(partners) && (forall k :: used(k) == {})
    ensures Named(SupplierDocs(d.suppliers, partners), [], Plus(used, Suppliers, Elements<int>(partners)))
  {
    var all := Plus(used, Suppliers, Elements<int>(partners));
    if partners != [] {
      var front, n := partners[..|partners| - 1], partners[|partners| - 1];
      SupplierDocsNamed(d, front, used);
      InFrontOrLast(partners);
      var docs, used1 := SupplierDocs(d.suppliers, front), Plus(used, Suppliers, Elements<int>(front));
      assert n !in front;
      if n in d.suppliers {
        DocAdded(docs, [], used1, d.suppliers[n], n);
        Widened(docs + [d.suppliers[n]], [], Plus(used1, Suppliers, {n}), all);
      } else {
        Widened(docs, [], used1, all);
      }
    }
  }

  lemma ObservedNamed(d: Draft, s: Snapshot, used: Numbers)
    requires OwnNames(d) && KeysInOrder(d) && |d.docs| == 0 && |d.lines| == 0 && forall k :: used(k) == {}
    ensures var seen := AfterInvoicePartners(AfterOrderPartners(d, s.orders), s.invoices);
            Named(seen.docs + SupplierDocs(seen.suppliers, seen.partners), seen.lines, Plus(used, Suppliers, Elements<int>(seen.partners)))
  {
    OrderPartnersOwnNames(d, s.orders);
    OrderPartnersSeen(d, s.orders);
    var d2 := AfterOrderPartners(d, s.orders);
    InvoicePartnersOwnNames(d2, s.invoices);
    InvoicePartnersSeen(d2, s.invoices);
    var d3 := AfterInvoicePartners(d2, s.invoices);
    SupplierDocsNamed(d3, d3.partners, used);
    assert d3.docs + SupplierDocs(d3.suppliers, d3.partners) == SupplierDocs(d3.suppliers, d3.partners) && d3.lines == [];
  }

  lemma StartNamed(d: Draft, s: Snapshot, used: Numbers) returns (more: Numbers)
    requires IsStart(d) && forall k :: used(k) == {}
    ensures Named(AfterSuppliers(d, s).docs, AfterSuppliers(d, s).lines, more) && forall k :: k != Suppliers ==> more(k) == {}
  {
    MastersOwnNames(d, s.masters);
    MastersAreSound(d, s.masters);
    var d1 := AfterMasters(d, s.masters);
    ObservedNamed(d1, s, used);
    more := Plus(used, Suppliers, Elements<int>(AfterSuppliers(d, s).partners));
  }

  /** Odoo's ids: no positive one twice within a kind of row. */
  ghost predicate DistinctRows(s: Snapshot) {
    && DistinctNumbers(OrderNumbers(s.orders)) && DistinctNumbers(AllOrderLines(s.orders))
    && DistinctNumbers(ReceiptNumbers(s.receipts)) && DistinctNumbers(AllReceiptLines(s.receipts))
    && DistinctNumbers(InvoiceNumbers(s.invoices)) && DistinctNumbers(AllInvoiceLines(s.invoices))
  }

  lemma NoneUsed(ids: seq<int>, used: Numbers, kind: Kind)
    requires used(kind) == {}
    ensures Unused(ids, used(kind))
  {
  }

  lemma OthersUse(used: Numbers, kind: Kind, ids: seq<int>, lineKind: Kind, lineIds: seq<int>, other: Kind)
    requires other != kind && other != lineKind
    ensures UsedBy(used, kind, ids, lineKind, lineIds)(other) == used(other)
  {
  }

  lemma ReceiptsAndInvoicesNamed(d: Draft, s: Snapshot, used: Numbers)
    requires Named(d.docs, d.lines, used) && DistinctRows(s)
    requires used(Receipts) == {} && used(ReceiptLines) == {} && used(Invoices) == {} && used(InvoiceLines) == {}
    ensures var after := AfterInvoices(AfterReceipts(d, s.receipts), s.invoices); DistinctDocs(after.docs) && DistinctLines(after.lines)
  {
    NoneUsed(ReceiptNumbers(s.receipts), used, Receipts);
    NoneUsed(AllReceiptLines(s.receipts), used, ReceiptLines);
    ReceiptsNumbered(d, s.receipts, used);
    var used2 := UsedBy(used, Receipts, ReceiptNumbers(s.receipts), ReceiptLines, AllReceiptLines(s.receipts));
    OthersUse(used, Receipts, ReceiptNumbers(s.receipts), ReceiptLines, AllReceiptLines(s.receipts), Invoices);
    OthersUse(used, Receipts, ReceiptNumbers(s.receipts), ReceiptLines, AllReceiptLines(s.receipts), InvoiceLines);
    NoneUsed(InvoiceNumbers(s.invoices), used2, Invoices);
    NoneUsed(AllInvoiceLines(s.invoices), used2, InvoiceLines);
    InvoicesNumbered(AfterReceipts(d, s.receipts), s.invoices, used2);
  }

  lemma RowsNamed(d: Draft, s: Snapshot, used: Numbers)
    requires Named(d.docs, d.lines, used) && DistinctRows(s) && forall k :: k != Suppliers ==> used(k) == {}
    ensures var after := AfterInvoices(AfterReceipts(AfterOrders(d, s.orders, s.orders), s.receipts), s.invoices);
            DistinctDocs(after.docs) && DistinctLines(after.lines)
  {
    NoneUsed(OrderNumbers(s.orders), used, PurchaseOrders);
    NoneUsed(AllOrderLines(s.orders), used, PurchaseOrderLines);
    OrdersNamed(d, s.orders, s.orders, used);
    var used2 := UsedBy(used, PurchaseOrders, OrderNumbers(s.orders), PurchaseOrderLines, AllOrderLines(s.orders));
    forall k | k in {Receipts, ReceiptLines, Invoices, InvoiceLines} ensures used2(k) == {} {
      OthersUse(used, PurchaseOrders, OrderNumbers(s.orders), PurchaseOrderLines, AllOrderLines(s.orders), k);
    }
    ReceiptsAndInvoicesNamed(AfterOrders(d, s.orders, s.orders), s, used2);
  }

  /** Rows with distinct ids give candidates with distinct ids, of whatever kind. */
  lemma CandidatesDistinct(s: Snapshot)
    requires DistinctRows(s)
    ensures DistinctBatch(CandidatesOf(s))
  {
    var d := Empty(Incoming(s.rejected));
    var used := StartNamed(d, s, k => {});
    RowsNamed(AfterSuppliers(d, s), s, used);
  }

  // ---- the same snapshot again

  /**
   Importing a snapshot again, under another key and time, changes no document or line version, adds no
   quantity or stage event and moves no status, exactly if after the first import each stored order is
   confirmed in Odoo or at the status it has there, each refused document and line still meets a reason to
   be refused, and no line of a confirmed order is short of its confirmation.
   */
  lemma SnapshotReimport(store: Store, s: Snapshot, t1: int, t2: int)
    requires SoundStore(store) && DistinctRows(s) && Import(store, CandidatesOf(s), t1).Some?
    ensures var after := Import(store, CandidatesOf(s), t1).value;
            Import(after, CandidatesOf(s), t2) == Some(after) <==> OdooReimport.Settled(after, CandidatesOf(s), t2)
  {
    CandidatesDistinct(s);
    ReimportIsNoOp(store, CandidatesOf(s), t1, t2);
  }

  // ---- orders that Odoo does not hold confirmed

  lemma {:induction false} OrderIsListed(cs: seq<Doc>, ids: set<string>, c: Doc)
    requires c in cs && c.content.PurchaseOrder? && c.id in ids
    ensures L.Po(c.id, c.status, c.content.confirmedAt, c.content.orderedAt, c.updatedAt) in Orders(cs, ids)
  {
    InFrontOrLast(cs);
    if c in cs[..|cs| - 1] {
      OrderIsListed(cs[..|cs| - 1], ids, c);
    }
  }

  lemma {:induction false} ListedLines(cs: seq<Line>, ids: set<string>)
    ensures forall x :: x in OrderLines(cs, ids) ==> exists c :: c in cs && c.content.Ordered? && c.id == x.id && c.document == x.po
    ensures forall x :: x in ReceivedLines(cs, ids) ==> exists c :: c in cs && c.content.ReceivedFor? && c.content.poLine == x.poLine
  {
    if cs != [] {
      var front, last := cs[..|cs| - 1], cs[|cs| - 1];
      InFrontOrLast(cs);
      ListedLines(front, ids);
      forall x | x in OrderLines(cs, ids) ensures exists c :: c in cs && c.content.Ordered? && c.id == x.id && c.document == x.po {
        if x in OrderLines(front, ids) {
          var c :| c in front && c.content.Ordered? && c.id == x.id && c.document == x.po;
          assert c in cs;
        } else {
          assert last in cs;
        }
      }
      forall x | x in ReceivedLines(cs, ids) ensures exists c :: c in cs && c.content.ReceivedFor? && c.content.poLine == x.poLine {
        if x in ReceivedLines(front, ids) {
          var c :| c in front && c.content.ReceivedFor? && c.content.poLine == x.poLine;
          assert c in cs;
        } else {
          assert last in cs;
        }
      }
    }
  }

  predicate HasNoReceipt(docs: seq<Doc>, order: string) {
    forall d :: d in docs && d.content.Receipt? ==> d.content.po != order
  }

  /** A receipt line never points at a line of an order that has no receipt. */
  lemma NoLinePointsAt(b: Batch, ids: set<string>, line: Line)
    requires AllLinkedWell(b.docs, b.lines) && DistinctLines(b.lines)
    requires line in b.lines && line.content.Ordered? && HasNoReceipt(b.docs, line.document)
    ensures forall r :: r in ReceivedLines(b.lines, ids) ==> r.poLine != line.id
  {
    ListedLines(b.lines, ids);
    forall r | r in ReceivedLines(b.lines, ids) ensures r.poLine != line.id {
      var c :| c in b.lines && c.content.ReceivedFor? && c.content.poLine == r.poLine;
      assert LinkedWell(b.docs, b.lines, c);
      var order :| HasOrderLine(b.lines, c.content.poLine, order) && HasReceipt(b.docs, c.document, order);
      var other :| other in b.lines && other.content.Ordered? && other.id == c.content.poLine && other.document == order;
      if other.id == line.id {
        SameIdSameLine(b.lines, other, line);
      }
    }
  }

  lemma SameIdSameLine(cs: seq<Line>, c: Line, d: Line)
    requires DistinctLines(cs) && c in cs && d in cs && c.id == d.id
    ensures c == d
  {
    var i :| 0 <= i < |cs| && cs[i] == c;
    var j :| 0 <= j < |cs| && cs[j] == d;
  }

  /** Nothing was ever received for the order's lines. */
  ghost predicate NothingReceived(l: Ledger, lines: seq<Line>, order: string) {
    forall c :: c in lines && c.content.Ordered? && c.document == order ==> Sum(l.events, c.id, Received) <= 0.0
  }

  /** Posting a batch leaves an order without receipts as it was, and its status is not derived. */
  lemma NothingDerived(l: Ledger, b: Batch, a: L.Accepted, ids: set<string>, po: L.Po)
    requires LedgerInv(l) && AllLinkedWell(b.docs, b.lines) && DistinctLines(b.lines) && L.PostAll(l, a).Some?
    requires a.poLines == OrderLines(b.lines, ids) && a.receiptLines == ReceivedLines(b.lines, ids)
    requires HasNoReceipt(b.docs, po.id) && NothingReceived(l, b.lines, po.id) && po.status !in {L.PARTLY, L.RECEIVED}
    ensures L.DeriveStatus(L.PostAll(l, a).value, po, L.LinesOf(a.poLines, po.id)) in {L.Keep, L.Throws}
  {
    var l', own := L.PostAll(l, a).value, L.LinesOf(a.poLines, po.id);
    L.PostAllKeeps(l, a);
    L.LinesOfElements(a.poLines, po.id);
    ListedLines(b.lines, ids);
    forall i | 0 <= i < |own| ensures Sum(l'.events, own[i].id, Received) <= 0.0 {
      assert own[i] in own;
      var c :| c in b.lines && c.content.Ordered? && c.id == own[i].id && c.document == po.id;
      NoLinePointsAt(b, ids, c);
      FollowLeavesLine(L.AfterConfirming(l, a), a, a.receiptLines, c.id);
      assert Sum(L.AfterConfirming(l, a).events, c.id, Received) == Sum(l.events, c.id, Received);
    }
    if L.Loadable(l', own) {
      L.TestsReadTheLedger(l', own);
    }
  }

  /** An order outside Odoo's `purchase` and `done` has no receipt, now or before. */
  ghost predicate NoStrayReceipts(store: Store, b: Batch) {
    forall c {:trigger HasNoReceipt(b.docs, c.id)} :: c in b.docs && c.content.PurchaseOrder? && c.status != OdooTables.CONFIRMED ==>
      HasNoReceipt(b.docs, c.id) && NothingReceived(store.ledger, b.lines, c.id) && c.status !in {L.PARTLY, L.RECEIVED}
  }

  /** Storing the documents gives such an order the status it has in Odoo, and accepts it. */
  lemma StoredUnconfirmed(rows: Rows<Doc>, cs: seq<Doc>, at: int, c: Doc)
    requires KeyedDocs(rows) && DistinctDocs(cs)
    requires var docs := AfterDocs(rows, Stamped(cs, at), at);
             c in cs && c.content.PurchaseOrder? && c.status != OdooTables.CONFIRMED && Owns(docs, c)
    ensures AfterDocs(rows, Stamped(cs, at), at)[c.Key()].value.status == c.status
    ensures c.id in AcceptedDocs(rows, Stamped(cs, at), at)
  {
    var docs, accepted := AfterDocs(rows, Stamped(cs, at), at), AcceptedDocs(rows, Stamped(cs, at), at);
    StampedDistinct(cs, at);
    DocsLeft(rows, Stamped(cs, at), at);
    LeftMeansStored(docs, accepted, cs, at);
    assert Stored(docs, c);
    AcceptedAreOwned(rows, Stamped(cs, at), at);
    OwnedStamped(docs, cs, at);
  }

  /** Such an order ends the import at the status it has in Odoo. */
  lemma UnconfirmedRests(store: Store, b: Batch, at: int, c: Doc)
    requires SoundStore(store) && DistinctBatch(b) && AllLinkedWell(b.docs, b.lines) && Import(store, b, at).Some?
    requires NoStrayReceipts(store, b)
    requires c in b.docs && c.content.PurchaseOrder? && c.status != OdooTables.CONFIRMED && Owns(Import(store, b, at).value.docs, c)
    ensures Import(store, b, at).value.docs[c.Key()].value.status == c.status
  {
    var docs, parents, lines, a, ledger, orders := ImportParts(store, b, at);
    var ids := AcceptedLines(store.lines, parents, b.lines);
    WithOrdersKeeps(docs, orders, c);
    StoredUnconfirmed(store.docs, b.docs, at, c);
    UnconfirmedIsKept(store, b, at, c, docs, parents, ids, a, ledger, orders);
  }

  lemma UnconfirmedIsKept(store: Store, b: Batch, at: int, c: Doc, docs: Rows<Doc>, parents: set<string>, ids: set<string>,
                          a: L.Accepted, ledger: Ledger, orders: map<string, L.PoRow>)
    requires SoundStore(store) && DistinctBatch(b) && AllLinkedWell(b.docs, b.lines) && NoStrayReceipts(store, b)
    requires docs == AfterDocs(store.docs, Stamped(b.docs, at), at) && parents == AcceptedDocs(store.docs, Stamped(b.docs, at), at)
    requires a == AcceptedOf(Stamped(b.docs, at), b.lines, parents, ids, at)
    requires L.PostAll(store.ledger, a) == Some(ledger) && L.DeriveAll(OrderRows(docs), ledger, a, a.pos) == Some(orders)
    requires c in b.docs && c.content.PurchaseOrder? && c.status != OdooTables.CONFIRMED && c.id in parents
    ensures c.id in OrderRows(docs) && c.id in orders && orders[c.id] == OrderRows(docs)[c.id]
  {
    StampedDistinct(b.docs, at);
    AcceptedAreOwned(store.docs, Stamped(b.docs, at), at);
    OwnedStamped(docs, b.docs, at);
    OrdersHaveRows(docs, b, at, ids);
    AcceptedWellNamed(b.docs, b.lines, parents, ids, at);
    var po := L.Po(c.id, c.status, c.content.confirmedAt, c.content.orderedAt, at);
    StampedOrderIsListed(b.docs, parents, c, at);
    L.StatusesDerived(OrderRows(docs), ledger, a, a.pos);
    assert L.StatusDerived(OrderRows(docs), orders, ledger, a, po);
    assert HasNoReceipt(b.docs, c.id);
    NothingDerived(store.ledger, b, a, ids, po);
  }

  lemma StampedOrderIsListed(docs: seq<Doc>, ids: set<string>, c: Doc, at: int)
    requires c in docs && c.content.PurchaseOrder? && c.id in ids
    ensures L.Po(c.id, c.status, c.content.confirmedAt, c.content.orderedAt, at) in Orders(Stamped(docs, at), ids)
  {
    var i :| 0 <= i < |docs| && docs[i] == c;
    assert Stamped(docs, at)[i] in Stamped(docs, at);
    OrderIsListed(Stamped(docs, at), ids, Stamp(c, at));
  }

  /** A refused document still has its reason: its id, its foreign object or its invoice number is taken. */
  ghost predicate RefusalsStand(rows: Rows<Doc>, cs: seq<Doc>) {
    forall c {:trigger Owns(rows, c)} :: c in cs && !Owns(rows, c) ==> Known(rows, c) || c.Key() in rows || NumberTaken(rows, c)
  }

  /**
   With no receipt on an order outside `purchase` and `done`, importing the snapshot again changes nothing
   exactly if refusals stand and no confirmed line is short: no order's status is then a reason.
   */
  lemma ReimportWithoutStrayReceipts(store: Store, s: Snapshot, t1: int, t2: int)
    requires SoundStore(store) && DistinctRows(s) && Import(store, CandidatesOf(s), t1).Some?
    requires NoStrayReceipts(store, CandidatesOf(s))
    ensures var b := CandidatesOf(s); var after := Import(store, b, t1).value;
            Import(after, b, t2) == Some(after) <==>
              && RefusalsStand(after.docs, b.docs)
              && LinesAtRest(after.lines, OwnedIds(after.docs, b.docs), b.lines)
              && NoLineShort(after.ledger, Again(after, b, t2))
  {
    var b := CandidatesOf(s);
    var after := Import(store, b, t1).value;
    CandidatesDistinct(s);
    DraftedIsSound(s);
    SnapshotReimport(store, s, t1, t2);
    forall c | c in b.docs && Owns(after.docs, c) ensures AtRest(after.docs, c) {
      if c.content.PurchaseOrder? && c.status != OdooTables.CONFIRMED {
        UnconfirmedRests(store, b, t1, c);
      }
    }
    forall c | c in b.docs && !Owns(after.docs, c)
      ensures AtRest(after.docs, c) <==> Known(after.docs, c) || c.Key() in after.docs || NumberTaken(after.docs, c)
    {
    }
  }
}
