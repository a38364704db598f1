/**
 The candidates of a snapshot in closed form: which rows become documents and lines, who describes a
 supplier, and what receipts are linked by.
 */
module OdooContents {
  import opened Basics
  import opened OdooTables
  import opened OdooImport
  import opened OdooCandidates
  import opened OdooCounts

  // ---- orders

  function GoodOrderLines(ls: seq<OrderLineRow>, order: string): seq<Line> {
    if ls == [] then []
    else
      var front, l := GoodOrderLines(ls[..|ls| - 1], order), ls[|ls| - 1];
      if GoodOrderLine(l) then front + [OrderLineOf(l, order)] else front
  }

  function GoodOrderDocs(os: seq<OrderRow>, suppliers: set<nat>): seq<Doc> {
    if os == [] then []
    else
      var front, o := GoodOrderDocs(os[..|os| - 1], suppliers), os[|os| - 1];
      if GoodOrder(o, suppliers) then front + [OrderDoc(o)] else front
  }

  function LinesOfGoodOrders(os: seq<OrderRow>, suppliers: set<nat>): seq<Line> {
    if os == [] then []
    else
      var front, o := LinesOfGoodOrders(os[..|os| - 1], suppliers), os[|os| - 1];
      if GoodOrder(o, suppliers) then front + GoodOrderLines(o.lines, OrderId(o.id)) else front
  }

  /** A good line of a good order. */
  ghost predicate IsLine(os: seq<OrderRow>, suppliers: set<nat>, n: int, place: (string, string)) {
    exists o, l :: o in os && GoodOrder(o, suppliers) && l in o.lines && GoodOrderLine(l) && l.id == n && place == (OrderLineId(l.id), OrderId(o.id))
  }

  /** A good order with a name that no other order has. */
  ghost predicate IsName(os: seq<OrderRow>, all: seq<OrderRow>, suppliers: set<nat>, name: string, id: string) {
    !NameTwice(all, name) && exists o :: o in os && GoodOrder(o, suppliers) && o.name == name && id == OrderId(o.id)
  }

  /** Exactly the good lines of good orders are found by their number. */
  ghost predicate IndexesOrderLines(d: Draft, os: seq<OrderRow>) {
    && (forall n :: n in d.lineOf ==> IsLine(os, d.suppliers.Keys, n, d.lineOf[n]))
    && (forall o, l :: o in os && GoodOrder(o, d.suppliers.Keys) && l in o.lines && GoodOrderLine(l) ==> l.id in d.lineOf)
  }

  /** Exactly the good orders with a name of their own are found by it. */
  ghost predicate IndexesOrderNames(d: Draft, os: seq<OrderRow>, all: seq<OrderRow>) {
    && (forall name :: name in d.orderNamed ==> IsName(os, all, d.suppliers.Keys, name, d.orderNamed[name]))
    && (forall o :: o in os && GoodOrder(o, d.suppliers.Keys) && !NameTwice(all, o.name) ==> o.name in d.orderNamed)
  }

  ghost predicate KeptOrNew(d: Draft, after: Draft, ls: seq<OrderLineRow>, order: string, n: int) {
    n in after.lineOf && ((n in d.lineOf && after.lineOf[n] == d.lineOf[n])
      || exists l :: l in ls && GoodOrderLine(l) && l.id == n && after.lineOf[n] == (OrderLineId(l.id), order))
  }

  lemma {:induction false} OrderLinesContents(d: Draft, ls: seq<OrderLineRow>, order: string)
    ensures var after := AfterOrderLines(d, ls, order);
      && after.docs == d.docs && after.lines == d.lines + GoodOrderLines(ls, order)
      && after.suppliers == d.suppliers && after.partners == d.partners && after.orderNamed == d.orderNamed
      && (forall n :: n in after.lineOf ==> KeptOrNew(d, after, ls, order, n))
      && (forall n :: n in d.lineOf ==> n in after.lineOf)
      && (forall l :: l in ls && GoodOrderLine(l) ==> l.id in after.lineOf)
  {
    if ls != [] {
      OrderLinesContents(d, ls[..|ls| - 1], order);
      InFrontOrLast(ls);
    }
  }

  lemma OrderContents(d: Draft, o: OrderRow, all: seq<OrderRow>)
    ensures var after := AfterOrder(d, o, all);
      && after.suppliers == d.suppliers && after.partners == d.partners
      && if GoodOrder(o, d.suppliers.Keys) then
           && after.docs == d.docs + [OrderDoc(o)] && after.lines == d.lines + GoodOrderLines(o.lines, OrderId(o.id))
           && after.orderNamed == (if NameTwice(all, o.name) then d.orderNamed else d.orderNamed[o.name := OrderId(o.id)])
         else after.docs == d.docs && after.lines == d.lines && after.lineOf == d.lineOf && after.orderNamed == d.orderNamed
  {
    if GoodOrder(o, d.suppliers.Keys) {
      OrderLinesContents(NamesOrder(WithDoc(d, OrderDoc(o)), o, all), o.lines, OrderId(o.id));
    }
  }

  lemma LinesIndexed(d: Draft, o: OrderRow, all: seq<OrderRow>, os: seq<OrderRow>)
    requires IndexesOrderLines(d, os)
    ensures IndexesOrderLines(AfterOrder(d, o, all), os + [o])
  {
    var after, more := AfterOrder(d, o, all), os + [o];
    OrderContents(d, o, all);
    if GoodOrder(o, d.suppliers.Keys) {
      OrderLinesContents(NamesOrder(WithDoc(d, OrderDoc(o)), o, all), o.lines, OrderId(o.id));
      assert o in more;
    }
    forall n | n in after.lineOf ensures IsLine(more, d.suppliers.Keys, n, after.lineOf[n]) {
      if n in d.lineOf && after.lineOf[n] == d.lineOf[n] {
        assert IsLine(os, d.suppliers.Keys, n, d.lineOf[n]);
        var x, l :| x in os && GoodOrder(x, d.suppliers.Keys) && l in x.lines && GoodOrderLine(l) && l.id == n && d.lineOf[n] == (OrderLineId(l.id), OrderId(x.id));
        assert x in more;
      } else {
        assert KeptOrNew(NamesOrder(WithDoc(d, OrderDoc(o)), o, all), after, o.lines, OrderId(o.id), n);
      }
    }
  }

  lemma NamesIndexed(d: Draft, o: OrderRow, all: seq<OrderRow>, os: seq<OrderRow>)
    requires IndexesOrderNames(d, os, all)
    ensures IndexesOrderNames(AfterOrder(d, o, all), os + [o], all)
  {
    var after, more := AfterOrder(d, o, all), os + [o];
    OrderContents(d, o, all);
    forall name | name in after.orderNamed ensures IsName(more, all, d.suppliers.Keys, name, after.orderNamed[name]) {
      if name in d.orderNamed && after.orderNamed[name] == d.orderNamed[name] {
        assert IsName(os, all, d.suppliers.Keys, name, d.orderNamed[name]);
        var x :| x in os && GoodOrder(x, d.suppliers.Keys) && x.name == name && d.orderNamed[name] == OrderId(x.id);
        assert x in more;
      } else {
        assert o in more;
      }
    }
  }

  lemma {:induction false} OrdersContents(d: Draft, os: seq<OrderRow>, all: seq<OrderRow>)
    ensures var after := AfterOrders(d, os, all);
      && after.docs == d.docs + GoodOrderDocs(os, d.suppliers.Keys) && after.lines == d.lines + LinesOfGoodOrders(os, d.suppliers.Keys)
      && after.suppliers == d.suppliers && after.partners == d.partners
  {
    if os != [] {
      var front, o, known := os[..|os| - 1], os[|os| - 1], d.suppliers.Keys;
      OrdersContents(d, front, all);
      OrderContents(AfterOrders(d, front, all), o, all);
      if GoodOrder(o, known) {
        Snoc(d.docs, GoodOrderDocs(front, known), [OrderDoc(o)]);
        Snoc(d.lines, LinesOfGoodOrders(front, known), GoodOrderLines(o.lines, OrderId(o.id)));
      }
    }
  }

  lemma {:induction false} OrdersIndexed(d: Draft, os: seq<OrderRow>, all: seq<OrderRow>)
    requires d.lineOf == map[] && d.orderNamed == map[]
    ensures IndexesOrderLines(AfterOrders(d, os, all), os) && IndexesOrderNames(AfterOrders(d, os, all), os, all)
  {
    if os != [] {
      OrdersIndexed(d, os[..|os| - 1], all);
      LinesIndexed(AfterOrders(d, os[..|os| - 1], all), os[|os| - 1], all, os[..|os| - 1]);
      NamesIndexed(AfterOrders(d, os[..|os| - 1], all), os[|os| - 1], all, os[..|os| - 1]);
      assert os[..|os| - 1] + [os[|os| - 1]] == os;
    }
  }

  // ---- receipts

  function GoodReceiptLines(ls: seq<ReceiptLineRow>, receipt: string, order: string, lineOf: map<int, (string, string)>): seq<Line> {
    if ls == [] then []
    else
      var front, l := GoodReceiptLines(ls[..|ls| - 1], receipt, order, lineOf), ls[|ls| - 1];
      if GoodReceiptLine(l, order, lineOf) then front + [ReceiptLineOf(l, receipt, order, lineOf)] else front
  }

  ghost predicate HasOrder(r: ReceiptRow, d: Draft) {
    GoodReceipt(r) && OrderFor(r, d.lineOf, d.orderNamed).Some?
  }

  ghost function DocOfReceipt(r: ReceiptRow, d: Draft): Doc
    requires HasOrder(r, d)
  {
    ReceiptDoc(r, OrderFor(r, d.lineOf, d.orderNamed).value)
  }

  ghost function GoodReceiptDocs(rs: seq<ReceiptRow>, d: Draft): seq<Doc> {
    if rs == [] then []
    else
      var front, r := GoodReceiptDocs(rs[..|rs| - 1], d), rs[|rs| - 1];
      if HasOrder(r, d) then front + [DocOfReceipt(r, d)] else front
  }

  ghost function LinesOfGoodReceipts(rs: seq<ReceiptRow>, d: Draft): seq<Line> {
    if rs == [] then []
    else
      var front, r := LinesOfGoodReceipts(rs[..|rs| - 1], d), rs[|rs| - 1];
      if HasOrder(r, d) then front + GoodReceiptLines(r.lines, DocOfReceipt(r, d).id, DocOfReceipt(r, d).content.po, d.lineOf) else front
  }

  /** Suppliers and both indexes are as before. */
  predicate SameIndexes(d: Draft, after: Draft) {
    after.suppliers == d.suppliers && after.partners == d.partners && after.lineOf == d.lineOf && after.orderNamed == d.orderNamed
  }

  lemma {:induction false} ReceiptLinesContents(d: Draft, ls: seq<ReceiptLineRow>, receipt: string, order: string)
    ensures var after := AfterReceiptLines(d, ls, receipt, order);
            after.docs == d.docs && after.lines == d.lines + GoodReceiptLines(ls, receipt, order, d.lineOf) && SameIndexes(d, after)
  {
    if ls != [] {
      ReceiptLinesContents(d, ls[..|ls| - 1], receipt, order);
    }
  }

  lemma ReceiptContents(d: Draft, r: ReceiptRow)
    ensures var after := AfterReceipt(d, r);
      && SameIndexes(d, after)
      && if HasOrder(r, d) then
           && after.docs == d.docs + [DocOfReceipt(r, d)]
           && after.lines == d.lines + GoodReceiptLines(r.lines, DocOfReceipt(r, d).id, DocOfReceipt(r, d).content.po, d.lineOf)
         else after.docs == d.docs && after.lines == d.lines
  {
    if HasOrder(r, d) {
      var c := DocOfReceipt(r, d);
      ReceiptLinesContents(WithDoc(d, c), r.lines, c.id, c.content.po);
    }
  }

  lemma SameOrder(r: ReceiptRow, d: Draft, e: Draft)
    requires SameIndexes(d, e)
    ensures HasOrder(r, d) <==> HasOrder(r, e)
    ensures HasOrder(r, d) ==> DocOfReceipt(r, d) == DocOfReceipt(r, e)
  {
  }

  lemma {:induction false} ReceiptsKeepIndexes(d: Draft, rs: seq<ReceiptRow>)
    ensures SameIndexes(d, AfterReceipts(d, rs))
  {
    if rs != [] {
      ReceiptsKeepIndexes(d, rs[..|rs| - 1]);
      ReceiptContents(AfterReceipts(d, rs[..|rs| - 1]), rs[|rs| - 1]);
    }
  }

  lemma {:induction false} ReceiptDocsKept(d: Draft, rs: seq<ReceiptRow>)
    ensures AfterReceipts(d, rs).docs == d.docs + GoodReceiptDocs(rs, d)
  {
    if rs != [] {
      var front, r := rs[..|rs| - 1], rs[|rs| - 1];
      ReceiptDocsKept(d, front);
      ReceiptsKeepIndexes(d, front);
      SameOrder(r, d, AfterReceipts(d, front));
      ReceiptContents(AfterReceipts(d, front), r);
      if HasOrder(r, d) {
        Snoc(d.docs, GoodReceiptDocs(front, d), [DocOfReceipt(r, d)]);
      }
    }
  }

  lemma {:induction false} ReceiptLinesKept(d: Draft, rs: seq<ReceiptRow>)
    ensures AfterReceipts(d, rs).lines == d.lines + LinesOfGoodReceipts(rs, d)
  {
    if rs != [] {
      var front, r := rs[..|rs| - 1], rs[|rs| - 1];
      ReceiptLinesKept(d, front);
      ReceiptsKeepIndexes(d, front);
      SameOrder(r, d, AfterReceipts(d, front));
      ReceiptContents(AfterReceipts(d, front), r);
      if HasOrder(r, d) {
        var c := DocOfReceipt(r, d);
        Snoc(d.lines, LinesOfGoodReceipts(front, d), GoodReceiptLines(r.lines, c.id, c.content.po, d.lineOf));
      }
    }
  }

  lemma Snoc<T>(a: seq<T>, b: seq<T>, c: seq<T>)
    ensures (a + b) + c == a + (b + c)
  {
  }

  lemma {:induction false} ReceiptsRead(rs: seq<ReceiptRow>, d: Draft, e: Draft)
    requires SameIndexes(d, e)
    ensures GoodReceiptDocs(rs, d) == GoodReceiptDocs(rs, e) && LinesOfGoodReceipts(rs, d) == LinesOfGoodReceipts(rs, e)
  {
    if rs != [] {
      ReceiptsRead(rs[..|rs| - 1], d, e);
    }
  }

  // ---- invoices

  function GoodInvoiceLines(ls: seq<InvoiceLineRow>, invoice: string): seq<Line> {
    if ls == [] then []
    else
      var front, l := GoodInvoiceLines(ls[..|ls| - 1], invoice), ls[|ls| - 1];
      if GoodInvoiceLine(l) then front + [InvoiceLineOf(l, invoice)] else front
  }

  function GoodInvoiceDocs(vs: seq<InvoiceRow>, suppliers: set<nat>): seq<Doc> {
    if vs == [] then []
    else
      var front, v := GoodInvoiceDocs(vs[..|vs| - 1], suppliers), vs[|vs| - 1];
      if GoodInvoice(v, suppliers) then front + [InvoiceDoc(v)] else front
  }

  function LinesOfGoodInvoices(vs: seq<InvoiceRow>, suppliers: set<nat>): seq<Line> {
    if vs == [] then []
    else
      var front, v := LinesOfGoodInvoices(vs[..|vs| - 1], suppliers), vs[|vs| - 1];
      if GoodInvoice(v, suppliers) then front + GoodInvoiceLines(v.lines, InvoiceDoc(v).id) else front
  }

  lemma {:induction false} InvoiceLinesContents(d: Draft, ls: seq<InvoiceLineRow>, invoice: string)
    ensures var after := AfterInvoiceLines(d, ls, invoice);
            after.docs == d.docs && after.lines == d.lines + GoodInvoiceLines(ls, invoice) && SameIndexes(d, after)
  {
    if ls != [] {
      InvoiceLinesContents(d, ls[..|ls| - 1], invoice);
    }
  }

  lemma InvoiceContents(d: Draft, v: InvoiceRow)
    ensures var after := AfterInvoice(d, v);
      && SameIndexes(d, after)
      && if GoodInvoice(v, d.suppliers.Keys) then
           after.docs == d.docs + [InvoiceDoc(v)] && after.lines == d.lines + GoodInvoiceLines(v.lines, InvoiceDoc(v).id)
         else after.docs == d.docs && after.lines == d.lines
  {
    if GoodInvoice(v, d.suppliers.Keys) {
      InvoiceLinesContents(WithDoc(d, InvoiceDoc(v)), v.lines, InvoiceDoc(v).id);
    }
  }

  lemma {:induction false} InvoicesKeep(d: Draft, vs: seq<InvoiceRow>)
    ensures SameIndexes(d, AfterInvoices(d, vs))
  {
    if vs != [] {
      InvoicesKeep(d, vs[..|vs| - 1]);
      InvoiceContents(AfterInvoices(d, vs[..|vs| - 1]), vs[|vs| - 1]);
    }
  }

  lemma {:induction false} InvoicesContents(d: Draft, vs: seq<InvoiceRow>)
    ensures AfterInvoices(d, vs).docs == d.docs + GoodInvoiceDocs(vs, d.suppliers.Keys)
    ensures AfterInvoices(d, vs).lines == d.lines + LinesOfGoodInvoices(vs, d.suppliers.Keys)
  {
    if vs != [] {
      var front, v := vs[..|vs| - 1], vs[|vs| - 1];
      InvoicesContents(d, front);
      InvoicesKeep(d, front);
      InvoiceContents(AfterInvoices(d, front), v);
      if GoodInvoice(v, d.suppliers.Keys) {
        Snoc(d.docs, GoodInvoiceDocs(front, d.suppliers.Keys), [InvoiceDoc(v)]);
        Snoc(d.lines, LinesOfGoodInvoices(front, d.suppliers.Keys), GoodInvoiceLines(v.lines, InvoiceDoc(v).id));
      }
    }
  }

  // ---- the whole

  lemma {:induction false} MastersKeep(d: Draft, ms: seq<Master>)
    ensures var after := AfterMasters(d, ms); after.docs == d.docs && after.lines == d.lines && after.lineOf == d.lineOf && after.orderNamed == d.orderNamed
  {
    if ms != [] {
      MastersKeep(d, ms[..|ms| - 1]);
    }
  }

  lemma {:induction false} OrderPartnersKeep(d: Draft, os: seq<OrderRow>)
    ensures var after := AfterOrderPartners(d, os);
            after.docs == d.docs && after.lines == d.lines && after.lineOf == d.lineOf && after.orderNamed == d.orderNamed
  {
    if os != [] {
      OrderPartnersKeep(d, os[..|os| - 1]);
    }
  }

  lemma {:induction false} InvoicePartnersKeep(d: Draft, vs: seq<InvoiceRow>)
    ensures var after := AfterInvoicePartners(d, vs);
            after.docs == d.docs && after.lines == d.lines && after.lineOf == d.lineOf && after.orderNamed == d.orderNamed
  {
    if vs != [] {
      InvoicePartnersKeep(d, vs[..|vs| - 1]);
    }
  }

  /** The supplier a valid master describes. */
  predicate Describes(m: Master, n: nat, c: Doc) {
    NumberAfter("odoo-partner-", m.external) == Some(n) && m.name != "" && c == SupplierDoc(n, m.status, m.name + ", " + m.details)
  }

  predicate Names(m: Master, n: nat) {
    NumberAfter("odoo-partner-", m.external) == Some(n) && m.name != ""
  }

  /** The last valid master of the partner describes it. */
  ghost predicate LastMaster(ms: seq<Master>, n: nat, c: Doc) {
    exists i :: 0 <= i < |ms| && Describes(ms[i], n, c) && forall j :: i < j < |ms| ==> !Names(ms[j], n)
  }

  lemma LastMasterSnoc(ms: seq<Master>, m: Master, n: nat, c: Doc)
    requires LastMaster(ms, n, c) && !Names(m, n)
    ensures LastMaster(ms + [m], n, c)
  {
    var i :| 0 <= i < |ms| && Describes(ms[i], n, c) && forall j :: i < j < |ms| ==> !Names(ms[j], n);
    assert Describes((ms + [m])[i], n, c);
  }

  lemma {:induction false} MastersDescribe(d: Draft, ms: seq<Master>)
    requires d.suppliers == map[]
    ensures forall n: nat :: n in AfterMasters(d, ms).suppliers ==> LastMaster(ms, n, AfterMasters(d, ms).suppliers[n])
  {
    if ms != [] {
      var front, m := ms[..|ms| - 1], ms[|ms| - 1];
      MastersDescribe(d, front);
      assert front + [m] == ms;
      forall n: nat | n in AfterMasters(d, ms).suppliers ensures LastMaster(ms, n, AfterMasters(d, ms).suppliers[n]) {
        if Names(m, n) {
          assert Describes(ms[|front|], n, AfterMasters(d, ms).suppliers[n]);
        } else {
          LastMasterSnoc(front, m, n, AfterMasters(d, front).suppliers[n]);
        }
      }
    }
  }

  /** Partners that no master names come in as observed, and leave the others as they are. */
  ghost predicate OnlyObserved(d: Draft, after: Draft) {
    && (forall n: nat :: n in d.suppliers ==> n in after.suppliers && after.suppliers[n] == d.suppliers[n])
    && (forall n: nat :: n in after.suppliers && n !in d.suppliers ==> after.suppliers[n].status == "observed")
  }

  lemma {:induction false} OrderPartnersObserved(d: Draft, os: seq<OrderRow>)
    ensures OnlyObserved(d, AfterOrderPartners(d, os))
  {
    if os != [] {
      OrderPartnersObserved(d, os[..|os| - 1]);
    }
  }

  lemma {:induction false} InvoicePartnersObserved(d: Draft, vs: seq<InvoiceRow>)
    ensures OnlyObserved(d, AfterInvoicePartners(d, vs))
  {
    if vs != [] {
      InvoicePartnersObserved(d, vs[..|vs| - 1]);
    }
  }

  /** A partner is described by its last valid master, or observed on an order or invoice. */
  ghost predicate Described(d: Draft, ms: seq<Master>) {
    forall n: nat :: n in d.suppliers ==>
      if n in Elements(ValidPartners(ms)) then LastMaster(ms, n, d.suppliers[n]) else d.suppliers[n].status == "observed"
  }

  lemma SuppliersDescribed(d: Draft, s: Snapshot)
    requires IsStart(d)
    ensures Described(AfterSuppliers(d, s), s.masters)
  {
    MastersComeFirst(d, s.masters);
    MastersDescribe(d, s.masters);
    var d1 := AfterMasters(d, s.masters);
    OrderPartnersObserved(d1, s.orders);
    InvoicePartnersObserved(AfterOrderPartners(d1, s.orders), s.invoices);
  }

  /** The draft after the suppliers has their documents and nothing else. */
  lemma SuppliersFirst(d: Draft, s: Snapshot)
    requires IsStart(d) && d.orderNamed == map[]
    ensures var d1 := AfterSuppliers(d, s);
      && d1.docs == SupplierDocs(d1.suppliers, d1.partners) && d1.lines == d.lines
      && d1.lineOf == map[] && d1.orderNamed == map[] && d1.suppliers.Keys == PartnersOf(s)
  {
    MastersKeep(d, s.masters);
    MastersComeFirst(d, s.masters);
    var d1 := AfterMasters(d, s.masters);
    OrderPartnersKeep(d1, s.orders);
    OrderPartnersSeen(d1, s.orders);
    var d2 := AfterOrderPartners(d1, s.orders);
    InvoicePartnersKeep(d2, s.invoices);
    InvoicePartnersSeen(d2, s.invoices);
  }

  /** Documents and lines are those of the good rows, in order; the indexes find exactly the good order rows. */
  ghost predicate HasContents(d: Draft, s: Snapshot, before: seq<Line>) {
    var known := PartnersOf(s);
    && d.suppliers.Keys == known && Described(d, s.masters)
    && d.docs == SupplierDocs(d.suppliers, d.partners) + GoodOrderDocs(s.orders, known) + GoodReceiptDocs(s.receipts, d) + GoodInvoiceDocs(s.invoices, known)
    && d.lines == before + LinesOfGoodOrders(s.orders, known) + LinesOfGoodReceipts(s.receipts, d) + LinesOfGoodInvoices(s.invoices, known)
    && IndexesOrderLines(d, s.orders) && IndexesOrderNames(d, s.orders, s.orders)
  }

  lemma RowsContents(d1: Draft, s: Snapshot, d2: Draft, d3: Draft, d: Draft)
    requires d1.docs == SupplierDocs(d1.suppliers, d1.partners) && d1.suppliers.Keys == PartnersOf(s)
    requires d1.lineOf == map[] && d1.orderNamed == map[] && Described(d1, s.masters)
    requires d2 == AfterOrders(d1, s.orders, s.orders) && d3 == AfterReceipts(d2, s.receipts) && d == AfterInvoices(d3, s.invoices)
    ensures HasContents(d, s, d1.lines)
  {
    OrdersContents(d1, s.orders, s.orders);
    OrdersIndexed(d1, s.orders, s.orders);
    ReceiptDocsKept(d2, s.receipts);
    ReceiptLinesKept(d2, s.receipts);
    ReceiptsKeepIndexes(d2, s.receipts);
    InvoicesContents(d3, s.invoices);
    InvoicesKeep(d3, s.invoices);
    ReceiptsRead(s.receipts, d2, d);
  }

  /**
   The candidates of a snapshot: one supplier for each partner that a valid master or a named order or
   invoice brings, as its last valid master describes it or else observed; then the documents of the good orders, receipts and invoices, in order, and their good
   lines. Receipts find their order through the good order lines they point at, or by an order name that
   no two orders share.
   */
  lemma DraftedContents(s: Snapshot)
    ensures HasContents(Drafted(s), s, [])
  {
    var d := Empty(Incoming(s.rejected));
    SuppliersFirst(d, s);
    SuppliersDescribed(d, s);
    var d1 := AfterSuppliers(d, s);
    var d2 := AfterOrders(d1, s.orders, s.orders);
    RowsContents(d1, s, d2, AfterReceipts(d2, s.receipts), Drafted(s));
  }
}
