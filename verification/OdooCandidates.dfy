/**
 Turning the rows of an Odoo snapshot into candidates for storing. Every row is counted as seen and
 either becomes a candidate or is skipped with an issue. Texts are trimmed and dates parsed. The builder
 below does this in place; `Drafted` is what it computes, and OdooCounts says what that amounts to.
 */
module OdooCandidates {
  import opened Basics
  import opened Decimals
  import opened OdooTables
  import opened OdooImport

  datatype Master = Master(external: string, name: string, status: string, details: string)

  datatype OrderLineRow = OrderLineRow(id: int, quantity: Option<real>, priced: bool, details: string)

  datatype OrderRow = OrderRow(id: int, name: string, supplier: string, supplierName: string, currency: string, state: string,
                               orderedAt: Option<int>, confirmedAt: Option<int>, details: string, lines: seq<OrderLineRow>)

  datatype ReceiptLineRow = ReceiptLineRow(id: int, orderLine: int, quantity: Option<real>, details: string)

  datatype ReceiptRow = ReceiptRow(id: int, state: string, orderName: string, doneAt: Option<int>, createdAt: Option<int>,
                                   updatedAt: Option<int>, location: int, details: string, lines: seq<ReceiptLineRow>)

  datatype InvoiceLineRow = InvoiceLineRow(id: int, quantity: Option<real>, priced: bool, details: string)

  datatype InvoiceRow = InvoiceRow(id: int, supplier: int, supplierName: string, name: string, currency: string, state: string,
                                   date: Option<int>, createdAt: Option<int>, updatedAt: Option<int>, details: string, lines: seq<InvoiceLineRow>)

  /** A supplier row that Odoo's own service has turned down. */
  datatype Rejected = Rejected(row: nat, reason: string)

  datatype Snapshot = Snapshot(masters: seq<Master>, rejected: seq<Rejected>, orders: seq<OrderRow>, receipts: seq<ReceiptRow>, invoices: seq<InvoiceRow>)

  const MAX_SAFE := 9007199254740991

  predicate PositiveInteger(n: int) { 0 < n <= MAX_SAFE }

  function Text(n: int): string {
    if n < 0 then "-" + Decimal(-n) else Decimal(n)
  }

  predicate Positive(q: Option<real>) { q.Some? && q.value > 0.0 }

  /** The number after a prefix: digits that do not start with a zero, and nothing else. */
  function NumberAfter(prefix: string, text: string): Option<nat> {
    if |prefix| < |text| && prefix <= text && text[|prefix|] != '0' && (forall i :: |prefix| <= i < |text| ==> '0' <= text[i] <= '9')
    then Some(Value(text[|prefix|..])) else None
  }

  function PartnerOf(o: OrderRow): Option<nat> { NumberAfter("odoo-", o.supplier) }

  function OrderStatus(state: string): string {
    if state == "draft" || state == "to approve" then "draft"
    else if state == "purchase" || state == "done" then CONFIRMED
    else if state == "cancel" then "cancelled"
    else state
  }

  function InvoiceStatus(state: string): string {
    if state == "cancel" then "exception" else if state == "draft" || state == "posted" then "received" else state
  }

  function SupplierDoc(n: nat, status: string, details: string): Doc {
    Doc("supplier:odoo:" + Decimal(n), "odoo", "odoo-partner-" + Decimal(n), status, 0, 0, Supplier, details)
  }

  function OrderId(n: nat): string { "purchase-order:odoo:" + Decimal(n) }

  function OrderLineId(n: nat): string { "purchase-order-line:odoo:" + Decimal(n) }

  predicate GoodOrder(o: OrderRow, suppliers: set<nat>) {
    && PositiveInteger(o.id) && o.name != "" && PartnerOf(o).Some? && o.currency != "" && o.state != "" && o.orderedAt.Some?
    && PartnerOf(o).value in suppliers
  }

  function OrderDoc(o: OrderRow): Doc
    requires 0 <= o.id && o.orderedAt.Some?
  {
    Doc(OrderId(o.id), "odoo", "purchase.order:" + Text(o.id), OrderStatus(o.state), o.orderedAt.value, 0,
        PurchaseOrder(o.orderedAt.value, o.confirmedAt), o.details)
  }

  predicate GoodOrderLine(l: OrderLineRow) { PositiveInteger(l.id) && Positive(l.quantity) && l.priced }

  function OrderLineOf(l: OrderLineRow, order: string): Line
    requires GoodOrderLine(l)
  {
    Line(OrderLineId(l.id), order, Decimal(l.id), Ordered(l.quantity.value), l.details)
  }

  predicate GoodReceipt(r: ReceiptRow) {
    r.state == "done" && PositiveInteger(r.id) && r.doneAt.Some? && r.location != 0
  }

  /** The orders of the known order lines that the receipt's lines name. */
  function PointedAt(r: ReceiptRow, lineOf: map<int, (string, string)>): set<string> {
    set l | l in r.lines && l.orderLine != 0 && l.orderLine in lineOf :: lineOf[l.orderLine].1
  }

  /** The one order that the receipt's lines point at, or else the order with the receipt's order name. */
  ghost function OrderFor(r: ReceiptRow, lineOf: map<int, (string, string)>, orderNamed: map<string, string>): Option<string> {
    var orders := PointedAt(r, lineOf);
    if |orders| == 1 then (var only :| only in orders; Some(only))
    else if r.orderName in orderNamed then Some(orderNamed[r.orderName]) else None
  }

  lemma OnlyOne<T>(s: set<T>, a: T, b: T)
    requires |s| == 1 && a in s && b in s
    ensures a == b
  {
    assert |s - {a}| == 0;
  }

  function ReceiptDoc(r: ReceiptRow, order: string): Doc
    requires GoodReceipt(r)
  {
    var at := r.doneAt.value;
    Doc("receipt:odoo:" + Decimal(r.id), "odoo", "stock.picking:" + Text(r.id), "received", r.createdAt.GetOr(at), r.updatedAt.GetOr(at),
        Receipt(order, at), r.details)
  }

  predicate GoodInvoice(v: InvoiceRow, suppliers: set<nat>) {
    && PositiveInteger(v.id) && PositiveInteger(v.supplier) && v.name != "" && v.currency != "" && v.state != "" && v.date.Some?
    && v.supplier in suppliers
  }

  function InvoiceDoc(v: InvoiceRow): Doc
    requires 0 <= v.id && 0 <= v.supplier && v.date.Some?
  {
    var at := v.date.value;
    Doc("invoice:odoo:" + Decimal(v.id), "odoo", "account.move:" + Text(v.id), InvoiceStatus(v.state), v.createdAt.GetOr(at), v.updatedAt.GetOr(at),
        Invoice("supplier:odoo:" + Decimal(v.supplier), v.name), v.details)
  }

  predicate GoodReceiptLine(l: ReceiptLineRow, order: string, lineOf: map<int, (string, string)>) {
    PositiveInteger(l.id) && l.orderLine != 0 && l.orderLine in lineOf && lineOf[l.orderLine].1 == order && Positive(l.quantity)
  }

  function ReceiptLineOf(l: ReceiptLineRow, receipt: string, order: string, lineOf: map<int, (string, string)>): Line
    requires GoodReceiptLine(l, order, lineOf)
  {
    Line("receipt-line:odoo:" + Decimal(l.id), receipt, Decimal(l.id), ReceivedFor(lineOf[l.orderLine].0, l.quantity.value), l.details)
  }

  predicate GoodInvoiceLine(l: InvoiceLineRow) { PositiveInteger(l.id) && Positive(l.quantity) && l.priced }

  function InvoiceLineOf(l: InvoiceLineRow, invoice: string): Line
    requires GoodInvoiceLine(l)
  {
    Line("invoice-line:odoo:" + Decimal(l.id), invoice, Decimal(l.id), Invoiced, l.details)
  }

  predicate NameTwice(orders: seq<OrderRow>, name: string) {
    exists i, j :: 0 <= i < j < |orders| && orders[i].name == name && orders[j].name == name
  }

  function Saw(stats: Stats, kind: Kind): Stats {
    With(stats, kind, Of(stats, kind).(seen := Of(stats, kind).seen + 1))
  }

  // ---- what the builder has so far, and each of its steps

  datatype Draft = Draft(docs: seq<Doc>, lines: seq<Line>, suppliers: map<nat, Doc>, partners: seq<nat>,
                         orderNamed: map<string, string>, lineOf: map<int, (string, string)>, stats: Stats, issues: seq<Issue>)

  function Empty(incoming: seq<Issue>): Draft {
    Draft([], [], map[], [], map[], map[], NO_STATS, incoming)
  }

  /** A row that is seen and skipped. */
  function Refused(d: Draft, kind: Kind, external: string, code: string): Draft {
    d.(stats := Bump(Saw(d.stats, kind), kind, Skipped(code)), issues := d.issues + [Issue(kind, external, code)])
  }

  function WithDoc(d: Draft, c: Doc): Draft {
    d.(docs := d.docs + [c], stats := Saw(d.stats, c.Kind()))
  }

  function WithLine(d: Draft, c: Line): Draft {
    d.(lines := d.lines + [c], stats := Saw(d.stats, c.Kind()))
  }

  /** A later supplier with the same partner replaces the earlier one in its place. */
  function WithSupplier(d: Draft, n: nat, c: Doc): Draft {
    d.(suppliers := d.suppliers[n := c], partners := if n in d.suppliers then d.partners else d.partners + [n],
       stats := Saw(d.stats, Suppliers))
  }

  function AfterMaster(d: Draft, m: Master): Draft {
    var n := NumberAfter("odoo-partner-", m.external);
    if n.None? || m.name == "" then Refused(d, Suppliers, m.external, "INVALID_SUPPLIER")
    else WithSupplier(d, n.value, SupplierDoc(n.value, m.status, m.name + ", " + m.details))
  }

  function AfterMasters(d: Draft, ms: seq<Master>): Draft {
    if ms == [] then d else AfterMaster(AfterMasters(d, ms[..|ms| - 1]), ms[|ms| - 1])
  }

  /** A partner that no master named is a supplier if the row names it. */
  function AfterPartner(d: Draft, n: int, name: string, details: string): Draft {
    if n > 0 && n !in d.suppliers && name != "" then WithSupplier(d, n, SupplierDoc(n, "observed", name + ", " + details)) else d
  }

  function AfterOrderPartner(d: Draft, o: OrderRow): Draft {
    if PartnerOf(o).Some? then AfterPartner(d, PartnerOf(o).value, o.supplierName, o.currency) else d
  }

  function AfterOrderPartners(d: Draft, os: seq<OrderRow>): Draft {
    if os == [] then d else AfterOrderPartner(AfterOrderPartners(d, os[..|os| - 1]), os[|os| - 1])
  }

  function AfterInvoicePartners(d: Draft, vs: seq<InvoiceRow>): Draft {
    if vs == [] then d
    else
      var v := vs[|vs| - 1];
      AfterPartner(AfterInvoicePartners(d, vs[..|vs| - 1]), v.supplier, v.supplierName, v.currency)
  }

  /** One document for each partner, in the order of their first rows. */
  function SupplierDocs(suppliers: map<nat, Doc>, partners: seq<nat>): seq<Doc> {
    if partners == [] then []
    else
      var front, n := SupplierDocs(suppliers, partners[..|partners| - 1]), partners[|partners| - 1];
      if n in suppliers then front + [suppliers[n]] else front
  }

  function AfterSuppliers(d: Draft, s: Snapshot): Draft {
    var seen := AfterInvoicePartners(AfterOrderPartners(AfterMasters(d, s.masters), s.orders), s.invoices);
    seen.(docs := seen.docs + SupplierDocs(seen.suppliers, seen.partners))
  }

  function AfterOrderLine(d: Draft, l: OrderLineRow, order: string): Draft {
    if !GoodOrderLine(l) then Refused(d, PurchaseOrderLines, "purchase.order.line:" + Text(l.id), "INVALID_PO_LINE")
    else WithLine(d, OrderLineOf(l, order)).(lineOf := d.lineOf[l.id := (OrderLineId(l.id), order)])
  }

  function AfterOrderLines(d: Draft, ls: seq<OrderLineRow>, order: string): Draft {
    if ls == [] then d else AfterOrderLine(AfterOrderLines(d, ls[..|ls| - 1], order), ls[|ls| - 1], order)
  }

  function NamesOrder(d: Draft, o: OrderRow, all: seq<OrderRow>): Draft
    requires 0 <= o.id
  {
    if NameTwice(all, o.name) then d else d.(orderNamed := d.orderNamed[o.name := OrderId(o.id)])
  }

  function AfterOrder(d: Draft, o: OrderRow, all: seq<OrderRow>): Draft {
    if GoodOrder(o, d.suppliers.Keys) then AfterOrderLines(NamesOrder(WithDoc(d, OrderDoc(o)), o, all), o.lines, OrderId(o.id))
    else
      var complete := PositiveInteger(o.id) && o.name != "" && PartnerOf(o).Some? && o.currency != "" && o.state != "" && o.orderedAt.Some?;
      Refused(d, PurchaseOrders, "purchase.order:" + Text(o.id), if complete then "SUPPLIER_NOT_FOUND" else "INVALID_PURCHASE_ORDER")
  }

  function AfterOrders(d: Draft, os: seq<OrderRow>, all: seq<OrderRow>): Draft {
    if os == [] then d else AfterOrder(AfterOrders(d, os[..|os| - 1], all), os[|os| - 1], all)
  }

  function AfterReceiptLine(d: Draft, l: ReceiptLineRow, receipt: string, order: string): Draft {
    if !GoodReceiptLine(l, order, d.lineOf) then Refused(d, ReceiptLines, "stock.move.line:" + Text(l.id), "INVALID_RECEIPT_LINE")
    else WithLine(d, ReceiptLineOf(l, receipt, order, d.lineOf))
  }

  function AfterReceiptLines(d: Draft, ls: seq<ReceiptLineRow>, receipt: string, order: string): Draft {
    if ls == [] then d else AfterReceiptLine(AfterReceiptLines(d, ls[..|ls| - 1], receipt, order), ls[|ls| - 1], receipt, order)
  }

  ghost function AfterReceipt(d: Draft, r: ReceiptRow): Draft {
    var order := OrderFor(r, d.lineOf, d.orderNamed);
    if GoodReceipt(r) && order.Some? then
      AfterReceiptLines(WithDoc(d, ReceiptDoc(r, order.value)), r.lines, ReceiptDoc(r, order.value).id, order.value)
    else Refused(d, Receipts, "stock.picking:" + Text(r.id), if r.state != "done" then "RECEIPT_NOT_DONE" else "INVALID_RECEIPT")
  }

  ghost function AfterReceipts(d: Draft, rs: seq<ReceiptRow>): Draft {
    if rs == [] then d else AfterReceipt(AfterReceipts(d, rs[..|rs| - 1]), rs[|rs| - 1])
  }

  function AfterInvoiceLine(d: Draft, l: InvoiceLineRow, invoice: string): Draft {
    if !GoodInvoiceLine(l) then Refused(d, InvoiceLines, "account.move.line:" + Text(l.id), "INVALID_INVOICE_LINE")
    else WithLine(d, InvoiceLineOf(l, invoice))
  }

  function AfterInvoiceLines(d: Draft, ls: seq<InvoiceLineRow>, invoice: string): Draft {
    if ls == [] then d else AfterInvoiceLine(AfterInvoiceLines(d, ls[..|ls| - 1], invoice), ls[|ls| - 1], invoice)
  }

  function AfterInvoice(d: Draft, v: InvoiceRow): Draft {
    if !GoodInvoice(v, d.suppliers.Keys) then Refused(d, Invoices, "account.move:" + Text(v.id), "INVALID_INVOICE")
    else AfterInvoiceLines(WithDoc(d, InvoiceDoc(v)), v.lines, InvoiceDoc(v).id)
  }

  function AfterInvoices(d: Draft, vs: seq<InvoiceRow>): Draft {
    if vs == [] then d else AfterInvoice(AfterInvoices(d, vs[..|vs| - 1]), vs[|vs| - 1])
  }

  ghost function Built(d: Draft, s: Snapshot): Draft {
    AfterInvoices(AfterReceipts(AfterOrders(AfterSuppliers(d, s), s.orders, s.orders), s.receipts), s.invoices)
  }

  function Incoming(rejected: seq<Rejected>): (issues: seq<Issue>)
    ensures |issues| == |rejected|
  {
    if rejected == [] then []
    else
      var last := rejected[|rejected| - 1];
      Incoming(rejected[..|rejected| - 1]) + [Issue(Suppliers, "row:" + Decimal(last.row), last.reason)]
  }

  /** The candidates, counters and issues of a snapshot. */
  ghost function Drafted(s: Snapshot): Draft {
    Built(Empty(Incoming(s.rejected)), s)
  }

  ghost function CandidatesOf(s: Snapshot): Batch {
    Batch(Drafted(s).docs, Drafted(s).lines)
  }

  // ---- the builder

  class Builder {
    var docs: seq<Doc>
    var lines: seq<Line>
    var suppliers: map<nat, Doc>
    var partners: seq<nat>
    var orderNamed: map<string, string>
    var lineOf: map<int, (string, string)>
    var stats: Stats
    var issues: seq<Issue>

    function View(): Draft
      reads this
    {
      Draft(docs, lines, suppliers, partners, orderNamed, lineOf, stats, issues)
    }

    constructor (incoming: seq<Issue>)
      ensures View() == Empty(incoming)
    {
      docs, lines, suppliers, partners, orderNamed, lineOf := [], [], map[], [], map[], map[];
      stats, issues := NO_STATS, incoming;
    }

    method Refuse(kind: Kind, external: string, code: string)
      modifies this`stats, this`issues
      ensures View() == Refused(old(View()), kind, external, code)
    {
      stats := Saw(stats, kind);
      stats := Bump(stats, kind, Skipped(code));
      issues := issues + [Issue(kind, external, code)];
    }

    method AddDocument(c: Doc)
      modifies this`docs, this`stats
      ensures View() == WithDoc(old(View()), c)
    {
      stats := Saw(stats, c.Kind());
      docs := docs + [c];
    }

    method AddLine(c: Line)
      modifies this`lines, this`stats
      ensures View() == WithLine(old(View()), c)
    {
      stats := Saw(stats, c.Kind());
      lines := lines + [c];
    }

    method SeeSupplier(n: nat, c: Doc)
      modifies this`suppliers, this`partners, this`stats
      ensures View() == WithSupplier(old(View()), n, c)
    {
      stats := Saw(stats, Suppliers);
      if n !in suppliers {
        partners := partners + [n];
      }
      suppliers := suppliers[n := c];
    }

    method AddMasters(masters: seq<Master>)
      modifies this`suppliers, this`partners, this`stats, this`issues
      ensures View() == AfterMasters(old(View()), masters)
    {
      for i := 0 to |masters|
        invariant View() == AfterMasters(old(View()), masters[..i])
      {
        assert masters[..i + 1][..i] == masters[..i];
        var n := NumberAfter("odoo-partner-", masters[i].external);
        if n.None? || masters[i].name == "" {
          Refuse(Suppliers, masters[i].external, "INVALID_SUPPLIER");
        } else {
          SeeSupplier(n.value, SupplierDoc(n.value, masters[i].status, masters[i].name + ", " + masters[i].details));
        }
      }
      assert masters[..|masters|] == masters;
    }

    method Observe(n: int, name: string, details: string)
      modifies this`suppliers, this`partners, this`stats
      ensures View() == AfterPartner(old(View()), n, name, details)
    {
      if n > 0 && n !in suppliers && name != "" {
        SeeSupplier(n, SupplierDoc(n, "observed", name + ", " + details));
      }
    }

    method ObserveOrders(orders: seq<OrderRow>)
      modifies this`suppliers, this`partners, this`stats
      ensures View() == AfterOrderPartners(old(View()), orders)
    {
      for i := 0 to |orders|
        invariant View() == AfterOrderPartners(old(View()), orders[..i])
      {
        assert orders[..i + 1][..i] == orders[..i];
        var n := PartnerOf(orders[i]);
        if n.Some? {
          Observe(n.value, orders[i].supplierName, orders[i].currency);
        }
      }
      assert orders[..|orders|] == orders;
    }

    method ObserveInvoices(invoices: seq<InvoiceRow>)
      modifies this`suppliers, this`partners, this`stats
      ensures View() == AfterInvoicePartners(old(View()), invoices)
    {
      for i := 0 to |invoices|
        invariant View() == AfterInvoicePartners(old(View()), invoices[..i])
      {
        assert invoices[..i + 1][..i] == invoices[..i];
        Observe(invoices[i].supplier, invoices[i].supplierName, invoices[i].currency);
      }
      assert invoices[..|invoices|] == invoices;
    }

    method PushSuppliers()
      modifies this`docs
      ensures docs == old(docs) + SupplierDocs(suppliers, partners)
    {
      for i := 0 to |partners|
        invariant docs == old(docs) + SupplierDocs(suppliers, partners[..i])
      {
        assert partners[..i + 1][..i] == partners[..i];
        if partners[i] in suppliers {
          docs := docs + [suppliers[partners[i]]];
        }
      }
      assert partners[..|partners|] == partners;
    }

    /** The suppliers of a snapshot: those of the masters, and those seen only on orders and invoices. */
    method AddSuppliers(s: Snapshot)
      modifies this`docs, this`suppliers, this`partners, this`stats, this`issues
      ensures View() == AfterSuppliers(old(View()), s)
    {
      AddMasters(s.masters);
      ObserveOrders(s.orders);
      ObserveInvoices(s.invoices);
      PushSuppliers();
    }

    method AddOrder(o: OrderRow, all: seq<OrderRow>)
      modifies this`docs, this`lines, this`orderNamed, this`lineOf, this`stats, this`issues
      ensures View() == AfterOrder(old(View()), o, all)
    {
      var external := "purchase.order:" + Text(o.id);
      var partner := PartnerOf(o);
      if !PositiveInteger(o.id) || o.name == "" || partner.None? || o.currency == "" || o.state == "" || o.orderedAt.None? {
        Refuse(PurchaseOrders, external, "INVALID_PURCHASE_ORDER");
        return;
      }
      if partner.value !in suppliers {
        Refuse(PurchaseOrders, external, "SUPPLIER_NOT_FOUND");
        return;
      }
      AddDocument(OrderDoc(o));
      if !NameTwice(all, o.name) {
        orderNamed := orderNamed[o.name := OrderId(o.id)];
      }
      ghost var before := View();
      for i := 0 to |o.lines|
        invariant View() == AfterOrderLines(before, o.lines[..i], OrderId(o.id))
      {
        assert o.lines[..i + 1][..i] == o.lines[..i];
        AddOrderLine(o.lines[i], OrderId(o.id));
      }
      assert o.lines[..|o.lines|] == o.lines;
    }

    method AddOrderLine(l: OrderLineRow, order: string)
      modifies this`lines, this`lineOf, this`stats, this`issues
      ensures View() == AfterOrderLine(old(View()), l, order)
    {
      if !PositiveInteger(l.id) || !Positive(l.quantity) || !l.priced {
        Refuse(PurchaseOrderLines, "purchase.order.line:" + Text(l.id), "INVALID_PO_LINE");
      } else {
        AddLine(OrderLineOf(l, order));
        lineOf := lineOf[l.id := (OrderLineId(l.id), order)];
      }
    }

    method OrderOf(r: ReceiptRow) returns (order: Option<string>)
      ensures order == OrderFor(r, lineOf, orderNamed)
    {
      var orders := PointedAt(r, lineOf);
      if |orders| == 1 {
        var only :| only in orders;
        OnlyOne(orders, only, OrderFor(r, lineOf, orderNamed).value);
        return Some(only);
      }
      return if r.orderName in orderNamed then Some(orderNamed[r.orderName]) else None;
    }

    method AddReceipt(r: ReceiptRow)
      modifies this`docs, this`lines, this`stats, this`issues
      ensures View() == AfterReceipt(old(View()), r)
    {
      var external := "stock.picking:" + Text(r.id);
      if r.state != "done" {
        Refuse(Receipts, external, "RECEIPT_NOT_DONE");
        return;
      }
      var order := OrderOf(r);
      if !PositiveInteger(r.id) || order.None? || r.doneAt.None? || r.location == 0 {
        Refuse(Receipts, external, "INVALID_RECEIPT");
        return;
      }
      var c := ReceiptDoc(r, order.value);
      AddDocument(c);
      ghost var before := View();
      for i := 0 to |r.lines|
        invariant View() == AfterReceiptLines(before, r.lines[..i], c.id, order.value)
      {
        assert r.lines[..i + 1][..i] == r.lines[..i];
        AddReceiptLine(r.lines[i], c.id, order.value);
      }
      assert r.lines[..|r.lines|] == r.lines;
    }

    method AddReceiptLine(l: ReceiptLineRow, receipt: string, order: string)
      modifies this`lines, this`stats, this`issues
      ensures View() == AfterReceiptLine(old(View()), l, receipt, order)
    {
      if !PositiveInteger(l.id) || l.orderLine == 0 || l.orderLine !in lineOf || lineOf[l.orderLine].1 != order || !Positive(l.quantity) {
        Refuse(ReceiptLines, "stock.move.line:" + Text(l.id), "INVALID_RECEIPT_LINE");
      } else {
        AddLine(ReceiptLineOf(l, receipt, order, lineOf));
      }
    }

    method AddInvoice(v: InvoiceRow)
      modifies this`docs, this`lines, this`stats, this`issues
      ensures View() == AfterInvoice(old(View()), v)
    {
      if !PositiveInteger(v.id) || !PositiveInteger(v.supplier) || v.name == "" || v.currency == "" || v.state == "" || v.date.None? || v.supplier !in suppliers {
        Refuse(Invoices, "account.move:" + Text(v.id), "INVALID_INVOICE");
        return;
      }
      var c := InvoiceDoc(v);
      AddDocument(c);
      ghost var before := View();
      for i := 0 to |v.lines|
        invariant View() == AfterInvoiceLines(before, v.lines[..i], c.id)
      {
        assert v.lines[..i + 1][..i] == v.lines[..i];
        AddInvoiceLine(v.lines[i], c.id);
      }
      assert v.lines[..|v.lines|] == v.lines;
    }

    method AddInvoiceLine(l: InvoiceLineRow, invoice: string)
      modifies this`lines, this`stats, this`issues
      ensures View() == AfterInvoiceLine(old(View()), l, invoice)
    {
      if !PositiveInteger(l.id) || !Positive(l.quantity) || !l.priced {
        Refuse(InvoiceLines, "account.move.line:" + Text(l.id), "INVALID_INVOICE_LINE");
      } else {
        AddLine(InvoiceLineOf(l, invoice));
      }
    }

    method AddOrders(orders: seq<OrderRow>)
      modifies this`docs, this`lines, this`orderNamed, this`lineOf, this`stats, this`issues
      ensures View() == AfterOrders(old(View()), orders, orders)
    {
      for i := 0 to |orders|
        invariant View() == AfterOrders(old(View()), orders[..i], orders)
      {
        assert orders[..i + 1][..i] == orders[..i];
        AddOrder(orders[i], orders);
      }
      assert orders[..|orders|] == orders;
    }

    method AddReceipts(receipts: seq<ReceiptRow>)
      modifies this`docs, this`lines, this`stats, this`issues
      ensures View() == AfterReceipts(old(View()), receipts)
    {
      for i := 0 to |receipts|
        invariant View() == AfterReceipts(old(View()), receipts[..i])
      {
        assert receipts[..i + 1][..i] == receipts[..i];
        AddReceipt(receipts[i]);
      }
      assert receipts[..|receipts|] == receipts;
    }

    method AddInvoices(invoices: seq<InvoiceRow>)
      modifies this`docs, this`lines, this`stats, this`issues
      ensures View() == AfterInvoices(old(View()), invoices)
    {
      for i := 0 to |invoices|
        invariant View() == AfterInvoices(old(View()), invoices[..i])
      {
        assert invoices[..i + 1][..i] == invoices[..i];
        AddInvoice(invoices[i]);
      }
      assert invoices[..|invoices|] == invoices;
    }
  }

  method BuildCandidates(s: Snapshot) returns (b: Batch, stats: Stats, issues: seq<Issue>)
    ensures b == CandidatesOf(s) && stats == Drafted(s).stats && issues == Drafted(s).issues
  {
    var builder := new Builder(Incoming(s.rejected));
    builder.AddSuppliers(s);
    builder.AddOrders(s.orders);
    builder.AddReceipts(s.receipts);
    builder.AddInvoices(s.invoices);
    return Batch(builder.docs, builder.lines), builder.stats, builder.issues;
  }
}
