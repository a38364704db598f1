/**
 The candidates of a snapshot, field by field from its rows: what each kept row brings, which rows are
 kept, and which order a receipt belongs to. Nothing here names the functions that build the records.
 */
module OdooFields {
  import opened Basics
  import opened Decimals
  import opened OdooTables
  import opened OdooImport
  import opened OdooCandidates
  import opened OdooCounts
  import opened OdooContents
  import opened OdooSnapshot

  // ---- numbers in names

  /** A name with a number in it is the prefix and the numeral of a positive number. */
  lemma NumberAfterIs(prefix: string, text: string, n: nat)
    ensures NumberAfter(prefix, text) == Some(n) <==> n > 0 && text == prefix + Decimal(n)
  {
    if NumberAfter(prefix, text) == Some(n) {
      DecimalValue(text[|prefix|..]);
      assert text == text[..|prefix|] + text[|prefix|..];
    }
    if n > 0 && text == prefix + Decimal(n) {
      DecimalStarts(n);
      DecimalIsDigits(n);
      ValueDecimal(n);
      assert text[|prefix|..] == Decimal(n);
      assert text[|prefix|] == Decimal(n)[0];
      forall i | |prefix| <= i < |text| ensures '0' <= text[i] <= '9' {
        assert text[i] == Decimal(n)[i - |prefix|];
      }
    }
  }

  predicate Id(n: int) { 1 <= n <= 9007199254740991 }

  predicate NamesPartner(m: Master, n: nat) {
    n > 0 && m.external == "odoo-partner-" + Decimal(n) && m.name != ""
  }

  predicate OrderNames(o: OrderRow, n: nat) {
    n > 0 && o.supplier == "odoo-" + Decimal(n) && o.supplierName != ""
  }

  predicate InvoiceNames(v: InvoiceRow, n: nat) {
    n > 0 && v.supplier == n && v.supplierName != ""
  }

  /** Some row of the snapshot brings the partner. */
  ghost predicate Brought(s: Snapshot, n: nat) {
    || AnyNames(s.masters, n)
    || (exists o :: o in s.orders && OrderNames(o, n))
    || (exists v :: v in s.invoices && InvoiceNames(v, n))
  }

  ghost predicate AnyNames(ms: seq<Master>, n: nat) {
    exists m :: m in ms && NamesPartner(m, n)
  }

  lemma {:induction false} ValidPartnersAre(ms: seq<Master>, n: nat)
    ensures n in ValidPartners(ms) <==> AnyNames(ms, n)
  {
    if ms != [] {
      var front, last := ms[..|ms| - 1], ms[|ms| - 1];
      ValidPartnersAre(front, n);
      NumberAfterIs("odoo-partner-", last.external, n);
      InFrontOrLast(ms);
      assert n in ValidPartners(ms) <==> n in ValidPartners(front) || NamesPartner(last, n);
      assert AnyNames(ms, n) <==> AnyNames(front, n) || NamesPartner(last, n);
    }
  }

  lemma PartnersAreBrought(s: Snapshot, n: nat)
    ensures n in PartnersOf(s) <==> Brought(s, n)
  {
    ValidPartnersAre(s.masters, n);
    forall o | o in s.orders
      ensures PartnerOf(o) == Some(n) && n > 0 && o.supplierName != "" <==> OrderNames(o, n)
    {
      NumberAfterIs("odoo-", o.supplier, n);
    }
    assert n in OrderPartners(s.orders) <==> exists o :: o in s.orders && OrderNames(o, n);
    assert n in InvoicePartners(s.invoices) <==> exists v :: v in s.invoices && InvoiceNames(v, n);
  }

  // ---- orders

  ghost predicate OrderKept(s: Snapshot, o: OrderRow) {
    && o in s.orders && Id(o.id) && o.name != "" && o.currency != "" && o.state != "" && o.orderedAt.Some?
    && exists n: nat :: n > 0 && o.supplier == "odoo-" + Decimal(n) && Brought(s, n)
  }

  lemma OrderIsKept(s: Snapshot, o: OrderRow)
    requires o in s.orders
    ensures OrderKept(s, o) <==> GoodOrder(o, PartnersOf(s))
  {
    if GoodOrder(o, PartnersOf(s)) {
      var n := PartnerOf(o).value;
      NumberAfterIs("odoo-", o.supplier, n);
      PartnersAreBrought(s, n);
    }
    if OrderKept(s, o) {
      var n: nat :| n > 0 && o.supplier == "odoo-" + Decimal(n) && Brought(s, n);
      NumberAfterIs("odoo-", o.supplier, n);
      PartnersAreBrought(s, n);
    }
  }

  function OrderName(n: int): string { if n > 0 then "purchase-order:odoo:" + Decimal(n) else "" }

  function OrderLineName(n: int): string { if n > 0 then "purchase-order-line:odoo:" + Decimal(n) else "" }

  predicate OrderSays(c: Doc, o: OrderRow) {
    && o.id > 0 && c.id == OrderName(o.id) && c.system == "odoo" && c.external == "purchase.order:" + Decimal(o.id)
    && o.orderedAt == Some(c.createdAt) && c.updatedAt == 0 && c.content == PurchaseOrder(c.createdAt, o.confirmedAt) && c.details == o.details
    && (o.state == "draft" || o.state == "to approve" ==> c.status == "draft")
    && (o.state == "purchase" || o.state == "done" ==> c.status == "confirmed")
    && (o.state == "cancel" ==> c.status == "cancelled")
    && (o.state !in {"draft", "to approve", "purchase", "done", "cancel"} ==> c.status == o.state)
  }

  predicate OrderLineKept(l: OrderLineRow) {
    Id(l.id) && l.priced && l.quantity.Some? && l.quantity.value > 0.0
  }

  predicate OrderLineSays(c: Line, l: OrderLineRow, o: OrderRow) {
    && c.id == OrderLineName(l.id) && c.document == OrderName(o.id) && l.id > 0 && c.number == Decimal(l.id) && c.details == l.details
    && c.content.Ordered? && l.quantity == Some(c.content.quantity)
  }

  ghost predicate IsOrder(s: Snapshot, c: Doc) {
    exists o :: OrderKept(s, o) && OrderSays(c, o)
  }

  ghost predicate IsOrderLine(s: Snapshot, c: Line) {
    exists o, l :: OrderKept(s, o) && l in o.lines && OrderLineKept(l) && OrderLineSays(c, l, o)
  }

  lemma {:induction false} OrderDocsAre(os: seq<OrderRow>, known: set<nat>, c: Doc)
    ensures c in GoodOrderDocs(os, known) <==> exists o :: o in os && GoodOrder(o, known) && OrderSays(c, o)
  {
    if os != [] {
      OrderDocsAre(os[..|os| - 1], known, c);
      InFrontOrLast(os);
    }
  }

  ghost predicate OrderLineAmong(ls: seq<OrderLineRow>, o: OrderRow, c: Line) {
    exists l :: l in ls && OrderLineKept(l) && OrderLineSays(c, l, o)
  }

  lemma {:induction false} OrderLinesAre(ls: seq<OrderLineRow>, o: OrderRow, c: Line)
    requires o.id > 0
    ensures c in GoodOrderLines(ls, OrderName(o.id)) <==> OrderLineAmong(ls, o, c)
  {
    if ls != [] {
      var front, last := ls[..|ls| - 1], ls[|ls| - 1];
      OrderLinesAre(front, o, c);
      InFrontOrLast(ls);
      assert OrderLineAmong(ls, o, c) <==> OrderLineAmong(front, o, c) || (OrderLineKept(last) && OrderLineSays(c, last, o));
    }
  }

  ghost predicate LineOfAny(os: seq<OrderRow>, known: set<nat>, c: Line) {
    exists o, l :: o in os && GoodOrder(o, known) && l in o.lines && OrderLineKept(l) && OrderLineSays(c, l, o)
  }

  lemma {:induction false} LinesOfOrdersAre(os: seq<OrderRow>, known: set<nat>, c: Line)
    ensures c in LinesOfGoodOrders(os, known) <==> LineOfAny(os, known, c)
  {
    if os != [] {
      var front, last := os[..|os| - 1], os[|os| - 1];
      LinesOfOrdersAre(front, known, c);
      InFrontOrLast(os);
      if GoodOrder(last, known) {
        OrderLinesAre(last.lines, last, c);
      }
      if LineOfAny(front, known, c) {
        var o, l :| o in front && GoodOrder(o, known) && l in o.lines && OrderLineKept(l) && OrderLineSays(c, l, o);
        assert o in os;
      }
    }
  }

  lemma OrdersAreTheRows(s: Snapshot)
    ensures forall c :: c in GoodOrderDocs(s.orders, PartnersOf(s)) <==> IsOrder(s, c)
    ensures forall c :: c in LinesOfGoodOrders(s.orders, PartnersOf(s)) <==> IsOrderLine(s, c)
  {
    forall o | o in s.orders ensures OrderKept(s, o) <==> GoodOrder(o, PartnersOf(s)) {
      OrderIsKept(s, o);
    }
    forall c: Doc ensures c in GoodOrderDocs(s.orders, PartnersOf(s)) <==> IsOrder(s, c) {
      OrderDocsAre(s.orders, PartnersOf(s), c);
    }
    forall c: Line ensures c in LinesOfGoodOrders(s.orders, PartnersOf(s)) <==> IsOrderLine(s, c) {
      LinesOfOrdersAre(s.orders, PartnersOf(s), c);
      if LineOfAny(s.orders, PartnersOf(s), c) {
        var o, l :| o in s.orders && GoodOrder(o, PartnersOf(s)) && l in o.lines && OrderLineKept(l) && OrderLineSays(c, l, o);
        assert OrderKept(s, o);
      }
    }
  }

  // ---- which order a receipt belongs to

  predicate HasLine(o: OrderRow, n: int) {
    exists l :: l in o.lines && OrderLineKept(l) && l.id == n
  }

  /** The last kept order with a kept line of this number. */
  ghost predicate Owner(s: Snapshot, n: int, order: string) {
    exists i :: 0 <= i < |s.orders| && OrderKept(s, s.orders[i]) && HasLine(s.orders[i], n) && order == OrderName(s.orders[i].id)
             && forall j :: i < j < |s.orders| ==> !(OrderKept(s, s.orders[j]) && HasLine(s.orders[j], n))
  }

  /** A kept order with a name that no other order row has. */
  ghost predicate OwnName(s: Snapshot, name: string, order: string) {
    exists i :: 0 <= i < |s.orders| && OrderKept(s, s.orders[i]) && s.orders[i].name == name && order == OrderName(s.orders[i].id)
             && forall j :: 0 <= j < |s.orders| && j != i ==> s.orders[j].name != name
  }

  /** A line of the receipt names an order line that belongs to the order. */
  ghost predicate Points(s: Snapshot, r: ReceiptRow, order: string) {
    exists l :: l in r.lines && Owner(s, l.orderLine, order)
  }

  /** The only order the receipt's lines point at, or else the order that alone has the receipt's order name. */
  ghost predicate Belongs(s: Snapshot, r: ReceiptRow, order: string) {
    if exists only :: Points(s, r, only) && forall other :: Points(s, r, other) ==> other == only
    then Points(s, r, order)
    else OwnName(s, r.orderName, order)
  }

  /** The owner among a list of orders, as the index of order lines keeps it. */
  ghost predicate OwnerAmong(os: seq<OrderRow>, known: set<nat>, n: int, order: string) {
    exists i :: OwnerAt(os, known, n, order, i)
  }

  predicate Takes(o: OrderRow, known: set<nat>, n: int) {
    GoodOrder(o, known) && HasLine(o, n)
  }

  ghost predicate OwnerAt(os: seq<OrderRow>, known: set<nat>, n: int, order: string, i: int) {
    0 <= i < |os| && Takes(os[i], known, n) && order == OrderName(os[i].id) && forall j :: i < j < |os| ==> !Takes(os[j], known, n)
  }

  ghost predicate HasLineAmong(ls: seq<OrderLineRow>, n: int) {
    exists l :: l in ls && OrderLineKept(l) && l.id == n
  }

  lemma {:induction false} LinesIndex(d: Draft, ls: seq<OrderLineRow>, o: OrderRow, n: int)
    requires o.id > 0
    ensures var after := AfterOrderLines(d, ls, OrderName(o.id)).lineOf;
            if HasLineAmong(ls, n) then n in after && after[n] == (OrderLineName(n), OrderName(o.id))
            else (n in after <==> n in d.lineOf) && (n in d.lineOf ==> after[n] == d.lineOf[n])
  {
    if ls != [] {
      var front, last := ls[..|ls| - 1], ls[|ls| - 1];
      LinesIndex(d, front, o, n);
      InFrontOrLast(ls);
      assert HasLineAmong(ls, n) <==> HasLineAmong(front, n) || (OrderLineKept(last) && last.id == n);
    }
  }

  lemma OwnerSnoc(os: seq<OrderRow>, o: OrderRow, known: set<nat>, n: int, order: string)
    ensures OwnerAmong(os + [o], known, n, order) <==>
              if Takes(o, known, n) then order == OrderName(o.id) else OwnerAmong(os, known, n, order)
  {
    var more := os + [o];
    if Takes(o, known, n) {
      assert OwnerAt(more, known, n, OrderName(o.id), |os|);
    } else {
      if i :| OwnerAt(os, known, n, order, i) {
        assert OwnerAt(more, known, n, order, i);
      }
      if i :| OwnerAt(more, known, n, order, i) {
        assert forall j :: 0 <= j < |os| ==> os[j] == more[j];
        assert OwnerAt(os, known, n, order, i);
      }
    }
  }

  lemma OrderIndex(d: Draft, o: OrderRow, all: seq<OrderRow>, n: int)
    ensures var after := AfterOrder(d, o, all).lineOf;
            if Takes(o, d.suppliers.Keys, n) then n in after && after[n] == (OrderLineName(n), OrderName(o.id))
            else (n in after <==> n in d.lineOf) && (n in d.lineOf ==> after[n] == d.lineOf[n])
  {
    if GoodOrder(o, d.suppliers.Keys) {
      LinesIndex(NamesOrder(WithDoc(d, OrderDoc(o)), o, all), o.lines, o, n);
      assert HasLine(o, n) <==> HasLineAmong(o.lines, n);
    }
  }

  lemma {:induction false} OwnersIndexed(d: Draft, os: seq<OrderRow>, all: seq<OrderRow>, n: int, order: string)
    requires n !in d.lineOf
    ensures var after := AfterOrders(d, os, all).lineOf;
            && (n in after && after[n].1 == order <==> OwnerAmong(os, d.suppliers.Keys, n, order))
            && (n in after ==> after[n].0 == OrderLineName(n))
  {
    if os != [] {
      var front, o := os[..|os| - 1], os[|os| - 1];
      OwnersIndexed(d, front, all, n, order);
      OrdersContents(d, front, all);
      assert front + [o] == os;
      OwnerSnoc(front, o, d.suppliers.Keys, n, order);
      OrderIndex(AfterOrders(d, front, all), o, all, n);
    }
  }

  /** What the builder's index of order lines says about a number, in terms of the rows. */
  ghost predicate TellsLine(d: Draft, s: Snapshot, n: int, order: string) {
    && (n in d.lineOf && d.lineOf[n].1 == order <==> Owner(s, n, order))
    && (n in d.lineOf ==> d.lineOf[n].0 == OrderLineName(n) && n > 0)
  }

  ghost predicate TellsName(d: Draft, s: Snapshot, name: string, order: string) {
    name in d.orderNamed && d.orderNamed[name] == order <==> OwnName(s, name, order)
  }

  ghost predicate IndexesTell(d: Draft, s: Snapshot) {
    && (forall n, order :: TellsLine(d, s, n, order))
    && (forall name, order :: TellsName(d, s, name, order))
  }

  lemma OwnersAre(s: Snapshot, n: int, order: string)
    ensures OwnerAmong(s.orders, PartnersOf(s), n, order) <==> Owner(s, n, order)
  {
    forall o | o in s.orders ensures OrderKept(s, o) && HasLine(o, n) <==> Takes(o, PartnersOf(s), n) {
      OrderIsKept(s, o);
    }
    if i :| OwnerAt(s.orders, PartnersOf(s), n, order, i) {
      assert OrderKept(s, s.orders[i]);
    }
    if i :| 0 <= i < |s.orders| && OrderKept(s, s.orders[i]) && HasLine(s.orders[i], n) && order == OrderName(s.orders[i].id)
            && forall j :: i < j < |s.orders| ==> !(OrderKept(s, s.orders[j]) && HasLine(s.orders[j], n)) {
      assert OwnerAt(s.orders, PartnersOf(s), n, order, i);
    }
  }

  lemma NameIsOwn(d: Draft, s: Snapshot, name: string)
    requires IndexesOrderNames(d, s.orders, s.orders) && d.suppliers.Keys == PartnersOf(s) && name in d.orderNamed
    ensures OwnName(s, name, d.orderNamed[name])
  {
    assert IsName(s.orders, s.orders, d.suppliers.Keys, name, d.orderNamed[name]);
    var o :| o in s.orders && GoodOrder(o, d.suppliers.Keys) && o.name == name && d.orderNamed[name] == OrderId(o.id);
    OrderIsKept(s, o);
    var i :| 0 <= i < |s.orders| && s.orders[i] == o;
    assert OrderKept(s, s.orders[i]);
  }

  /** Two owners of a name are the same row. */
  lemma OneOwner(s: Snapshot, name: string, a: string, b: string)
    requires OwnName(s, name, a) && OwnName(s, name, b)
    ensures a == b
  {
  }

  lemma OwnIsNamed(d: Draft, s: Snapshot, name: string, order: string)
    requires IndexesOrderNames(d, s.orders, s.orders) && d.suppliers.Keys == PartnersOf(s) && OwnName(s, name, order)
    ensures name in d.orderNamed && d.orderNamed[name] == order
  {
    var i :| 0 <= i < |s.orders| && OrderKept(s, s.orders[i]) && s.orders[i].name == name && order == OrderName(s.orders[i].id)
            && forall j :: 0 <= j < |s.orders| && j != i ==> s.orders[j].name != name;
    OrderIsKept(s, s.orders[i]);
    assert s.orders[i] in s.orders && !NameTwice(s.orders, name);
    NameIsOwn(d, s, name);
    OneOwner(s, name, order, d.orderNamed[name]);
  }

  lemma LineIsTold(d1: Draft, s: Snapshot, d2: Draft, n: int, order: string)
    requires d1.lineOf == map[] && d1.suppliers.Keys == PartnersOf(s) && d2 == AfterOrders(d1, s.orders, s.orders)
    ensures TellsLine(d2, s, n, order)
  {
    OwnersIndexed(d1, s.orders, s.orders, n, order);
    OwnersAre(s, n, order);
    if n in d2.lineOf {
      OwnersIndexed(d1, s.orders, s.orders, n, d2.lineOf[n].1);
    }
  }

  lemma NameIsTold(d: Draft, s: Snapshot, name: string, order: string)
    requires IndexesOrderNames(d, s.orders, s.orders) && d.suppliers.Keys == PartnersOf(s)
    ensures TellsName(d, s, name, order)
  {
    if name in d.orderNamed {
      NameIsOwn(d, s, name);
    }
    if OwnName(s, name, order) {
      OwnIsNamed(d, s, name, order);
    }
  }

  lemma IndexesFrom(d1: Draft, s: Snapshot, d2: Draft, d: Draft)
    requires d1.lineOf == map[] && d1.orderNamed == map[] && d1.suppliers.Keys == PartnersOf(s)
    requires d2 == AfterOrders(d1, s.orders, s.orders) && SameIndexes(d2, d)
    ensures IndexesTell(d, s)
  {
    forall n, order ensures TellsLine(d, s, n, order) {
      LineIsTold(d1, s, d2, n, order);
    }
    forall name, order ensures TellsName(d, s, name, order) {
      OrdersContents(d1, s.orders, s.orders);
      OrdersIndexed(d1, s.orders, s.orders);
      NameIsTold(d2, s, name, order);
    }
  }

  lemma DraftedIndexes(s: Snapshot)
    ensures IndexesTell(Drafted(s), s)
  {
    var d := Empty(Incoming(s.rejected));
    SuppliersFirst(d, s);
    var d1 := AfterSuppliers(d, s);
    var d2 := AfterOrders(d1, s.orders, s.orders);
    ReceiptsKeepIndexes(d2, s.receipts);
    InvoicesKeep(AfterReceipts(d2, s.receipts), s.invoices);
    IndexesFrom(d1, s, d2, Drafted(s));
  }

  lemma PointedAtPoints(d: Draft, s: Snapshot, r: ReceiptRow, order: string)
    requires IndexesTell(d, s)
    ensures order in PointedAt(r, d.lineOf) <==> Points(s, r, order)
  {
    if l :| l in r.lines && Owner(s, l.orderLine, order) {
      assert TellsLine(d, s, l.orderLine, order);
    }
    if order in PointedAt(r, d.lineOf) {
      var l :| l in r.lines && l.orderLine in d.lineOf && d.lineOf[l.orderLine].1 == order;
      assert TellsLine(d, s, l.orderLine, order);
    }
  }

  lemma SingletonMeansOnly<T>(xs: set<T>)
    ensures |xs| == 1 <==> exists only :: only in xs && forall other :: other in xs ==> other == only
  {
    if |xs| == 1 {
      var only :| only in xs;
      forall other | other in xs ensures other == only {
        OnlyOne(xs, other, only);
      }
    }
    if only :| only in xs && forall other :: other in xs ==> other == only {
      assert xs == {only};
    }
  }

  /** The order the builder finds for a receipt is the one it belongs to. */
  lemma FoundBelongs(d: Draft, s: Snapshot, r: ReceiptRow, order: string)
    requires IndexesTell(d, s)
    ensures OrderFor(r, d.lineOf, d.orderNamed) == Some(order) <==> Belongs(s, r, order)
  {
    var xs := PointedAt(r, d.lineOf);
    assert TellsName(d, s, r.orderName, order);
    forall x ensures x in xs <==> Points(s, r, x) {
      PointedAtPoints(d, s, r, x);
    }
    SingletonMeansOnly(xs);
    if |xs| == 1 {
      var only :| only in xs;
      forall x | x in xs ensures x == only {
        OnlyOne(xs, x, only);
      }
    }
  }

  // ---- receipts

  predicate ReceiptKept(r: ReceiptRow) {
    r.state == "done" && Id(r.id) && r.doneAt.Some? && r.location != 0
  }

  predicate ReceiptSays(c: Doc, r: ReceiptRow, order: string) {
    && r.id > 0 && c.id == "receipt:odoo:" + Decimal(r.id) && c.system == "odoo" && c.external == "stock.picking:" + Decimal(r.id)
    && c.status == "received" && c.details == r.details
    && c.content.Receipt? && c.content.po == order && r.doneAt == Some(c.content.receivedAt)
    && (r.createdAt == Some(c.createdAt) || (r.createdAt == None && c.createdAt == c.content.receivedAt))
    && (r.updatedAt == Some(c.updatedAt) || (r.updatedAt == None && c.updatedAt == c.content.receivedAt))
  }

  predicate ReceiptLineKept(l: ReceiptLineRow) {
    Id(l.id) && l.quantity.Some? && l.quantity.value > 0.0
  }

  predicate ReceiptLineSays(c: Line, l: ReceiptLineRow, r: ReceiptRow) {
    && l.id > 0 && r.id > 0 && c.id == "receipt-line:odoo:" + Decimal(l.id) && c.document == "receipt:odoo:" + Decimal(r.id)
    && c.number == Decimal(l.id) && c.details == l.details
    && c.content.ReceivedFor? && c.content.poLine == OrderLineName(l.orderLine) && l.quantity == Some(c.content.quantity)
  }

  ghost predicate IsReceipt(s: Snapshot, c: Doc) {
    exists r, order :: r in s.receipts && ReceiptKept(r) && Belongs(s, r, order) && ReceiptSays(c, r, order)
  }

  ghost predicate LineOfReceipt(s: Snapshot, r: ReceiptRow, order: string, c: Line) {
    exists l :: l in r.lines && ReceiptLineKept(l) && Owner(s, l.orderLine, order) && ReceiptLineSays(c, l, r)
  }

  ghost predicate IsReceiptLine(s: Snapshot, c: Line) {
    exists r, order :: r in s.receipts && ReceiptKept(r) && Belongs(s, r, order) && LineOfReceipt(s, r, order, c)
  }

  lemma ReceiptFound(d: Draft, s: Snapshot, r: ReceiptRow, order: string)
    requires IndexesTell(d, s)
    ensures HasOrder(r, d) && DocOfReceipt(r, d).content.po == order <==> ReceiptKept(r) && Belongs(s, r, order)
    ensures HasOrder(r, d) && DocOfReceipt(r, d).content.po == order ==>
              DocOfReceipt(r, d).id == "receipt:odoo:" + Decimal(r.id) && forall c :: ReceiptSays(c, r, order) <==> c == DocOfReceipt(r, d)
  {
    FoundBelongs(d, s, r, order);
  }

  ghost predicate ReceiptAmong(rs: seq<ReceiptRow>, d: Draft, c: Doc) {
    exists r :: r in rs && HasOrder(r, d) && c == DocOfReceipt(r, d)
  }

  lemma {:induction false} ReceiptDocsAre(rs: seq<ReceiptRow>, d: Draft, c: Doc)
    ensures c in GoodReceiptDocs(rs, d) <==> ReceiptAmong(rs, d, c)
  {
    if rs != [] {
      var front, last := rs[..|rs| - 1], rs[|rs| - 1];
      ReceiptDocsAre(front, d, c);
      InFrontOrLast(rs);
      assert ReceiptAmong(rs, d, c) <==> ReceiptAmong(front, d, c) || (HasOrder(last, d) && c == DocOfReceipt(last, d));
    }
  }

  lemma ReceiptsAre(d: Draft, s: Snapshot, c: Doc)
    requires IndexesTell(d, s)
    ensures c in GoodReceiptDocs(s.receipts, d) <==> IsReceipt(s, c)
  {
    ReceiptDocsAre(s.receipts, d, c);
    if r :| r in s.receipts && HasOrder(r, d) && c == DocOfReceipt(r, d) {
      ReceiptFound(d, s, r, c.content.po);
      assert Belongs(s, r, c.content.po) && ReceiptSays(c, r, c.content.po);
    }
    if r, order :| r in s.receipts && ReceiptKept(r) && Belongs(s, r, order) && ReceiptSays(c, r, order) {
      ReceiptFound(d, s, r, order);
    }
  }

  ghost predicate ReceiptLineAmong(d: Draft, s: Snapshot, ls: seq<ReceiptLineRow>, r: ReceiptRow, order: string, c: Line) {
    exists l :: l in ls && ReceiptLineKept(l) && Owner(s, l.orderLine, order) && ReceiptLineSays(c, l, r)
  }

  lemma OneReceiptLine(d: Draft, s: Snapshot, l: ReceiptLineRow, r: ReceiptRow, order: string, c: Line)
    requires IndexesTell(d, s) && r.id > 0
    ensures GoodReceiptLine(l, order, d.lineOf) && c == ReceiptLineOf(l, "receipt:odoo:" + Decimal(r.id), order, d.lineOf)
       <==> ReceiptLineKept(l) && Owner(s, l.orderLine, order) && ReceiptLineSays(c, l, r)
  {
    assert TellsLine(d, s, l.orderLine, order);
  }

  lemma {:induction false} ReceiptLinesAre(d: Draft, s: Snapshot, ls: seq<ReceiptLineRow>, r: ReceiptRow, order: string, c: Line)
    requires IndexesTell(d, s) && r.id > 0
    ensures c in GoodReceiptLines(ls, "receipt:odoo:" + Decimal(r.id), order, d.lineOf) <==> ReceiptLineAmong(d, s, ls, r, order, c)
  {
    if ls != [] {
      var front, last := ls[..|ls| - 1], ls[|ls| - 1];
      ReceiptLinesAre(d, s, front, r, order, c);
      OneReceiptLine(d, s, last, r, order, c);
      InFrontOrLast(ls);
      assert ReceiptLineAmong(d, s, ls, r, order, c) <==>
               || ReceiptLineAmong(d, s, front, r, order, c)
               || (ReceiptLineKept(last) && Owner(s, last.orderLine, order) && ReceiptLineSays(c, last, r));
    }
  }

  ghost predicate LineAmongReceipts(d: Draft, rs: seq<ReceiptRow>, c: Line) {
    exists r :: r in rs && HasOrder(r, d) && c in GoodReceiptLines(r.lines, DocOfReceipt(r, d).id, DocOfReceipt(r, d).content.po, d.lineOf)
  }

  lemma {:induction false} LinesAmongReceipts(d: Draft, rs: seq<ReceiptRow>, c: Line)
    ensures c in LinesOfGoodReceipts(rs, d) <==> LineAmongReceipts(d, rs, c)
  {
    if rs != [] {
      var front, last := rs[..|rs| - 1], rs[|rs| - 1];
      LinesAmongReceipts(d, front, c);
      InFrontOrLast(rs);
      assert LineAmongReceipts(d, rs, c) <==>
               || LineAmongReceipts(d, front, c)
               || (HasOrder(last, d) && c in GoodReceiptLines(last.lines, DocOfReceipt(last, d).id, DocOfReceipt(last, d).content.po, d.lineOf));
    }
  }

  lemma LinesOfReceiptsAre(d: Draft, s: Snapshot, c: Line)
    requires IndexesTell(d, s)
    ensures c in LinesOfGoodReceipts(s.receipts, d) <==> IsReceiptLine(s, c)
  {
    LinesAmongReceipts(d, s.receipts, c);
    if r :| r in s.receipts && HasOrder(r, d) && c in GoodReceiptLines(r.lines, DocOfReceipt(r, d).id, DocOfReceipt(r, d).content.po, d.lineOf) {
      var order := DocOfReceipt(r, d).content.po;
      ReceiptFound(d, s, r, order);
      ReceiptLinesAre(d, s, r.lines, r, order, c);
      assert Belongs(s, r, order) && LineOfReceipt(s, r, order, c);
    }
    if r, order :| r in s.receipts && ReceiptKept(r) && Belongs(s, r, order) && LineOfReceipt(s, r, order, c) {
      ReceiptFound(d, s, r, order);
      ReceiptLinesAre(d, s, r.lines, r, order, c);
    }
  }

  // ---- invoices

  ghost predicate InvoiceKept(s: Snapshot, v: InvoiceRow) {
    && v in s.invoices && Id(v.id) && Id(v.supplier) && v.name != "" && v.currency != "" && v.state != "" && v.date.Some?
    && Brought(s, v.supplier)
  }

  predicate InvoiceSays(c: Doc, v: InvoiceRow) {
    && v.id > 0 && v.supplier > 0 && c.id == "invoice:odoo:" + Decimal(v.id) && c.system == "odoo" && c.external == "account.move:" + Decimal(v.id)
    && c.content == Invoice("supplier:odoo:" + Decimal(v.supplier), v.name) && c.details == v.details && v.date.Some?
    && (v.createdAt == Some(c.createdAt) || (v.createdAt == None && v.date == Some(c.createdAt)))
    && (v.updatedAt == Some(c.updatedAt) || (v.updatedAt == None && v.date == Some(c.updatedAt)))
    && (v.state == "cancel" ==> c.status == "exception") && (v.state == "draft" || v.state == "posted" ==> c.status == "received")
    && (v.state !in {"cancel", "draft", "posted"} ==> c.status == v.state)
  }

  predicate InvoiceLineKept(l: InvoiceLineRow) {
    Id(l.id) && l.priced && l.quantity.Some? && l.quantity.value > 0.0
  }

  predicate InvoiceLineSays(c: Line, l: InvoiceLineRow, v: InvoiceRow) {
    && l.id > 0 && v.id > 0 && c.id == "invoice-line:odoo:" + Decimal(l.id) && c.document == "invoice:odoo:" + Decimal(v.id)
    && c.number == Decimal(l.id) && c.details == l.details && c.content.Invoiced?
  }

  ghost predicate IsInvoice(s: Snapshot, c: Doc) {
    exists v :: InvoiceKept(s, v) && InvoiceSays(c, v)
  }

  ghost predicate IsInvoiceLine(s: Snapshot, c: Line) {
    exists v, l :: InvoiceKept(s, v) && l in v.lines && InvoiceLineKept(l) && InvoiceLineSays(c, l, v)
  }

  lemma InvoiceIsKept(s: Snapshot, v: InvoiceRow)
    requires v in s.invoices
    ensures InvoiceKept(s, v) <==> GoodInvoice(v, PartnersOf(s))
  {
    if v.supplier > 0 {
      PartnersAreBrought(s, v.supplier);
    }
  }

  lemma {:induction false} InvoiceDocsAre(vs: seq<InvoiceRow>, known: set<nat>, c: Doc)
    ensures c in GoodInvoiceDocs(vs, known) <==> exists v :: v in vs && GoodInvoice(v, known) && InvoiceSays(c, v)
  {
    if vs != [] {
      InvoiceDocsAre(vs[..|vs| - 1], known, c);
      InFrontOrLast(vs);
    }
  }

  ghost predicate InvoiceLineAmong(ls: seq<InvoiceLineRow>, v: InvoiceRow, c: Line) {
    exists l :: l in ls && InvoiceLineKept(l) && InvoiceLineSays(c, l, v)
  }

  lemma {:induction false} InvoiceLinesAre(ls: seq<InvoiceLineRow>, v: InvoiceRow, c: Line)
    requires v.id > 0
    ensures c in GoodInvoiceLines(ls, "invoice:odoo:" + Decimal(v.id)) <==> InvoiceLineAmong(ls, v, c)
  {
    if ls != [] {
      var front, last := ls[..|ls| - 1], ls[|ls| - 1];
      InvoiceLinesAre(front, v, c);
      InFrontOrLast(ls);
      assert InvoiceLineAmong(ls, v, c) <==> InvoiceLineAmong(front, v, c) || (InvoiceLineKept(last) && InvoiceLineSays(c, last, v));
    }
  }

  ghost predicate LineOfAnyInvoice(vs: seq<InvoiceRow>, known: set<nat>, c: Line) {
    exists v, l :: v in vs && GoodInvoice(v, known) && l in v.lines && InvoiceLineKept(l) && InvoiceLineSays(c, l, v)
  }

  lemma {:induction false} LinesOfInvoicesAre(vs: seq<InvoiceRow>, known: set<nat>, c: Line)
    ensures c in LinesOfGoodInvoices(vs, known) <==> LineOfAnyInvoice(vs, known, c)
  {
    if vs != [] {
      var front, last := vs[..|vs| - 1], vs[|vs| - 1];
      LinesOfInvoicesAre(front, known, c);
      InFrontOrLast(vs);
      if GoodInvoice(last, known) {
        InvoiceLinesAre(last.lines, last, c);
      }
      if LineOfAnyInvoice(front, known, c) {
        var v, l :| v in front && GoodInvoice(v, known) && l in v.lines && InvoiceLineKept(l) && InvoiceLineSays(c, l, v);
        assert v in vs;
      }
    }
  }

  lemma InvoicesAreTheRows(s: Snapshot)
    ensures forall c :: c in GoodInvoiceDocs(s.invoices, PartnersOf(s)) <==> IsInvoice(s, c)
    ensures forall c :: c in LinesOfGoodInvoices(s.invoices, PartnersOf(s)) <==> IsInvoiceLine(s, c)
  {
    forall v | v in s.invoices ensures InvoiceKept(s, v) <==> GoodInvoice(v, PartnersOf(s)) {
      InvoiceIsKept(s, v);
    }
    forall c: Doc ensures c in GoodInvoiceDocs(s.invoices, PartnersOf(s)) <==> IsInvoice(s, c) {
      InvoiceDocsAre(s.invoices, PartnersOf(s), c);
    }
    forall c: Line ensures c in LinesOfGoodInvoices(s.invoices, PartnersOf(s)) <==> IsInvoiceLine(s, c) {
      LinesOfInvoicesAre(s.invoices, PartnersOf(s), c);
      if LineOfAnyInvoice(s.invoices, PartnersOf(s), c) {
        var v, l :| v in s.invoices && GoodInvoice(v, PartnersOf(s)) && l in v.lines && InvoiceLineKept(l) && InvoiceLineSays(c, l, v);
        assert InvoiceKept(s, v);
      }
    }
  }

  // ---- suppliers

  predicate SupplierSays(c: Doc, n: nat, status: string, details: string) {
    && c.id == "supplier:odoo:" + Decimal(n) && c.system == "odoo" && c.external == "odoo-partner-" + Decimal(n) && c.content.Supplier?
    && c.createdAt == 0 && c.updatedAt == 0 && c.status == status && c.details == details
  }

  /** The last master that names the partner describes it. */
  ghost predicate ByMaster(ms: seq<Master>, n: nat, c: Doc) {
    exists i :: 0 <= i < |ms| && NamesPartner(ms[i], n) && SupplierSays(c, n, ms[i].status, ms[i].name + ", " + ms[i].details)
             && forall j :: i < j < |ms| ==> !NamesPartner(ms[j], n)
  }

  ghost predicate ByOrder(os: seq<OrderRow>, n: nat, c: Doc) {
    exists o :: o in os && OrderNames(o, n) && SupplierSays(c, n, "observed", o.supplierName + ", " + o.currency)
  }

  ghost predicate ByInvoice(vs: seq<InvoiceRow>, n: nat, c: Doc) {
    exists v :: v in vs && InvoiceNames(v, n) && SupplierSays(c, n, "observed", v.supplierName + ", " + v.currency)
  }

  /** One supplier: described by its last master, or observed on an order or an invoice where no master names it. */
  ghost predicate IsSupplier(s: Snapshot, n: nat, c: Doc) {
    if AnyNames(s.masters, n) then ByMaster(s.masters, n, c) else ByOrder(s.orders, n, c) || ByInvoice(s.invoices, n, c)
  }

  lemma DescribedByMaster(ms: seq<Master>, n: nat, c: Doc)
    requires LastMaster(ms, n, c)
    ensures ByMaster(ms, n, c) && AnyNames(ms, n)
  {
    var i :| 0 <= i < |ms| && Describes(ms[i], n, c) && forall j :: i < j < |ms| ==> !Names(ms[j], n);
    NumberAfterIs("odoo-partner-", ms[i].external, n);
    forall j | i < j < |ms| ensures !NamesPartner(ms[j], n) {
      NumberAfterIs("odoo-partner-", ms[j].external, n);
    }
    assert NamesPartner(ms[i], n);
  }

  lemma {:induction false} ObservedOnOrders(d: Draft, os: seq<OrderRow>)
    ensures forall n: nat :: n in AfterOrderPartners(d, os).suppliers && n !in d.suppliers ==> ByOrder(os, n, AfterOrderPartners(d, os).suppliers[n])
  {
    if os != [] {
      var front, o := os[..|os| - 1], os[|os| - 1];
      var d1, after := AfterOrderPartners(d, front), AfterOrderPartners(d, os);
      ObservedOnOrders(d, front);
      InFrontOrLast(os);
      forall n: nat | n in after.suppliers && n !in d.suppliers ensures ByOrder(os, n, after.suppliers[n]) {
        if n in d1.suppliers {
          var x :| x in front && OrderNames(x, n) && SupplierSays(d1.suppliers[n], n, "observed", x.supplierName + ", " + x.currency);
          assert x in os;
        } else {
          NumberAfterIs("odoo-", o.supplier, n);
          assert o in os && OrderNames(o, n);
        }
      }
    }
  }

  lemma {:induction false} ObservedOnInvoices(d: Draft, vs: seq<InvoiceRow>)
    ensures forall n: nat :: n in AfterInvoicePartners(d, vs).suppliers && n !in d.suppliers ==> ByInvoice(vs, n, AfterInvoicePartners(d, vs).suppliers[n])
  {
    if vs != [] {
      var front, v := vs[..|vs| - 1], vs[|vs| - 1];
      var d1, after := AfterInvoicePartners(d, front), AfterInvoicePartners(d, vs);
      ObservedOnInvoices(d, front);
      InFrontOrLast(vs);
      forall n: nat | n in after.suppliers && n !in d.suppliers ensures ByInvoice(vs, n, after.suppliers[n]) {
        if n in d1.suppliers {
          var x :| x in front && InvoiceNames(x, n) && SupplierSays(d1.suppliers[n], n, "observed", x.supplierName + ", " + x.currency);
          assert x in vs;
        } else {
          assert v in vs && InvoiceNames(v, n);
        }
      }
    }
  }

  /** Every supplier the builder keeps is described as it should be. */
  ghost predicate SuppliersTell(d: Draft, s: Snapshot) {
    && (forall n: nat :: n in d.suppliers ==> IsSupplier(s, n, d.suppliers[n]))
    && (forall n: nat :: n in d.suppliers <==> Brought(s, n))
  }

  lemma SuppliersAreTold(d: Draft, s: Snapshot)
    requires IsStart(d) && d.orderNamed == map[]
    ensures SuppliersTell(AfterSuppliers(d, s), s)
  {
    var d1 := AfterMasters(d, s.masters);
    var d2 := AfterOrderPartners(d1, s.orders);
    var d3 := AfterSuppliers(d, s);
    SuppliersFirst(d, s);
    MastersDescribe(d, s.masters);
    MastersComeFirst(d, s.masters);
    OrderPartnersObserved(d1, s.orders);
    ObservedOnOrders(d1, s.orders);
    InvoicePartnersObserved(d2, s.invoices);
    ObservedOnInvoices(d2, s.invoices);
    forall n: nat | n in d3.suppliers ensures IsSupplier(s, n, d3.suppliers[n]) {
      ValidPartnersAre(s.masters, n);
      if n in d1.suppliers {
        DescribedByMaster(s.masters, n, d1.suppliers[n]);
      }
    }
    forall n: nat ensures n in d3.suppliers <==> Brought(s, n) {
      PartnersAreBrought(s, n);
    }
  }

  lemma {:induction false} SupplierDocsAre(suppliers: map<nat, Doc>, partners: seq<nat>, c: Doc)
    ensures c in SupplierDocs(suppliers, partners) <==> exists n :: n in partners && n in suppliers && suppliers[n] == c
  {
    if partners != [] {
      SupplierDocsAre(suppliers, partners[..|partners| - 1], c);
      InFrontOrLast(partners);
    }
  }

  lemma DraftedSuppliers(s: Snapshot)
    ensures SuppliersTell(Drafted(s), s) && KeysInOrder(Drafted(s))
  {
    var d := Empty(Incoming(s.rejected));
    SuppliersFirst(d, s);
    SuppliersAreTold(d, s);
    SuppliersKeepOrder(d, s);
    var d1 := AfterSuppliers(d, s);
    var d2 := AfterOrders(d1, s.orders, s.orders);
    OrdersContents(d1, s.orders, s.orders);
    ReceiptsKeepIndexes(d2, s.receipts);
    InvoicesKeep(AfterReceipts(d2, s.receipts), s.invoices);
  }

  lemma SuppliersKeepOrder(d: Draft, s: Snapshot)
    requires IsStart(d)
    ensures KeysInOrder(AfterSuppliers(d, s))
  {
    MastersAreSound(d, s.masters);
    var d1 := AfterMasters(d, s.masters);
    OrderPartnersSeen(d1, s.orders);
    InvoicePartnersSeen(AfterOrderPartners(d1, s.orders), s.invoices);
  }

  // ---- the whole

  /** The candidate lines of a snapshot are exactly the lines its kept rows bring, each with its own fields. */
  lemma LinesAreTheRows(s: Snapshot)
    ensures forall c :: c in CandidatesOf(s).lines <==> IsOrderLine(s, c) || IsReceiptLine(s, c) || IsInvoiceLine(s, c)
  {
    var d := Drafted(s);
    DraftedContents(s);
    DraftedIndexes(s);
    OrdersAreTheRows(s);
    InvoicesAreTheRows(s);
    forall c: Line ensures c in LinesOfGoodReceipts(s.receipts, d) <==> IsReceiptLine(s, c) {
      LinesOfReceiptsAre(d, s, c);
    }
  }

  lemma DocsByPart(s: Snapshot)
    ensures var d := Drafted(s);
            && (forall c :: c in d.docs && !c.content.Supplier? <==> IsOrder(s, c) || IsReceipt(s, c) || IsInvoice(s, c))
            && (forall c :: c in d.docs && c.content.Supplier? <==> c in SupplierDocs(d.suppliers, d.partners))
  {
    var d := Drafted(s);
    DraftedContents(s);
    DraftedIndexes(s);
    OrdersAreTheRows(s);
    InvoicesAreTheRows(s);
    forall c: Doc ensures c in GoodReceiptDocs(s.receipts, d) <==> IsReceipt(s, c) {
      ReceiptsAre(d, s, c);
    }
    DraftedSuppliers(s);
    forall c | c in SupplierDocs(d.suppliers, d.partners) ensures c.content.Supplier? {
      SupplierDocsAre(d.suppliers, d.partners, c);
    }
  }

  /** Beside its suppliers, the candidate documents are exactly those of the kept orders, receipts and invoices. */
  lemma DocsAreTheRows(s: Snapshot)
    ensures forall c :: c in CandidatesOf(s).docs && !c.content.Supplier? <==> IsOrder(s, c) || IsReceipt(s, c) || IsInvoice(s, c)
  {
    DocsByPart(s);
  }

  /** The supplier documents: one for every partner some row brings, described by its last master or else observed. */
  lemma SuppliersAreTheRows(s: Snapshot)
    ensures forall c :: c in CandidatesOf(s).docs && c.content.Supplier? ==> exists n: nat :: Brought(s, n) && IsSupplier(s, n, c)
    ensures forall n: nat :: Brought(s, n) ==> exists c :: c in CandidatesOf(s).docs && c.content.Supplier? && IsSupplier(s, n, c)
  {
    var d := Drafted(s);
    DraftedSuppliers(s);
    DocsByPart(s);
    forall c | c in d.docs && c.content.Supplier? ensures exists n: nat :: Brought(s, n) && IsSupplier(s, n, c) {
      SupplierDocsAre(d.suppliers, d.partners, c);
    }
    forall n: nat | Brought(s, n) ensures exists c :: c in d.docs && c.content.Supplier? && IsSupplier(s, n, c) {
      SupplierDocsAre(d.suppliers, d.partners, d.suppliers[n]);
    }
  }
}
