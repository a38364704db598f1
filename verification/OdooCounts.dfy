/**
 What the builder's candidates amount to: every row of a snapshot is seen and accounted for, and receipt
 lines are linked to their order. Of the rows seen each is skipped with an issue or waits to be stored,
 except masters that a later master with the same partner replaced.
 */
module OdooCounts {
  import opened Basics
  import opened Decimals
  import opened OdooTables
  import opened OdooImport
  import opened OdooCandidates

  // ---- counting

  lemma {:induction false} SawEffect(stats: Stats, kind: Kind, k: Kind)
    ensures Of(Saw(stats, kind), k).seen == Of(stats, k).seen + (if k == kind then 1 else 0)
    ensures Handled(Of(Saw(stats, kind), k)) == Handled(Of(stats, k)) && Of(Saw(stats, kind), k).skipped == Of(stats, k).skipped
  {
  }

  lemma {:induction false} SawSkips(stats: Stats, kind: Kind)
    ensures SkippedInAll(Saw(stats, kind)) == SkippedInAll(stats)
  {
  }

  lemma {:induction false} SawBalancesAt(stats: Stats, docs: seq<Doc>, lines: seq<Line>, docs': seq<Doc>, lines': seq<Line>, owing: nat, owing': nat, kind: Kind, k: Kind)
    requires BalancedAt(stats, docs, lines, owing, k)
    requires Waiting(docs', lines', k) + (if k == Suppliers then owing' else 0)
          == Waiting(docs, lines, k) + (if k == Suppliers then owing else 0) + (if k == kind then 1 else 0)
    ensures BalancedAt(Saw(stats, kind), docs', lines', owing', k)
  {
    SawEffect(stats, kind, k);
  }

  lemma {:induction false} WaitingDocAdded(docs: seq<Doc>, d: Doc, kind: Kind)
    ensures WaitingDocs(docs + [d], kind) == WaitingDocs(docs, kind) + (if d.Kind() == kind then 1 else 0)
  {
    if docs == [] {
      assert ([] + [d])[1..] == [];
    } else {
      assert (docs + [d])[1..] == docs[1..] + [d];
      WaitingDocAdded(docs[1..], d, kind);
    }
  }

  lemma {:induction false} WaitingLineAdded(lines: seq<Line>, c: Line, kind: Kind)
    ensures WaitingLines(lines + [c], kind) == WaitingLines(lines, kind) + (if c.Kind() == kind then 1 else 0)
  {
    if lines == [] {
      assert ([] + [c])[1..] == [];
    } else {
      assert (lines + [c])[1..] == lines[1..] + [c];
      WaitingLineAdded(lines[1..], c, kind);
    }
  }

  lemma {:induction false} SawSupplier(stats: Stats, docs: seq<Doc>, lines: seq<Line>, owing: nat)
    requires Balanced(stats, docs, lines, owing)
    ensures Balanced(Saw(stats, Suppliers), docs, lines, owing + 1)
  {
    var more := owing + 1;
    forall k ensures BalancedAt(Saw(stats, Suppliers), docs, lines, more, k) {
      SawBalancesAt(stats, docs, lines, docs, lines, owing, more, Suppliers, k);
    }
  }

  lemma {:induction false} SawDoc(stats: Stats, docs: seq<Doc>, lines: seq<Line>, owing: nat, d: Doc)
    requires Balanced(stats, docs, lines, owing)
    ensures Balanced(Saw(stats, d.Kind()), docs + [d], lines, owing)
  {
    var kind := d.Kind();
    forall k ensures BalancedAt(Saw(stats, kind), docs + [d], lines, owing, k) {
      WaitingDocAdded(docs, d, k);
      SawBalancesAt(stats, docs, lines, docs + [d], lines, owing, owing, kind, k);
    }
  }

  lemma {:induction false} SawLine(stats: Stats, docs: seq<Doc>, lines: seq<Line>, owing: nat, c: Line)
    requires Balanced(stats, docs, lines, owing)
    ensures Balanced(Saw(stats, c.Kind()), docs, lines + [c], owing)
  {
    var kind := c.Kind();
    forall k ensures BalancedAt(Saw(stats, kind), docs, lines + [c], owing, k) {
      WaitingLineAdded(lines, c, k);
      SawBalancesAt(stats, docs, lines, docs, lines + [c], owing, owing, kind, k);
    }
  }

  lemma {:induction false} SawAndSkippedAt(stats: Stats, docs: seq<Doc>, lines: seq<Line>, owing: nat, kind: Kind, o: Outcome, k: Kind)
    requires BalancedAt(stats, docs, lines, owing, k)
    ensures BalancedAt(Bump(Saw(stats, kind), kind, o), docs, lines, owing, k)
  {
    SawEffect(stats, kind, k);
    BumpOwn(Saw(stats, kind), kind, o);
    BumpKeeps(Saw(stats, kind), kind, o, k);
  }

  lemma {:induction false} SawAndSkipped(stats: Stats, docs: seq<Doc>, lines: seq<Line>, owing: nat, kind: Kind, code: string)
    requires Balanced(stats, docs, lines, owing)
    ensures Balanced(Bump(Saw(stats, kind), kind, Skipped(code)), docs, lines, owing)
    ensures SkippedInAll(Bump(Saw(stats, kind), kind, Skipped(code))) == SkippedInAll(stats) + 1
  {
    SawSkips(stats, kind);
    BumpSkips(Saw(stats, kind), kind, Skipped(code));
    forall k ensures BalancedAt(Bump(Saw(stats, kind), kind, Skipped(code)), docs, lines, owing, k) {
      SawAndSkippedAt(stats, docs, lines, owing, kind, Skipped(code), k);
    }
  }

  lemma {:induction false} SupplierPushed(stats: Stats, docs: seq<Doc>, lines: seq<Line>, owing: nat, d: Doc)
    requires Balanced(stats, docs, lines, owing + 1) && d.content.Supplier?
    ensures Balanced(stats, docs + [d], lines, owing)
  {
    forall k ensures BalancedAt(stats, docs + [d], lines, owing, k) {
      assert BalancedAt(stats, docs, lines, owing + 1, k);
      WaitingDocAdded(docs, d, k);
    }
  }

  lemma {:induction false} NothingWaiting(docs: seq<Doc>, lines: seq<Line>, kind: Kind)
    requires |docs| == 0 && |lines| == 0
    ensures Waiting(docs, lines, kind) == 0
  {
  }

  lemma {:induction false} NoStatsOf(kind: Kind)
    ensures Of(NO_STATS, kind) == NO_STAT
  {
  }

  lemma {:induction false} NothingSeenOf(stats: Stats, docs: seq<Doc>, lines: seq<Line>, kind: Kind)
    requires Of(stats, kind) == NO_STAT && |docs| == 0 && |lines| == 0
    ensures BalancedAt(stats, docs, lines, 0, kind)
  {
    NothingWaiting(docs, lines, kind);
  }

  lemma {:induction false} NothingSeen(stats: Stats, docs: seq<Doc>, lines: seq<Line>)
    requires (forall kind :: Of(stats, kind) == NO_STAT) && |docs| == 0 && |lines| == 0
    ensures Balanced(stats, docs, lines, 0) && SkippedInAll(stats) == 0
  {
    forall kind ensures BalancedAt(stats, docs, lines, 0, kind) {
      NothingSeenOf(stats, docs, lines, kind);
    }
  }

  // ---- suppliers named by the masters

  /** The partners of the valid masters, one entry a row. */
  function ValidPartners(masters: seq<Master>): seq<nat> {
    if masters == [] then [] else WithMaster(ValidPartners(masters[..|masters| - 1]), masters[|masters| - 1])
  }

  function WithMaster(before: seq<nat>, m: Master): seq<nat> {
    var n := NumberAfter("odoo-partner-", m.external);
    if n.None? || m.name == "" then before else before + [n.value]
  }

  lemma {:induction false} ElementsAdded(s: seq<nat>, n: nat)
    ensures Elements(s + [n]) == Elements(s) + {n}
    ensures Distinct(s) && n !in Elements(s) ==> Distinct(s + [n])
  {
    forall i | 0 <= i < |s| ensures s[i] in Elements(s) {
    }
  }

  /** How many valid masters a later one with the same partner replaces. */
  ghost function Replaced(masters: seq<Master>): nat {
    DistinctCount(ValidPartners(masters));
    |ValidPartners(masters)| - |Elements(ValidPartners(masters))|
  }

  /** A candidate order line with this id belongs to this order. */
  ghost predicate HasOrderLine(lines: seq<Line>, id: string, order: string) {
    exists c :: c in lines && c.content.Ordered? && c.id == id && c.document == order
  }

  ghost predicate HasReceipt(docs: seq<Doc>, id: string, order: string) {
    exists d :: d in docs && d.content.Receipt? && d.id == id && d.content.po == order
  }

  /** The receipt line's order line is a candidate, of the very order the receipt is for. */
  ghost predicate LinkedWell(docs: seq<Doc>, lines: seq<Line>, c: Line) {
    c.content.ReceivedFor? ==> exists order :: HasOrderLine(lines, c.content.poLine, order) && HasReceipt(docs, c.document, order)
  }

  ghost predicate AllLinkedWell(docs: seq<Doc>, lines: seq<Line>) {
    forall c {:trigger LinkedWell(docs, lines, c)} :: c in lines ==> LinkedWell(docs, lines, c)
  }

  lemma {:induction false} LinkedMore(docs: seq<Doc>, lines: seq<Line>, docs': seq<Doc>, lines': seq<Line>, c: Line)
    requires LinkedWell(docs, lines, c)
    requires (forall d :: d in docs ==> d in docs') && (forall l :: l in lines ==> l in lines')
    ensures LinkedWell(docs', lines', c)
  {
    if c.content.ReceivedFor? {
      var order :| HasOrderLine(lines, c.content.poLine, order) && HasReceipt(docs, c.document, order);
      assert HasOrderLine(lines', c.content.poLine, order) && HasReceipt(docs', c.document, order);
    }
  }

  ghost predicate IndexesLines(lineOf: map<int, (string, string)>, lines: seq<Line>) {
    forall n :: n in lineOf ==> HasOrderLine(lines, lineOf[n].0, lineOf[n].1)
  }

  lemma {:induction false} NothingLinked(docs: seq<Doc>, lines: seq<Line>, lineOf: map<int, (string, string)>)
    requires |lines| == 0 && lineOf == map[]
    ensures AllLinkedWell(docs, lines) && IndexesLines(lineOf, lines)
  {
  }

  lemma {:induction false} OrderLineIndexed(lineOf: map<int, (string, string)>, lines: seq<Line>, n: int, c: Line)
    requires IndexesLines(lineOf, lines) && c in lines && c.content.Ordered?
    ensures IndexesLines(lineOf[n := (c.id, c.document)], lines)
  {
    assert HasOrderLine(lines, c.id, c.document);
  }

  // ---- every step of the builder keeps the account

  /** Of the rows seen, `owing` suppliers are not waiting; each issue is incoming or a skip. */
  ghost predicate Sound(d: Draft, owing: nat, incoming: nat) {
    && Balanced(d.stats, d.docs, d.lines, owing) && |d.issues| == incoming + SkippedInAll(d.stats)
    && AllLinkedWell(d.docs, d.lines) && IndexesLines(d.lineOf, d.lines)
  }

  /** The suppliers, in the order of their first rows. */
  ghost predicate KeysInOrder(d: Draft) {
    && d.suppliers.Keys == Elements(d.partners) && Distinct(d.partners)
    && forall n :: n in d.suppliers ==> d.suppliers[n].content.Supplier?
  }

  ghost predicate IsStart(d: Draft) {
    |d.docs| == 0 && |d.lines| == 0 && |d.partners| == 0 && d.suppliers == map[] && d.lineOf == map[] && d.stats == NO_STATS
  }

  lemma StartIsSound(d: Draft)
    requires IsStart(d)
    ensures Sound(d, 0, |d.issues|)
  {
    forall kind ensures Of(d.stats, kind) == NO_STAT {
      NoStatsOf(kind);
    }
    NothingSeen(d.stats, d.docs, d.lines);
    NothingLinked(d.docs, d.lines, d.lineOf);
  }

  lemma RefusedIsSound(d: Draft, kind: Kind, external: string, code: string, owing: nat, incoming: nat)
    requires Sound(d, owing, incoming)
    ensures Sound(Refused(d, kind, external, code), owing, incoming)
  {
    SawAndSkipped(d.stats, d.docs, d.lines, owing, kind, code);
  }

  lemma WithDocIsSound(d: Draft, c: Doc, owing: nat, incoming: nat)
    requires Sound(d, owing, incoming)
    ensures Sound(WithDoc(d, c), owing, incoming)
  {
    SawDoc(d.stats, d.docs, d.lines, owing, c);
    SawSkips(d.stats, c.Kind());
    forall l | l in d.lines ensures LinkedWell(d.docs + [c], d.lines, l) {
      LinkedMore(d.docs, d.lines, d.docs + [c], d.lines, l);
    }
  }

  lemma WithLineIsSound(d: Draft, c: Line, owing: nat, incoming: nat)
    requires Sound(d, owing, incoming) && LinkedWell(d.docs, d.lines, c)
    ensures Sound(WithLine(d, c), owing, incoming)
  {
    SawLine(d.stats, d.docs, d.lines, owing, c);
    SawSkips(d.stats, c.Kind());
    forall l | l in d.lines + [c] ensures LinkedWell(d.docs, d.lines + [c], l) {
      LinkedMore(d.docs, d.lines, d.docs, d.lines + [c], l);
    }
    forall n | n in d.lineOf ensures HasOrderLine(d.lines + [c], d.lineOf[n].0, d.lineOf[n].1) {
      var l :| l in d.lines && l.content.Ordered? && l.id == d.lineOf[n].0 && l.document == d.lineOf[n].1;
      assert l in d.lines + [c];
    }
  }

  lemma WithSupplierIsSound(d: Draft, n: nat, c: Doc, owing: nat, incoming: nat)
    requires Sound(d, owing, incoming) && KeysInOrder(d) && c.content.Supplier?
    ensures Sound(WithSupplier(d, n, c), owing + 1, incoming) && KeysInOrder(WithSupplier(d, n, c))
  {
    SawSupplier(d.stats, d.docs, d.lines, owing);
    SawSkips(d.stats, Suppliers);
    ElementsAdded(d.partners, n);
  }

  lemma MasterIsSound(d: Draft, m: Master, before: seq<nat>, incoming: nat)
    requires Sound(d, |before|, incoming) && KeysInOrder(d) && Elements(d.partners) == Elements(before)
    ensures var after := AfterMaster(d, m);
            && Sound(after, |WithMaster(before, m)|, incoming) && KeysInOrder(after)
            && Elements(after.partners) == Elements(WithMaster(before, m))
  {
    var n := NumberAfter("odoo-partner-", m.external);
    if n.None? || m.name == "" {
      RefusedIsSound(d, Suppliers, m.external, "INVALID_SUPPLIER", |before|, incoming);
    } else {
      ElementsAdded(before, n.value);
      ElementsAdded(d.partners, n.value);
      WithSupplierIsSound(d, n.value, SupplierDoc(n.value, m.status, m.name + ", " + m.details), |before|, incoming);
    }
  }

  lemma NoMasters(d: Draft, ms: seq<Master>)
    requires |ms| == 0
    ensures AfterMasters(d, ms) == d && |ValidPartners(ms)| == 0
  {
  }

  lemma StartIsOrdered(d: Draft, valid: seq<nat>)
    requires |d.partners| == 0 && d.suppliers == map[] && |valid| == 0
    ensures KeysInOrder(d) && Elements(d.partners) == Elements(valid)
  {
    assert Elements(d.partners) == {} == Elements(valid);
  }

  lemma {:induction false} MastersAreSound(d: Draft, ms: seq<Master>)
    requires IsStart(d)
    ensures var after := AfterMasters(d, ms);
            && Sound(after, |ValidPartners(ms)|, |d.issues|) && KeysInOrder(after)
            && Elements(after.partners) == Elements(ValidPartners(ms))
  {
    if ms == [] {
      NoMasters(d, ms);
      StartIsSound(d);
      StartIsOrdered(d, ValidPartners(ms));
    } else {
      var front := ms[..|ms| - 1];
      MastersAreSound(d, front);
      MasterIsSound(AfterMasters(d, front), ms[|ms| - 1], ValidPartners(front), |d.issues|);
    }
  }

  lemma PartnerIsSound(d: Draft, n: int, name: string, details: string, owing: nat, incoming: nat) returns (owing': nat)
    requires Sound(d, owing, incoming) && KeysInOrder(d)
    ensures var after := AfterPartner(d, n, name, details);
            && Sound(after, owing', incoming) && KeysInOrder(after) && owing' - owing == |after.partners| - |d.partners|
            && Elements(d.partners) <= Elements(after.partners)
  {
    owing' := owing;
    if n > 0 && n !in d.suppliers && name != "" {
      ElementsAdded(d.partners, n);
      WithSupplierIsSound(d, n, SupplierDoc(n, "observed", name + ", " + details), owing, incoming);
      owing' := owing + 1;
    }
  }

  lemma {:induction false} OrderPartnersAreSound(d: Draft, os: seq<OrderRow>, owing: nat, incoming: nat) returns (owing': nat)
    requires Sound(d, owing, incoming) && KeysInOrder(d)
    ensures var after := AfterOrderPartners(d, os);
            Sound(after, owing', incoming) && KeysInOrder(after) && owing' - owing == |after.partners| - |d.partners|
  {
    owing' := owing;
    if os != [] {
      owing' := OrderPartnersAreSound(d, os[..|os| - 1], owing, incoming);
      var o, d1 := os[|os| - 1], AfterOrderPartners(d, os[..|os| - 1]);
      if PartnerOf(o).Some? {
        owing' := PartnerIsSound(d1, PartnerOf(o).value, o.supplierName, o.currency, owing', incoming);
      }
    }
  }

  lemma {:induction false} InvoicePartnersAreSound(d: Draft, vs: seq<InvoiceRow>, owing: nat, incoming: nat) returns (owing': nat)
    requires Sound(d, owing, incoming) && KeysInOrder(d)
    ensures var after := AfterInvoicePartners(d, vs);
            Sound(after, owing', incoming) && KeysInOrder(after) && owing' - owing == |after.partners| - |d.partners|
  {
    owing' := owing;
    if vs != [] {
      owing' := InvoicePartnersAreSound(d, vs[..|vs| - 1], owing, incoming);
      var v, d1 := vs[|vs| - 1], AfterInvoicePartners(d, vs[..|vs| - 1]);
      owing' := PartnerIsSound(d1, v.supplier, v.supplierName, v.currency, owing', incoming);
    }
  }

  /** The suppliers become candidates, one for each partner. */
  lemma {:induction false} PushedAreSound(d: Draft, k: nat, owing: nat, incoming: nat)
    requires Sound(d, owing, incoming) && KeysInOrder(d) && k <= |d.partners| <= owing
    ensures Sound(d.(docs := d.docs + SupplierDocs(d.suppliers, d.partners[..k])), owing - k, incoming)
  {
    if k == 0 {
      assert d.docs + [] == d.docs;
    } else {
      PushedAreSound(d, k - 1, owing, incoming);
      assert d.partners[..k][..k - 1] == d.partners[..k - 1];
      assert d.partners[k - 1] in Elements(d.partners);
      var before, c := d.docs + SupplierDocs(d.suppliers, d.partners[..k - 1]), d.suppliers[d.partners[k - 1]];
      assert d.docs + SupplierDocs(d.suppliers, d.partners[..k]) == before + [c];
      SupplierPushed(d.stats, before, d.lines, owing - k, c);
      forall l | l in d.lines ensures LinkedWell(before + [c], d.lines, l) {
        LinkedMore(before, d.lines, before + [c], d.lines, l);
      }
    }
  }

  lemma FewerPartners(partners: seq<nat>, valid: seq<nat>)
    requires Distinct(partners) && Elements(partners) == Elements(valid)
    ensures |partners| == |Elements(valid)| <= |valid|
  {
    DistinctCount(valid);
    DistinctCount(partners);
  }

  lemma SuppliersAreSound(d: Draft, s: Snapshot)
    requires IsStart(d)
    ensures Sound(AfterSuppliers(d, s), Replaced(s.masters), |d.issues|)
  {
    MastersAreSound(d, s.masters);
    AfterMastersSound(AfterMasters(d, s.masters), s, ValidPartners(s.masters), |d.issues|);
  }

  lemma AfterMastersSound(d1: Draft, s: Snapshot, valid: seq<nat>, incoming: nat)
    requires valid == ValidPartners(s.masters)
    requires Sound(d1, |valid|, incoming) && KeysInOrder(d1) && Elements(d1.partners) == Elements(valid)
    ensures var seen := AfterInvoicePartners(AfterOrderPartners(d1, s.orders), s.invoices);
            Sound(seen.(docs := seen.docs + SupplierDocs(seen.suppliers, seen.partners)), Replaced(s.masters), incoming)
  {
    FewerPartners(d1.partners, valid);
    ObservedAreSound(d1, s, |valid|, incoming);
  }

  lemma ObservedAreSound(d1: Draft, s: Snapshot, owing: nat, incoming: nat)
    requires Sound(d1, owing, incoming) && KeysInOrder(d1) && |d1.partners| <= owing
    ensures var seen := AfterInvoicePartners(AfterOrderPartners(d1, s.orders), s.invoices);
            Sound(seen.(docs := seen.docs + SupplierDocs(seen.suppliers, seen.partners)), owing - |d1.partners|, incoming)
  {
    var owing2 := OrderPartnersAreSound(d1, s.orders, owing, incoming);
    var d2 := AfterOrderPartners(d1, s.orders);
    var owing3 := InvoicePartnersAreSound(d2, s.invoices, owing2, incoming);
    var d3 := AfterInvoicePartners(d2, s.invoices);
    PushedAreSound(d3, |d3.partners|, owing3, incoming);
    assert d3.partners[..|d3.partners|] == d3.partners;
  }

  lemma {:induction false} OrderLinesAreSound(d: Draft, ls: seq<OrderLineRow>, order: string, owing: nat, incoming: nat)
    requires Sound(d, owing, incoming)
    ensures Sound(AfterOrderLines(d, ls, order), owing, incoming)
  {
    if ls != [] {
      var l, d1 := ls[|ls| - 1], AfterOrderLines(d, ls[..|ls| - 1], order);
      OrderLinesAreSound(d, ls[..|ls| - 1], order, owing, incoming);
      if !GoodOrderLine(l) {
        RefusedIsSound(d1, PurchaseOrderLines, "purchase.order.line:" + Text(l.id), "INVALID_PO_LINE", owing, incoming);
      } else {
        var c := OrderLineOf(l, order);
        WithLineIsSound(d1, c, owing, incoming);
        OrderLineIndexed(d1.lineOf, d1.lines + [c], l.id, c);
      }
    }
  }

  lemma {:induction false} OrdersAreSound(d: Draft, os: seq<OrderRow>, all: seq<OrderRow>, owing: nat, incoming: nat)
    requires Sound(d, owing, incoming)
    ensures Sound(AfterOrders(d, os, all), owing, incoming)
  {
    if os != [] {
      var o, d1 := os[|os| - 1], AfterOrders(d, os[..|os| - 1], all);
      OrdersAreSound(d, os[..|os| - 1], all, owing, incoming);
      OrderIsSound(d1, o, all, owing, incoming);
    }
  }

  lemma OrderIsSound(d: Draft, o: OrderRow, all: seq<OrderRow>, owing: nat, incoming: nat)
    requires Sound(d, owing, incoming)
    ensures Sound(AfterOrder(d, o, all), owing, incoming)
  {
    if GoodOrder(o, d.suppliers.Keys) {
      WithDocIsSound(d, OrderDoc(o), owing, incoming);
      OrderLinesAreSound(NamesOrder(WithDoc(d, OrderDoc(o)), o, all), o.lines, OrderId(o.id), owing, incoming);
    } else {
      var code := AfterOrder(d, o, all).issues[|d.issues|].code;
      RefusedIsSound(d, PurchaseOrders, "purchase.order:" + Text(o.id), code, owing, incoming);
    }
  }

  lemma {:induction false} ReceiptLinesAreSound(d: Draft, ls: seq<ReceiptLineRow>, receipt: string, order: string, owing: nat, incoming: nat)
    requires Sound(d, owing, incoming) && HasReceipt(d.docs, receipt, order)
    ensures Sound(AfterReceiptLines(d, ls, receipt, order), owing, incoming)
    ensures AfterReceiptLines(d, ls, receipt, order).docs == d.docs
  {
    if ls != [] {
      var l, d1 := ls[|ls| - 1], AfterReceiptLines(d, ls[..|ls| - 1], receipt, order);
      ReceiptLinesAreSound(d, ls[..|ls| - 1], receipt, order, owing, incoming);
      if !GoodReceiptLine(l, order, d1.lineOf) {
        RefusedIsSound(d1, ReceiptLines, "stock.move.line:" + Text(l.id), "INVALID_RECEIPT_LINE", owing, incoming);
      } else {
        var c := ReceiptLineOf(l, receipt, order, d1.lineOf);
        assert HasOrderLine(d1.lines, c.content.poLine, order) && HasReceipt(d1.docs, c.document, order);
        WithLineIsSound(d1, c, owing, incoming);
      }
    }
  }

  lemma ReceiptIsSound(d: Draft, r: ReceiptRow, owing: nat, incoming: nat)
    requires Sound(d, owing, incoming)
    ensures Sound(AfterReceipt(d, r), owing, incoming)
  {
    var order := OrderFor(r, d.lineOf, d.orderNamed);
    if GoodReceipt(r) && order.Some? {
      var c := ReceiptDoc(r, order.value);
      WithDocIsSound(d, c, owing, incoming);
      assert HasReceipt(WithDoc(d, c).docs, c.id, order.value) by {
        assert c in d.docs + [c];
      }
      ReceiptLinesAreSound(WithDoc(d, c), r.lines, c.id, order.value, owing, incoming);
    } else {
      RefusedIsSound(d, Receipts, "stock.picking:" + Text(r.id), if r.state != "done" then "RECEIPT_NOT_DONE" else "INVALID_RECEIPT", owing, incoming);
    }
  }

  lemma {:induction false} ReceiptsAreSound(d: Draft, rs: seq<ReceiptRow>, owing: nat, incoming: nat)
    requires Sound(d, owing, incoming)
    ensures Sound(AfterReceipts(d, rs), owing, incoming)
  {
    if rs != [] {
      ReceiptsAreSound(d, rs[..|rs| - 1], owing, incoming);
      ReceiptIsSound(AfterReceipts(d, rs[..|rs| - 1]), rs[|rs| - 1], owing, incoming);
    }
  }

  lemma {:induction false} InvoiceLinesAreSound(d: Draft, ls: seq<InvoiceLineRow>, invoice: string, owing: nat, incoming: nat)
    requires Sound(d, owing, incoming)
    ensures Sound(AfterInvoiceLines(d, ls, invoice), owing, incoming)
  {
    if ls != [] {
      var l, d1 := ls[|ls| - 1], AfterInvoiceLines(d, ls[..|ls| - 1], invoice);
      InvoiceLinesAreSound(d, ls[..|ls| - 1], invoice, owing, incoming);
      if !GoodInvoiceLine(l) {
        RefusedIsSound(d1, InvoiceLines, "account.move.line:" + Text(l.id), "INVALID_INVOICE_LINE", owing, incoming);
      } else {
        WithLineIsSound(d1, InvoiceLineOf(l, invoice), owing, incoming);
      }
    }
  }

  lemma {:induction false} InvoicesAreSound(d: Draft, vs: seq<InvoiceRow>, owing: nat, incoming: nat)
    requires Sound(d, owing, incoming)
    ensures Sound(AfterInvoices(d, vs), owing, incoming)
  {
    if vs != [] {
      var v, d1 := vs[|vs| - 1], AfterInvoices(d, vs[..|vs| - 1]);
      InvoicesAreSound(d, vs[..|vs| - 1], owing, incoming);
      if GoodInvoice(v, d1.suppliers.Keys) {
        WithDocIsSound(d1, InvoiceDoc(v), owing, incoming);
        InvoiceLinesAreSound(WithDoc(d1, InvoiceDoc(v)), v.lines, InvoiceDoc(v).id, owing, incoming);
      } else {
        RefusedIsSound(d1, Invoices, "account.move:" + Text(v.id), "INVALID_INVOICE", owing, incoming);
      }
    }
  }

  /**
   All candidates of a snapshot. Every row seen is skipped or waits to be stored, except the masters that
   a later master with the same partner replaced; every receipt line belongs to an order line of the order
   its receipt is for; and each issue is incoming or stands for one skip.
   */
  lemma BuiltIsSound(d: Draft, s: Snapshot)
    requires IsStart(d)
    ensures Sound(Built(d, s), Replaced(s.masters), |d.issues|)
  {
    var lost := Replaced(s.masters);
    SuppliersAreSound(d, s);
    var d1 := AfterSuppliers(d, s);
    OrdersAreSound(d1, s.orders, s.orders, lost, |d.issues|);
    var d2 := AfterOrders(d1, s.orders, s.orders);
    ReceiptsAreSound(d2, s.receipts, lost, |d.issues|);
    InvoicesAreSound(AfterReceipts(d2, s.receipts), s.invoices, lost, |d.issues|);
  }

  lemma DraftedIsSound(s: Snapshot)
    ensures Sound(Drafted(s), Replaced(s.masters), |s.rejected|)
  {
    BuiltIsSound(Empty(Incoming(s.rejected)), s);
  }

  // ---- every row of the snapshot is seen

  function Seen(d: Draft, kind: Kind): nat { Of(d.stats, kind).seen }

  lemma RefusedSees(d: Draft, kind: Kind, external: string, code: string)
    ensures var after := Refused(d, kind, external, code);
            forall k :: Seen(after, k) == Seen(d, k) + (if k == kind then 1 else 0)
  {
    forall k ensures Seen(Refused(d, kind, external, code), k) == Seen(d, k) + (if k == kind then 1 else 0) {
      SawEffect(d.stats, kind, k);
      BumpKeeps(Saw(d.stats, kind), kind, Skipped(code), k);
    }
  }

  lemma SawSees(d: Draft, stats: Stats, kind: Kind)
    requires stats == Saw(d.stats, kind)
    ensures forall k :: Of(stats, k).seen == Seen(d, k) + (if k == kind then 1 else 0)
  {
    forall k ensures Of(stats, k).seen == Seen(d, k) + (if k == kind then 1 else 0) {
      SawEffect(d.stats, kind, k);
    }
  }

  /** Between two drafts `n` more rows of one kind were seen, and none of any other. */
  ghost predicate SawMore(d: Draft, after: Draft, kind: Kind, n: int) {
    forall k {:trigger Seen(after, k)} :: Seen(after, k) == Seen(d, k) + (if k == kind then n else 0)
  }

  lemma {:induction false} OrderLinesSeen(d: Draft, ls: seq<OrderLineRow>, order: string)
    ensures var after := AfterOrderLines(d, ls, order);
            SawMore(d, after, PurchaseOrderLines, |ls|) && after.suppliers == d.suppliers && after.partners == d.partners
  {
    if ls != [] {
      var l, d1 := ls[|ls| - 1], AfterOrderLines(d, ls[..|ls| - 1], order);
      OrderLinesSeen(d, ls[..|ls| - 1], order);
      RefusedSees(d1, PurchaseOrderLines, "purchase.order.line:" + Text(l.id), "INVALID_PO_LINE");
      SawSees(d1, Saw(d1.stats, PurchaseOrderLines), PurchaseOrderLines);
    }
  }

  lemma {:induction false} ReceiptLinesSeen(d: Draft, ls: seq<ReceiptLineRow>, receipt: string, order: string)
    ensures var after := AfterReceiptLines(d, ls, receipt, order);
            && SawMore(d, after, ReceiptLines, |ls|) && after.suppliers == d.suppliers && after.partners == d.partners
            && after.lineOf == d.lineOf && after.orderNamed == d.orderNamed
  {
    if ls != [] {
      var l, d1 := ls[|ls| - 1], AfterReceiptLines(d, ls[..|ls| - 1], receipt, order);
      ReceiptLinesSeen(d, ls[..|ls| - 1], receipt, order);
      RefusedSees(d1, ReceiptLines, "stock.move.line:" + Text(l.id), "INVALID_RECEIPT_LINE");
      SawSees(d1, Saw(d1.stats, ReceiptLines), ReceiptLines);
    }
  }

  lemma {:induction false} InvoiceLinesSeen(d: Draft, ls: seq<InvoiceLineRow>, invoice: string)
    ensures var after := AfterInvoiceLines(d, ls, invoice);
            SawMore(d, after, InvoiceLines, |ls|) && after.suppliers == d.suppliers && after.partners == d.partners
  {
    if ls != [] {
      var l, d1 := ls[|ls| - 1], AfterInvoiceLines(d, ls[..|ls| - 1], invoice);
      InvoiceLinesSeen(d, ls[..|ls| - 1], invoice);
      RefusedSees(d1, InvoiceLines, "account.move.line:" + Text(l.id), "INVALID_INVOICE_LINE");
      SawSees(d1, Saw(d1.stats, InvoiceLines), InvoiceLines);
    }
  }

  /** The lines of the orders that become candidates; those of a skipped order are not looked at. */
  function OrderRowLines(os: seq<OrderRow>, suppliers: set<nat>): nat {
    if os == [] then 0
    else
      var o := os[|os| - 1];
      OrderRowLines(os[..|os| - 1], suppliers) + (if GoodOrder(o, suppliers) then |o.lines| else 0)
  }

  ghost function ReceiptRowLines(rs: seq<ReceiptRow>, lineOf: map<int, (string, string)>, orderNamed: map<string, string>): nat {
    if rs == [] then 0
    else
      var r := rs[|rs| - 1];
      ReceiptRowLines(rs[..|rs| - 1], lineOf, orderNamed) + (if GoodReceipt(r) && OrderFor(r, lineOf, orderNamed).Some? then |r.lines| else 0)
  }

  function InvoiceRowLines(vs: seq<InvoiceRow>, suppliers: set<nat>): nat {
    if vs == [] then 0
    else
      var v := vs[|vs| - 1];
      InvoiceRowLines(vs[..|vs| - 1], suppliers) + (if GoodInvoice(v, suppliers) then |v.lines| else 0)
  }

  lemma {:induction false} OrdersSeen(d: Draft, os: seq<OrderRow>, all: seq<OrderRow>)
    ensures var after := AfterOrders(d, os, all);
      && after.suppliers == d.suppliers && after.partners == d.partners
      && Seen(after, PurchaseOrders) == Seen(d, PurchaseOrders) + |os|
      && Seen(after, PurchaseOrderLines) == Seen(d, PurchaseOrderLines) + OrderRowLines(os, d.suppliers.Keys)
      && forall k {:trigger Seen(after, k)} :: k != PurchaseOrders && k != PurchaseOrderLines ==> Seen(after, k) == Seen(d, k)
  {
    if os != [] {
      var o, d1 := os[|os| - 1], AfterOrders(d, os[..|os| - 1], all);
      OrdersSeen(d, os[..|os| - 1], all);
      if GoodOrder(o, d1.suppliers.Keys) {
        SawSees(d1, Saw(d1.stats, PurchaseOrders), PurchaseOrders);
        OrderLinesSeen(NamesOrder(WithDoc(d1, OrderDoc(o)), o, all), o.lines, OrderId(o.id));
      } else {
        RefusedSees(d1, PurchaseOrders, "purchase.order:" + Text(o.id), AfterOrder(d1, o, all).issues[|d1.issues|].code);
      }
    }
  }

  lemma ReceiptSeen(d: Draft, r: ReceiptRow)
    ensures var after, order := AfterReceipt(d, r), OrderFor(r, d.lineOf, d.orderNamed);
      && after.suppliers == d.suppliers && after.partners == d.partners && after.lineOf == d.lineOf && after.orderNamed == d.orderNamed
      && Seen(after, Receipts) == Seen(d, Receipts) + 1
      && Seen(after, ReceiptLines) == Seen(d, ReceiptLines) + (if GoodReceipt(r) && order.Some? then |r.lines| else 0)
      && forall k {:trigger Seen(after, k)} :: k != Receipts && k != ReceiptLines ==> Seen(after, k) == Seen(d, k)
  {
    var order := OrderFor(r, d.lineOf, d.orderNamed);
    if GoodReceipt(r) && order.Some? {
      var c := ReceiptDoc(r, order.value);
      SawSees(d, Saw(d.stats, Receipts), Receipts);
      ReceiptLinesSeen(WithDoc(d, c), r.lines, c.id, order.value);
    } else {
      RefusedSees(d, Receipts, "stock.picking:" + Text(r.id), AfterReceipt(d, r).issues[|d.issues|].code);
    }
  }

  lemma {:induction false} ReceiptsSeen(d: Draft, rs: seq<ReceiptRow>)
    ensures var after := AfterReceipts(d, rs);
      && after.suppliers == d.suppliers && after.partners == d.partners && after.lineOf == d.lineOf && after.orderNamed == d.orderNamed
      && Seen(after, Receipts) == Seen(d, Receipts) + |rs|
      && Seen(after, ReceiptLines) == Seen(d, ReceiptLines) + ReceiptRowLines(rs, d.lineOf, d.orderNamed)
      && forall k {:trigger Seen(after, k)} :: k != Receipts && k != ReceiptLines ==> Seen(after, k) == Seen(d, k)
  {
    if rs != [] {
      ReceiptsSeen(d, rs[..|rs| - 1]);
      ReceiptSeen(AfterReceipts(d, rs[..|rs| - 1]), rs[|rs| - 1]);
    }
  }

  lemma InvoiceSeen(d: Draft, v: InvoiceRow)
    ensures var after := AfterInvoice(d, v);
      && after.suppliers == d.suppliers && after.partners == d.partners
      && Seen(after, Invoices) == Seen(d, Invoices) + 1
      && Seen(after, InvoiceLines) == Seen(d, InvoiceLines) + (if GoodInvoice(v, d.suppliers.Keys) then |v.lines| else 0)
      && forall k {:trigger Seen(after, k)} :: k != Invoices && k != InvoiceLines ==> Seen(after, k) == Seen(d, k)
  {
    if GoodInvoice(v, d.suppliers.Keys) {
      SawSees(d, Saw(d.stats, Invoices), Invoices);
      InvoiceLinesSeen(WithDoc(d, InvoiceDoc(v)), v.lines, InvoiceDoc(v).id);
    } else {
      RefusedSees(d, Invoices, "account.move:" + Text(v.id), "INVALID_INVOICE");
    }
  }

  lemma {:induction false} InvoicesSeen(d: Draft, vs: seq<InvoiceRow>)
    ensures var after := AfterInvoices(d, vs);
      && after.suppliers == d.suppliers && after.partners == d.partners
      && Seen(after, Invoices) == Seen(d, Invoices) + |vs|
      && Seen(after, InvoiceLines) == Seen(d, InvoiceLines) + InvoiceRowLines(vs, d.suppliers.Keys)
      && forall k {:trigger Seen(after, k)} :: k != Invoices && k != InvoiceLines ==> Seen(after, k) == Seen(d, k)
  {
    if vs != [] {
      InvoicesSeen(d, vs[..|vs| - 1]);
      InvoiceSeen(AfterInvoices(d, vs[..|vs| - 1]), vs[|vs| - 1]);
    }
  }

  /** The partners that a valid master, a named order or a named invoice brings. */
  function OrderPartners(os: seq<OrderRow>): set<nat> {
    set o | o in os && PartnerOf(o).Some? && PartnerOf(o).value > 0 && o.supplierName != "" :: PartnerOf(o).value
  }

  function InvoicePartners(vs: seq<InvoiceRow>): set<nat> {
    set v | v in vs && v.supplier > 0 && v.supplierName != "" :: v.supplier as nat
  }

  function PartnersOf(s: Snapshot): set<nat> {
    Elements(ValidPartners(s.masters)) + OrderPartners(s.orders) + InvoicePartners(s.invoices)
  }

  /** The suppliers a draft has, each seen once more than it was when `d` had none. */
  ghost predicate Observes(d: Draft, after: Draft, more: set<nat>) {
    && KeysInOrder(after)
    && after.suppliers.Keys == d.suppliers.Keys + more
    && Seen(after, Suppliers) - |after.partners| == Seen(d, Suppliers) - |d.partners|
    && forall k {:trigger Seen(after, k)} :: k != Suppliers ==> Seen(after, k) == Seen(d, k)
  }

  lemma PartnerSeen(d: Draft, n: int, name: string, details: string)
    requires KeysInOrder(d)
    ensures Observes(d, AfterPartner(d, n, name, details), if n > 0 && name != "" then {n as nat} else {})
  {
    if n > 0 && n !in d.suppliers && name != "" {
      ElementsAdded(d.partners, n);
      SawSees(d, Saw(d.stats, Suppliers), Suppliers);
    }
  }

  lemma {:induction false} OrderPartnersSeen(d: Draft, os: seq<OrderRow>)
    requires KeysInOrder(d)
    ensures Observes(d, AfterOrderPartners(d, os), OrderPartners(os))
  {
    if os != [] {
      var front, o := os[..|os| - 1], os[|os| - 1];
      InFrontOrLast(os);
      OrderPartnersSeen(d, front);
      if PartnerOf(o).Some? {
        PartnerSeen(AfterOrderPartners(d, front), PartnerOf(o).value, o.supplierName, o.currency);
      }
    }
  }

  lemma {:induction false} InvoicePartnersSeen(d: Draft, vs: seq<InvoiceRow>)
    requires KeysInOrder(d)
    ensures Observes(d, AfterInvoicePartners(d, vs), InvoicePartners(vs))
  {
    if vs != [] {
      var front, v := vs[..|vs| - 1], vs[|vs| - 1];
      InFrontOrLast(vs);
      InvoicePartnersSeen(d, front);
      PartnerSeen(AfterInvoicePartners(d, front), v.supplier, v.supplierName, v.currency);
    }
  }

  lemma {:induction false} MastersSeen(d: Draft, ms: seq<Master>)
    ensures SawMore(d, AfterMasters(d, ms), Suppliers, |ms|)
  {
    if ms != [] {
      var m, d1 := ms[|ms| - 1], AfterMasters(d, ms[..|ms| - 1]);
      MastersSeen(d, ms[..|ms| - 1]);
      RefusedSees(d1, Suppliers, m.external, "INVALID_SUPPLIER");
      SawSees(d1, Saw(d1.stats, Suppliers), Suppliers);
    }
  }

  lemma NothingSeenYet(d: Draft)
    requires d.stats == NO_STATS
    ensures forall k :: Seen(d, k) == 0
  {
    forall k ensures Seen(d, k) == 0 {
      NoStatsOf(k);
    }
  }

  /** The draft after the masters: every row seen, and their partners known. */
  ghost predicate MastersKnown(d: Draft, ms: seq<Master>) {
    && KeysInOrder(d) && Elements(d.partners) == Elements(ValidPartners(ms))
    && forall k {:trigger Seen(d, k)} :: Seen(d, k) == if k == Suppliers then |ms| else 0
  }

  lemma MastersComeFirst(d: Draft, ms: seq<Master>)
    requires IsStart(d)
    ensures MastersKnown(AfterMasters(d, ms), ms)
  {
    MastersAreSound(d, ms);
    MastersSeen(d, ms);
    NothingSeenYet(d);
  }

  /** All suppliers: masters are seen row by row, a partner that only orders or invoices name is seen once. */
  ghost predicate SuppliersKnown(d: Draft, s: Snapshot) {
    && Seen(d, Suppliers) == |s.masters| + |PartnersOf(s)| - |Elements(ValidPartners(s.masters))|
    && forall k {:trigger Seen(d, k)} :: k != Suppliers ==> Seen(d, k) == 0
  }

  lemma SuppliersComeNext(d: Draft, s: Snapshot)
    requires MastersKnown(d, s.masters)
    ensures SuppliersKnown(AfterInvoicePartners(AfterOrderPartners(d, s.orders), s.invoices), s)
  {
    DistinctCount(d.partners);
    OrderPartnersSeen(d, s.orders);
    var d2 := AfterOrderPartners(d, s.orders);
    InvoicePartnersSeen(d2, s.invoices);
    var d3 := AfterInvoicePartners(d2, s.invoices);
    DistinctCount(d3.partners);
    assert Elements(d3.partners) == PartnersOf(s);
  }

  lemma KnownWithDocs(d: Draft, s: Snapshot, docs: seq<Doc>)
    requires SuppliersKnown(d, s)
    ensures SuppliersKnown(d.(docs := docs), s)
  {
    var after := d.(docs := docs);
    forall k ensures Seen(after, k) == Seen(d, k) {
    }
  }

  /** What `seen` counts, kind by kind. */
  ghost predicate CountsRows(stats: Stats, d: Draft, s: Snapshot) {
    && Of(stats, Suppliers).seen == |s.masters| + |PartnersOf(s)| - |Elements(ValidPartners(s.masters))|
    && Of(stats, PurchaseOrders).seen == |s.orders| && Of(stats, PurchaseOrderLines).seen == OrderRowLines(s.orders, d.suppliers.Keys)
    && Of(stats, Receipts).seen == |s.receipts| && Of(stats, ReceiptLines).seen == ReceiptRowLines(s.receipts, d.lineOf, d.orderNamed)
    && Of(stats, Invoices).seen == |s.invoices| && Of(stats, InvoiceLines).seen == InvoiceRowLines(s.invoices, d.suppliers.Keys)
  }

  lemma OrdersComeNext(d: Draft, s: Snapshot)
    requires SuppliersKnown(d, s)
    ensures var after := AfterOrders(d, s.orders, s.orders);
      && after.suppliers == d.suppliers && Seen(after, Suppliers) == Seen(d, Suppliers)
      && Seen(after, PurchaseOrders) == |s.orders| && Seen(after, PurchaseOrderLines) == OrderRowLines(s.orders, d.suppliers.Keys)
      && Seen(after, Receipts) == 0 && Seen(after, ReceiptLines) == 0 && Seen(after, Invoices) == 0 && Seen(after, InvoiceLines) == 0
  {
    OrdersSeen(d, s.orders, s.orders);
  }

  lemma ReceiptsComeNext(d: Draft, rs: seq<ReceiptRow>)
    requires Seen(d, Receipts) == 0 && Seen(d, ReceiptLines) == 0 && Seen(d, Invoices) == 0 && Seen(d, InvoiceLines) == 0
    ensures var after := AfterReceipts(d, rs);
      && after.suppliers == d.suppliers && after.lineOf == d.lineOf && after.orderNamed == d.orderNamed
      && Seen(after, Suppliers) == Seen(d, Suppliers)
      && Seen(after, PurchaseOrders) == Seen(d, PurchaseOrders) && Seen(after, PurchaseOrderLines) == Seen(d, PurchaseOrderLines)
      && Seen(after, Receipts) == |rs| && Seen(after, ReceiptLines) == ReceiptRowLines(rs, d.lineOf, d.orderNamed)
      && Seen(after, Invoices) == 0 && Seen(after, InvoiceLines) == 0
  {
    ReceiptsSeen(d, rs);
  }

  lemma InvoicesComeLast(d: Draft, vs: seq<InvoiceRow>)
    requires Seen(d, Invoices) == 0 && Seen(d, InvoiceLines) == 0
    ensures var after := AfterInvoices(d, vs);
      && after.suppliers == d.suppliers && after.lineOf == d.lineOf && after.orderNamed == d.orderNamed
      && Seen(after, Suppliers) == Seen(d, Suppliers)
      && Seen(after, PurchaseOrders) == Seen(d, PurchaseOrders) && Seen(after, PurchaseOrderLines) == Seen(d, PurchaseOrderLines)
      && Seen(after, Receipts) == Seen(d, Receipts) && Seen(after, ReceiptLines) == Seen(d, ReceiptLines)
      && Seen(after, Invoices) == |vs| && Seen(after, InvoiceLines) == InvoiceRowLines(vs, d.suppliers.Keys)
  {
    InvoicesSeen(d, vs);
    InvoicesKeepIndexes(d, vs);
  }

  lemma RowsComeLast(d: Draft, s: Snapshot, d2: Draft, d3: Draft, d4: Draft)
    requires SuppliersKnown(d, s)
    requires d2 == AfterOrders(d, s.orders, s.orders) && d3 == AfterReceipts(d2, s.receipts) && d4 == AfterInvoices(d3, s.invoices)
    ensures CountsRows(d4.stats, d4, s)
  {
    OrdersComeNext(d, s);
    ReceiptsComeNext(d2, s.receipts);
    InvoicesComeLast(d3, s.invoices);
  }

  lemma {:induction false} InvoicesKeepIndexes(d: Draft, vs: seq<InvoiceRow>)
    ensures var after := AfterInvoices(d, vs); after.lineOf == d.lineOf && after.orderNamed == d.orderNamed
  {
    if vs != [] {
      var d1, v := AfterInvoices(d, vs[..|vs| - 1]), vs[|vs| - 1];
      InvoicesKeepIndexes(d, vs[..|vs| - 1]);
      if GoodInvoice(v, d1.suppliers.Keys) {
        InvoiceLinesKeepIndexes(WithDoc(d1, InvoiceDoc(v)), v.lines, InvoiceDoc(v).id);
      }
    }
  }

  lemma {:induction false} InvoiceLinesKeepIndexes(d: Draft, ls: seq<InvoiceLineRow>, invoice: string)
    ensures var after := AfterInvoiceLines(d, ls, invoice); after.lineOf == d.lineOf && after.orderNamed == d.orderNamed
  {
    if ls != [] {
      InvoiceLinesKeepIndexes(d, ls[..|ls| - 1], invoice);
    }
  }

  lemma BuiltCounts(d: Draft, s: Snapshot)
    requires IsStart(d)
    ensures CountsRows(Built(d, s).stats, Built(d, s), s)
  {
    MastersComeFirst(d, s.masters);
    SuppliersComeNext(AfterMasters(d, s.masters), s);
    var known := AfterInvoicePartners(AfterOrderPartners(AfterMasters(d, s.masters), s.orders), s.invoices);
    KnownWithDocs(known, s, known.docs + SupplierDocs(known.suppliers, known.partners));
    var d1 := AfterSuppliers(d, s);
    var d2 := AfterOrders(d1, s.orders, s.orders);
    RowsComeLast(d1, s, d2, AfterReceipts(d2, s.receipts), Built(d, s));
  }

  /** Every row of a snapshot is seen, except the lines of a row that is skipped. */
  lemma DraftedCounts(s: Snapshot)
    ensures CountsRows(Drafted(s).stats, Drafted(s), s)
  {
    BuiltCounts(Empty(Incoming(s.rejected)), s);
  }
}
