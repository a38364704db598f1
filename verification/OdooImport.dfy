/**
 One import of a snapshot's candidates: documents, then lines, then the purchase-order lifecycle,
 with counters and issues kept along the way. Either everything is committed or nothing.
 */
module OdooImport {
  import opened Basics
  import opened QuantityLedger
  import opened OdooTables
  import L = OdooLifecycle

  /** The candidates of a snapshot; the times that come from the import itself are filled in by `Stamp`. */
  datatype Batch = Batch(docs: seq<Doc>, lines: seq<Line>)

  function Stamp(c: Doc, at: int): Doc {
    match c.content
    case Supplier => c.(createdAt := at, updatedAt := at)
    case PurchaseOrder(_, _) => c.(updatedAt := at)
    case _ => c
  }

  function Stamped(cs: seq<Doc>, at: int): (r: seq<Doc>)
    ensures |r| == |cs| && forall i :: 0 <= i < |cs| ==> r[i] == Stamp(cs[i], at)
  {
    if cs == [] then [] else Stamped(cs[..|cs| - 1], at) + [Stamp(cs[|cs| - 1], at)]
  }

  // ---- the accepted candidates, as the lifecycle reads them

  function Orders(cs: seq<Doc>, accepted: set<string>): seq<L.Po> {
    if cs == [] then []
    else
      var front, c := Orders(cs[..|cs| - 1], accepted), cs[|cs| - 1];
      if c.content.PurchaseOrder? && c.id in accepted
      then front + [L.Po(c.id, c.status, c.content.confirmedAt, c.content.orderedAt, c.updatedAt)] else front
  }

  function OrderLines(cs: seq<Line>, accepted: set<string>): seq<L.PoLine> {
    if cs == [] then []
    else
      var front, c := OrderLines(cs[..|cs| - 1], accepted), cs[|cs| - 1];
      if c.content.Ordered? && c.id in accepted then front + [L.PoLine(c.id, c.document, c.content.quantity)] else front
  }

  predicate IdBefore(a: string, b: string) {
    b != [] && (a == [] || a[0] < b[0] || (a[0] == b[0] && IdBefore(a[1..], b[1..])))
  }

  predicate Earlier(a: L.Receipt, b: L.Receipt) {
    a.receivedAt < b.receivedAt || (a.receivedAt == b.receivedAt && IdBefore(a.id, b.id))
  }

  function Insert(r: L.Receipt, rs: seq<L.Receipt>): seq<L.Receipt> {
    if rs == [] || !Earlier(r, rs[|rs| - 1]) then rs + [r] else Insert(r, rs[..|rs| - 1]) + [rs[|rs| - 1]]
  }

  /** In the order of their time and id. */
  function SortedReceipts(cs: seq<Doc>, accepted: set<string>): seq<L.Receipt> {
    if cs == [] then []
    else
      var front, c := SortedReceipts(cs[..|cs| - 1], accepted), cs[|cs| - 1];
      if c.content.Receipt? && c.id in accepted
      then Insert(L.Receipt(c.id, c.content.po, c.content.receivedAt, c.updatedAt), front) else front
  }

  function ReceivedLines(cs: seq<Line>, accepted: set<string>): seq<L.ReceiptLine> {
    if cs == [] then []
    else
      var front, c := ReceivedLines(cs[..|cs| - 1], accepted), cs[|cs| - 1];
      if c.content.ReceivedFor? && c.id in accepted
      then front + [L.ReceiptLine(c.id, c.document, c.content.poLine, c.content.quantity)] else front
  }

  function AcceptedOf(docs: seq<Doc>, lines: seq<Line>, docIds: set<string>, lineIds: set<string>, at: int): L.Accepted {
    L.Accepted(Orders(docs, docIds), OrderLines(lines, lineIds), SortedReceipts(docs, docIds), ReceivedLines(lines, lineIds), at)
  }

  // ---- purchase-order rows, as the lifecycle updates them

  function OrderRows(rows: Rows<Doc>): map<string, L.PoRow> {
    map k | k in rows && k.0 == PurchaseOrders :: k.1 := L.PoRow(rows[k].version, rows[k].value.status, rows[k].value.updatedAt)
  }

  function WithOrders(rows: Rows<Doc>, orders: map<string, L.PoRow>): Rows<Doc> {
    map k | k in rows ::
      if k.0 == PurchaseOrders && k.1 in orders
      then Row(orders[k.1].version, rows[k].value.(status := orders[k.1].status, updatedAt := orders[k.1].updatedAt))
      else rows[k]
  }

  // ---- stage events; a stage is named by its order, its kind and its source revision

  datatype Stage =
    | OrderConfirmed(po: string, at: int)
    | InTransit(po: string, receipt: string, revision: int, complete: bool)
    | AtWarehouse(po: string, receipt: string, revision: int, complete: bool)

  function ConfirmedStages(pos: seq<L.Po>): set<Stage> {
    if pos == [] then {}
    else
      var po := pos[|pos| - 1];
      ConfirmedStages(pos[..|pos| - 1])
      + (if po.status == CONFIRMED && po.confirmedAt.Some? then {OrderConfirmed(po.id, po.confirmedAt.value)} else {})
  }

  /** The receipts of one order; the last one completes a complete order. */
  function ReceiptStages(po: string, receipts: seq<L.Receipt>, complete: bool): set<Stage> {
    if receipts == [] then {}
    else
      var last := receipts[|receipts| - 1];
      ReceiptStages(po, receipts[..|receipts| - 1], false)
      + {InTransit(po, last.id, last.updatedAt, complete), AtWarehouse(po, last.id, last.updatedAt, complete)}
  }

  function ArrivalStages(l: Ledger, a: L.Accepted, pos: seq<L.Po>): set<Stage> {
    if pos == [] then {}
    else
      var po := pos[|pos| - 1];
      var derived := L.DeriveStatus(l, po, L.LinesOf(a.poLines, po.id));
      ArrivalStages(l, a, pos[..|pos| - 1])
      + (if derived.Becomes? then ReceiptStages(po.id, L.ReceiptsOf(a.receipts, po.id), derived.status == L.RECEIVED) else {})
  }

  // ---- the import

  datatype Store = Store(docs: Rows<Doc>, lines: Rows<Line>, ledger: Ledger, stages: set<Stage>)

  function Import(s: Store, b: Batch, at: int): Option<Store> {
    var cs := Stamped(b.docs, at);
    var docs, docIds := AfterDocs(s.docs, cs, at), AcceptedDocs(s.docs, cs, at);
    var lines := AfterLines(s.lines, docIds, b.lines);
    if lines.None? then None
    else
      var a := AcceptedOf(cs, b.lines, docIds, AcceptedLines(s.lines, docIds, b.lines), at);
      var projected := L.Lifecycle(s.ledger, OrderRows(docs), a);
      if projected.None? then None
      else
        var (ledger, orders) := projected.value;
        Some(Store(WithOrders(docs, orders), lines.value, ledger, s.stages + ConfirmedStages(a.pos) + ArrivalStages(ledger, a, a.pos)))
  }

  // ---- counters and issues

  datatype Stat = Stat(seen: nat, created: nat, updated: nat, untouched: nat, skipped: nat)

  datatype Stats = Stats(suppliers: Stat, purchaseOrders: Stat, purchaseOrderLines: Stat,
                         receipts: Stat, receiptLines: Stat, invoices: Stat, invoiceLines: Stat)

  const NO_STAT := Stat(0, 0, 0, 0, 0)
  const NO_STATS := Stats(NO_STAT, NO_STAT, NO_STAT, NO_STAT, NO_STAT, NO_STAT, NO_STAT)

  function Of(stats: Stats, kind: Kind): Stat {
    match kind
    case Suppliers => stats.suppliers
    case PurchaseOrders => stats.purchaseOrders
    case PurchaseOrderLines => stats.purchaseOrderLines
    case Receipts => stats.receipts
    case ReceiptLines => stats.receiptLines
    case Invoices => stats.invoices
    case InvoiceLines => stats.invoiceLines
  }

  function With(stats: Stats, kind: Kind, s: Stat): Stats {
    match kind
    case Suppliers => stats.(suppliers := s)
    case PurchaseOrders => stats.(purchaseOrders := s)
    case PurchaseOrderLines => stats.(purchaseOrderLines := s)
    case Receipts => stats.(receipts := s)
    case ReceiptLines => stats.(receiptLines := s)
    case Invoices => stats.(invoices := s)
    case InvoiceLines => stats.(invoiceLines := s)
  }

  function Counted(s: Stat, o: Outcome): Stat {
    match o
    case Created => s.(created := s.created + 1)
    case Updated => s.(updated := s.updated + 1)
    case Unchanged => s.(untouched := s.untouched + 1)
    case Skipped(_) => s.(skipped := s.skipped + 1)
  }

  function Bump(stats: Stats, kind: Kind, o: Outcome): Stats {
    With(stats, kind, Counted(Of(stats, kind), o))
  }

  /** The counters after one upsert for each candidate, one outcome each. */
  function CountedDocs(stats: Stats, rows: Rows<Doc>, cs: seq<Doc>, at: int): Stats {
    if cs == [] then stats
    else
      var front, c := cs[..|cs| - 1], cs[|cs| - 1];
      Bump(CountedDocs(stats, rows, front, at), c.Kind(), DocOutcome(AfterDocs(rows, front, at), c))
  }

  function CountedLines(stats: Stats, rows: Rows<Line>, parents: set<string>, cs: seq<Line>): Stats
    requires AfterLines(rows, parents, cs).Some?
  {
    if cs == [] then stats
    else
      var front, c := cs[..|cs| - 1], cs[|cs| - 1];
      Bump(CountedLines(stats, rows, parents, front), c.Kind(), LineOutcome(AfterLines(rows, parents, front).value, parents, c).value)
  }

  /** The counters of a whole import whose lines all find their place. */
  function CountedImport(stats: Stats, s: Store, b: Batch, at: int): Stats
    requires AfterLines(s.lines, AcceptedDocs(s.docs, Stamped(b.docs, at), at), b.lines).Some?
  {
    var cs := Stamped(b.docs, at);
    CountedLines(CountedDocs(stats, s.docs, cs, at), s.lines, AcceptedDocs(s.docs, cs, at), b.lines)
  }

  datatype Issue = Issue(kind: Kind, external: string, code: string)

  /** The candidates waiting to be stored, by kind. */
  function Waiting(docs: seq<Doc>, lines: seq<Line>, kind: Kind): nat {
    WaitingDocs(docs, kind) + WaitingLines(lines, kind)
  }

  function WaitingDocs(docs: seq<Doc>, kind: Kind): nat {
    if docs == [] then 0 else (if docs[0].Kind() == kind then 1 else 0) + WaitingDocs(docs[1..], kind)
  }

  function WaitingLines(lines: seq<Line>, kind: Kind): nat {
    if lines == [] then 0 else (if lines[0].Kind() == kind then 1 else 0) + WaitingLines(lines[1..], kind)
  }

  function Handled(s: Stat): nat { s.created + s.updated + s.untouched + s.skipped }

  function SkippedInAll(stats: Stats): nat {
    Of(stats, Suppliers).skipped + Of(stats, PurchaseOrders).skipped + Of(stats, PurchaseOrderLines).skipped
    + Of(stats, Receipts).skipped + Of(stats, ReceiptLines).skipped + Of(stats, Invoices).skipped + Of(stats, InvoiceLines).skipped
  }

  /** What has been seen is handled or waiting, except the suppliers that `lost` others replaced. */
  predicate BalancedAt(stats: Stats, docs: seq<Doc>, lines: seq<Line>, lost: nat, kind: Kind) {
    Of(stats, kind).seen == Handled(Of(stats, kind)) + Waiting(docs, lines, kind) + (if kind == Suppliers then lost else 0)
  }

  ghost predicate Balanced(stats: Stats, docs: seq<Doc>, lines: seq<Line>, lost: nat) {
    forall kind {:trigger BalancedAt(stats, docs, lines, lost, kind)} :: BalancedAt(stats, docs, lines, lost, kind)
  }

  /** Everything seen is handled, except the `lost` suppliers. */
  ghost predicate AllHandled(stats: Stats, lost: nat) {
    forall kind {:trigger Of(stats, kind)} ::
      Of(stats, kind).seen == Handled(Of(stats, kind)) + (if kind == Suppliers then lost else 0)
  }

  lemma {:induction false} NothingWaits(stats: Stats, docs: seq<Doc>, lines: seq<Line>, lost: nat)
    requires Balanced(stats, docs, lines, lost) && docs == [] && lines == []
    ensures AllHandled(stats, lost)
  {
    forall kind ensures Of(stats, kind).seen == Handled(Of(stats, kind)) + (if kind == Suppliers then lost else 0) {
      assert BalancedAt(stats, docs, lines, lost, kind);
    }
  }

  /** The state one import works on; every field is written in place, and restored if the import fails. */
  class Importer {
    var docs: Rows<Doc>
    var lines: Rows<Line>
    var ledger: Ledger
    var stages: set<Stage>
    var stats: Stats
    var issues: seq<Issue>

    constructor (s: Store, counted: Stats, raised: seq<Issue>)
      ensures Stored() == s && stats == counted && issues == raised
    {
      docs, lines, ledger, stages, stats, issues := s.docs, s.lines, s.ledger, s.stages, counted, raised;
    }

    function Stored(): Store
      reads this
    {
      Store(docs, lines, ledger, stages)
    }

    method Count(kind: Kind, external: string, o: Outcome)
      modifies this`stats, this`issues
      ensures stats == Bump(old(stats), kind, o)
      ensures issues == old(issues) + (if o.Skipped? then [Issue(kind, external, o.code)] else [])
    {
      var s := Of(stats, kind);
      match o {
        case Created => s := s.(created := s.created + 1);
        case Updated => s := s.(updated := s.updated + 1);
        case Unchanged => s := s.(untouched := s.untouched + 1);
        case Skipped(code) =>
          s := s.(skipped := s.skipped + 1);
          issues := issues + [Issue(kind, external, code)];
      }
      stats := With(stats, kind, s);
    }

    method UpsertDocument(c: Doc, at: int) returns (accepted: bool)
      modifies this`docs, this`stats, this`issues
      ensures docs == AfterDoc(old(docs), c, at)
      ensures accepted == !DocOutcome(old(docs), c).Skipped?
      ensures stats == Bump(old(stats), c.Kind(), DocOutcome(old(docs), c))
      ensures issues == old(issues) + (if accepted then [] else [Issue(c.Kind(), c.external, DocOutcome(old(docs), c).code)])
    {
      var known := Known(docs, c);
      if !known && c.Key() in docs {
        Count(c.Kind(), c.external, Skipped("DOCUMENT_ID_CONFLICT"));
        return false;
      }
      if !known && NumberTaken(docs, c) {
        Count(c.Kind(), c.external, Skipped("DUPLICATE_INVOICE_IDENTITY"));
        return false;
      }
      if !known {
        Count(c.Kind(), c.external, Created);
        docs := docs[c.Key() := Row(1, c)];
        return true;
      }
      if !Owns(docs, c) {
        Count(c.Kind(), c.external, Skipped("EXTERNAL_ID_MAPPING_CONFLICT"));
        return false;
      }
      var row := docs[c.Key()];
      var merged := Merged(row.value, c, at);
      if row.value.Business() == merged.Business() {
        Count(c.Kind(), c.external, Unchanged);
        return true;
      }
      Count(c.Kind(), c.external, Updated);
      docs := docs[c.Key() := Row(row.version + 1, merged)];
      return true;
    }

    method UpsertLine(c: Line, parents: set<string>) returns (ok: bool, accepted: bool)
      modifies this`lines, this`stats, this`issues
      ensures ok == AfterLine(old(lines), parents, c).Some?
      ensures ok ==>
                var o := LineOutcome(old(lines), parents, c).value;
                && lines == AfterLine(old(lines), parents, c).value
                && accepted == !o.Skipped?
                && stats == Bump(old(stats), c.Kind(), o)
                && issues == old(issues) + (if accepted then [] else [Issue(c.Kind(), c.id, o.code)])
    {
      if c.document !in parents {
        Count(c.Kind(), c.id, Skipped("PARENT_NOT_IMPORTED"));
        return true, false;
      }
      var taken := PlaceTaken(lines, c);
      if c.Key() !in lines {
        if taken {
          Count(c.Kind(), c.id, Skipped("LINE_NUMBER_CONFLICT"));
          return true, false;
        }
        Count(c.Kind(), c.id, Created);
        lines := lines[c.Key() := Row(1, c)];
        return true, true;
      }
      var row := lines[c.Key()];
      if row.value.document != c.document {
        Count(c.Kind(), c.id, Skipped("LINE_PARENT_CONFLICT"));
        return true, false;
      }
      if row.value == c {
        Count(c.Kind(), c.id, Unchanged);
        return true, true;
      }
      if taken {
        return false, false;
      }
      Count(c.Kind(), c.id, Updated);
      lines := lines[c.Key() := Row(row.version + 1, c)];
      return true, true;
    }

    /** Balance is kept by each upsert: one waiting candidate becomes one counted outcome. */
    method UpsertDocuments(cs: seq<Doc>, waiting: seq<Line>, at: int, ghost lost: nat, ghost incoming: nat) returns (accepted: set<string>)
      requires Balanced(stats, cs, waiting, lost) && |issues| == incoming + SkippedInAll(stats)
      modifies this`docs, this`stats, this`issues
      ensures docs == AfterDocs(old(docs), cs, at) && accepted == AcceptedDocs(old(docs), cs, at)
      ensures stats == CountedDocs(old(stats), old(docs), cs, at)
      ensures SameSeen(old(stats), stats)
      ensures Balanced(stats, cs[|cs|..], waiting, lost) && |issues| == incoming + SkippedInAll(stats)
    {
      accepted := {};
      for i := 0 to |cs|
        invariant docs == AfterDocs(old(docs), cs[..i], at) && accepted == AcceptedDocs(old(docs), cs[..i], at)
        invariant stats == CountedDocs(old(stats), old(docs), cs[..i], at)
        invariant SameSeen(old(stats), stats)
        invariant Balanced(stats, cs[i..], waiting, lost) && |issues| == incoming + SkippedInAll(stats)
      {
        assert cs[..i + 1][..i] == cs[..i];
        BumpDocBalances(stats, cs[i..], waiting, lost, DocOutcome(docs, cs[i]));
        BumpSkips(stats, cs[i].Kind(), DocOutcome(docs, cs[i]));
        BumpSeen(old(stats), stats, cs[i].Kind(), DocOutcome(docs, cs[i]));
        assert cs[i..][1..] == cs[i + 1..];
        var taken := UpsertDocument(cs[i], at);
        if taken {
          accepted := accepted + {cs[i].id};
        }
      }
      assert cs[..|cs|] == cs;
    }

    method UpsertLines(cs: seq<Line>, parents: set<string>, ghost docsLeft: seq<Doc>, ghost lost: nat, ghost incoming: nat) returns (ok: bool, accepted: set<string>)
      requires Balanced(stats, docsLeft, cs, lost) && |issues| == incoming + SkippedInAll(stats)
      modifies this`lines, this`stats, this`issues
      ensures ok == AfterLines(old(lines), parents, cs).Some?
      ensures ok ==> Some(lines) == AfterLines(old(lines), parents, cs) && accepted == AcceptedLines(old(lines), parents, cs)
      ensures ok ==> stats == CountedLines(old(stats), old(lines), parents, cs)
      ensures ok ==> Balanced(stats, docsLeft, cs[|cs|..], lost) && |issues| == incoming + SkippedInAll(stats)
      ensures ok ==> SameSeen(old(stats), stats)
    {
      ok, accepted := true, {};
      for i := 0 to |cs|
        invariant AfterLines(old(lines), parents, cs[..i]) == Some(lines) && accepted == AcceptedLines(old(lines), parents, cs[..i])
        invariant stats == CountedLines(old(stats), old(lines), parents, cs[..i])
        invariant Balanced(stats, docsLeft, cs[i..], lost) && |issues| == incoming + SkippedInAll(stats)
        invariant SameSeen(old(stats), stats)
      {
        assert cs[..i + 1][..i] == cs[..i];
        assert cs[i..][1..] == cs[i + 1..];
        if LineOutcome(lines, parents, cs[i]).Some? {
          BumpLineBalances(stats, docsLeft, cs[i..], lost, LineOutcome(lines, parents, cs[i]).value);
          BumpSkips(stats, cs[i].Kind(), LineOutcome(lines, parents, cs[i]).value);
          BumpSeen(old(stats), stats, cs[i].Kind(), LineOutcome(lines, parents, cs[i]).value);
        }
        var done, taken := UpsertLine(cs[i], parents);
        if !done {
          LinesFail(old(lines), parents, cs, i + 1);
          return false, {};
        }
        if taken {
          accepted := accepted + {cs[i].id};
        }
      }
      assert cs[..|cs|] == cs;
    }

    /**
     A whole import over what the candidates' builder counted. On success the store is the one `Import`
     gives, and everything seen is accounted for; on failure every table is as before.
     */
    method Run(b: Batch, at: int, ghost lost: nat, ghost incoming: nat) returns (ok: bool)
      requires Balanced(stats, b.docs, b.lines, lost) && |issues| == incoming + SkippedInAll(stats)
      modifies this
      ensures ok == Import(old(Stored()), b, at).Some?
      ensures Stored() == if ok then Import(old(Stored()), b, at).value else old(Stored())
      ensures ok ==>
                && AfterLines(old(lines), AcceptedDocs(old(docs), Stamped(b.docs, at), at), b.lines).Some?
                && stats == CountedImport(old(stats), old(Stored()), b, at)
      ensures ok ==> AllHandled(stats, lost) && |issues| == incoming + SkippedInAll(stats) && SameSeen(old(stats), stats)
    {
      var before := Stored();
      var cs := Stamped(b.docs, at);
      StampedBalanced(stats, b, at, lost);
      var docIds := UpsertDocuments(cs, b.lines, at, lost, incoming);
      var done, lineIds := UpsertLines(b.lines, docIds, cs[|cs|..], lost, incoming);
      if !done {
        docs, lines := before.docs, before.lines;
        return false;
      }
      NothingWaits(stats, cs[|cs|..], b.lines[|b.lines|..], lost);
      var a := AcceptedOf(cs, b.lines, docIds, lineIds, at);
      var projected := L.Project(ledger, OrderRows(docs), a);
      if projected.None? {
        docs, lines := before.docs, before.lines;
        return false;
      }
      ledger := projected.value.0;
      docs := WithOrders(docs, projected.value.1);
      stages := stages + ConfirmedStages(a.pos) + ArrivalStages(ledger, a, a.pos);
      return true;
    }
  }

  ghost predicate SameSeen(before: Stats, after: Stats) {
    forall k {:trigger Of(after, k)} :: Of(after, k).seen == Of(before, k).seen
  }

  lemma BumpSeen(before: Stats, stats: Stats, kind: Kind, o: Outcome)
    requires SameSeen(before, stats)
    ensures SameSeen(before, Bump(stats, kind, o))
  {
    forall k ensures Of(Bump(stats, kind, o), k).seen == Of(before, k).seen {
      BumpKeeps(stats, kind, o, k);
    }
  }

  lemma {:induction false} BumpOwn(stats: Stats, kind: Kind, o: Outcome)
    ensures Handled(Of(Bump(stats, kind, o), kind)) == Handled(Of(stats, kind)) + 1
    ensures Of(Bump(stats, kind, o), kind).skipped == Of(stats, kind).skipped + (if o.Skipped? then 1 else 0)
  {
  }

  lemma {:induction false} BumpKeeps(stats: Stats, kind: Kind, o: Outcome, k: Kind)
    ensures Of(Bump(stats, kind, o), k).seen == Of(stats, k).seen
    ensures k != kind ==> Of(Bump(stats, kind, o), k) == Of(stats, k)
  {
  }

  lemma {:induction false} BumpSkips(stats: Stats, kind: Kind, o: Outcome)
    ensures SkippedInAll(Bump(stats, kind, o)) == SkippedInAll(stats) + (if o.Skipped? then 1 else 0)
  {
    BumpOwn(stats, kind, o);
    forall k | k != kind ensures Of(Bump(stats, kind, o), k) == Of(stats, k) {
      BumpKeeps(stats, kind, o, k);
    }
  }

  lemma {:induction false} BumpBalancesAt(stats: Stats, docs: seq<Doc>, lines: seq<Line>, docs': seq<Doc>, lines': seq<Line>,
                       lost: nat, kind: Kind, o: Outcome, k: Kind)
    requires BalancedAt(stats, docs, lines, lost, k)
    requires Waiting(docs, lines, k) == Waiting(docs', lines', k) + (if k == kind then 1 else 0)
    ensures BalancedAt(Bump(stats, kind, o), docs', lines', lost, k)
  {
    BumpOwn(stats, kind, o);
    BumpKeeps(stats, kind, o, k);
  }

  lemma {:induction false} DocHandled(cs: seq<Doc>, waiting: seq<Line>, k: Kind)
    requires cs != []
    ensures Waiting(cs, waiting, k) == Waiting(cs[1..], waiting, k) + (if k == cs[0].Kind() then 1 else 0)
  {
  }

  lemma {:induction false} DocBalancesAt(stats: Stats, cs: seq<Doc>, waiting: seq<Line>, lost: nat, o: Outcome, k: Kind)
    requires cs != [] && BalancedAt(stats, cs, waiting, lost, k)
    ensures BalancedAt(Bump(stats, cs[0].Kind(), o), cs[1..], waiting, lost, k)
  {
    DocHandled(cs, waiting, k);
    BumpBalancesAt(stats, cs, waiting, cs[1..], waiting, lost, cs[0].Kind(), o, k);
  }

  lemma {:induction false} BumpDocBalances(stats: Stats, cs: seq<Doc>, waiting: seq<Line>, lost: nat, o: Outcome)
    requires cs != [] && Balanced(stats, cs, waiting, lost)
    ensures Balanced(Bump(stats, cs[0].Kind(), o), cs[1..], waiting, lost)
  {
    forall k ensures BalancedAt(Bump(stats, cs[0].Kind(), o), cs[1..], waiting, lost, k) {
      DocBalancesAt(stats, cs, waiting, lost, o, k);
    }
  }

  lemma {:induction false} LineHandled(docs: seq<Doc>, cs: seq<Line>, k: Kind)
    requires cs != []
    ensures Waiting(docs, cs, k) == Waiting(docs, cs[1..], k) + (if k == cs[0].Kind() then 1 else 0)
  {
  }

  lemma {:induction false} LineBalancesAt(stats: Stats, docs: seq<Doc>, cs: seq<Line>, lost: nat, o: Outcome, k: Kind)
    requires cs != [] && BalancedAt(stats, docs, cs, lost, k)
    ensures BalancedAt(Bump(stats, cs[0].Kind(), o), docs, cs[1..], lost, k)
  {
    LineHandled(docs, cs, k);
    BumpBalancesAt(stats, docs, cs, docs, cs[1..], lost, cs[0].Kind(), o, k);
  }

  lemma {:induction false} BumpLineBalances(stats: Stats, docs: seq<Doc>, cs: seq<Line>, lost: nat, o: Outcome)
    requires cs != [] && Balanced(stats, docs, cs, lost)
    ensures Balanced(Bump(stats, cs[0].Kind(), o), docs, cs[1..], lost)
  {
    forall k ensures BalancedAt(Bump(stats, cs[0].Kind(), o), docs, cs[1..], lost, k) {
      LineBalancesAt(stats, docs, cs, lost, o, k);
    }
  }

  lemma {:induction false} StampedWaiting(cs: seq<Doc>, at: int, kind: Kind)
    ensures WaitingDocs(Stamped(cs, at), kind) == WaitingDocs(cs, kind)
    decreases |cs|
  {
    if cs != [] {
      StampedWaiting(cs[1..], at, kind);
      assert Stamped(cs, at)[1..] == Stamped(cs[1..], at);
    }
  }

  lemma {:induction false} StampedBalancedAt(stats: Stats, b: Batch, at: int, lost: nat, kind: Kind)
    requires BalancedAt(stats, b.docs, b.lines, lost, kind)
    ensures BalancedAt(stats, Stamped(b.docs, at), b.lines, lost, kind)
  {
    StampedWaiting(b.docs, at, kind);
  }

  lemma {:induction false} StampedBalanced(stats: Stats, b: Batch, at: int, lost: nat)
    requires Balanced(stats, b.docs, b.lines, lost)
    ensures Balanced(stats, Stamped(b.docs, at), b.lines, lost)
  {
    forall kind ensures BalancedAt(stats, Stamped(b.docs, at), b.lines, lost, kind) {
      StampedBalancedAt(stats, b, at, lost, kind);
    }
  }

  lemma {:induction false} LinesFail(rows: Rows<Line>, parents: set<string>, cs: seq<Line>, i: nat)
    requires i <= |cs| && AfterLines(rows, parents, cs[..i]).None?
    ensures AfterLines(rows, parents, cs).None?
    decreases |cs|
  {
    if i < |cs| {
      assert cs[..|cs| - 1][..i] == cs[..i];
      LinesFail(rows, parents, cs[..|cs| - 1], i);
    } else {
      assert cs[..i] == cs;
    }
  }
}
