/**
 Storing the candidates of a snapshot: every document and every line is created, updated, left alone
 or skipped. A table maps the primary key to a versioned row.
 */
module OdooTables {
  import opened Basics

  datatype Kind = Suppliers | PurchaseOrders | PurchaseOrderLines | Receipts | ReceiptLines | Invoices | InvoiceLines

  type Key = (Kind, string)

  datatype Row<T> = Row(version: nat, value: T)

  type Rows<T> = map<Key, Row<T>>

  datatype Outcome = Created | Updated | Unchanged | Skipped(code: string)

  // ---- documents

  /** What the import itself looks at; the other business fields are in `details`. */
  datatype Content =
    | Supplier
    | PurchaseOrder(orderedAt: int, confirmedAt: Option<int>)
    | Receipt(po: string, receivedAt: int)
    | Invoice(supplier: string, number: string)

  datatype Doc = Doc(id: string, system: string, external: string, status: string,
                     createdAt: int, updatedAt: int, content: Content, details: string)
  {
    function Kind(): Kind {
      match content
      case Supplier => Suppliers
      case PurchaseOrder(_, _) => PurchaseOrders
      case Receipt(_, _) => Receipts
      case Invoice(_, _) => Invoices
    }

    function Key(): Key { (Kind(), id) }

    /** The foreign object the document stands for; the table holds at most one document of a kind for it. */
    function Ref(): (Kind, string, string) { (Kind(), system, external) }

    /** The document without its times. */
    function Business(): Doc { this.(createdAt := 0, updatedAt := 0) }
  }

  const CONFIRMED := "confirmed"

  predicate BeyondConfirmed(status: string) {
    status in {"in_production", "awaiting_shipment", "partially_shipped", "shipped", "partially_received", "received"}
  }

  /** `mergeImportedPurchaseOrderStatus` */
  function MergeStatus(stored: string, imported: string): string {
    if imported == CONFIRMED && BeyondConfirmed(stored) then stored else imported
  }

  function Merged(stored: Doc, c: Doc, at: int): Doc {
    var status := if c.content.PurchaseOrder? then MergeStatus(stored.status, c.status) else c.status;
    c.(status := status, createdAt := stored.createdAt, updatedAt := at)
  }

  predicate Known(rows: Rows<Doc>, c: Doc) {
    exists k :: k in rows && rows[k].value.Ref() == c.Ref()
  }

  /** The row under the candidate's id stands for the candidate's foreign object. */
  predicate Owns(rows: Rows<Doc>, c: Doc) {
    c.Key() in rows && rows[c.Key()].value.Ref() == c.Ref()
  }

  predicate NumberTaken(rows: Rows<Doc>, c: Doc) {
    c.content.Invoice? && exists k :: k in rows && rows[k].value.content == c.content
  }

  /** The branches of `upsertDocument`. */
  function DocOutcome(rows: Rows<Doc>, c: Doc): Outcome {
    if !Known(rows, c) then
      if c.Key() in rows then Skipped("DOCUMENT_ID_CONFLICT")
      else if NumberTaken(rows, c) then Skipped("DUPLICATE_INVOICE_IDENTITY")
      else Created
    else if !Owns(rows, c) then Skipped("EXTERNAL_ID_MAPPING_CONFLICT")
    else
      var stored := rows[c.Key()].value;
      if stored.Business() == Merged(stored, c, 0).Business() then Unchanged else Updated
  }

  function AfterDoc(rows: Rows<Doc>, c: Doc, at: int): Rows<Doc> {
    match DocOutcome(rows, c)
    case Created => rows[c.Key() := Row(1, c)]
    case Updated => rows[c.Key() := Row(rows[c.Key()].version + 1, Merged(rows[c.Key()].value, c, at))]
    case _ => rows
  }

  function AfterDocs(rows: Rows<Doc>, cs: seq<Doc>, at: int): Rows<Doc> {
    if cs == [] then rows else AfterDoc(AfterDocs(rows, cs[..|cs| - 1], at), cs[|cs| - 1], at)
  }

  function DocOutcomes(rows: Rows<Doc>, cs: seq<Doc>, at: int): (os: seq<Outcome>)
    ensures |os| == |cs|
  {
    if cs == [] then []
    else DocOutcomes(rows, cs[..|cs| - 1], at) + [DocOutcome(AfterDocs(rows, cs[..|cs| - 1], at), cs[|cs| - 1])]
  }

  function AcceptedDocs(rows: Rows<Doc>, cs: seq<Doc>, at: int): set<string> {
    if cs == [] then {}
    else
      var front, last := cs[..|cs| - 1], cs[|cs| - 1];
      AcceptedDocs(rows, front, at) + (if DocOutcome(AfterDocs(rows, front, at), last).Skipped? then {} else {last.id})
  }

  // ---- lines

  datatype LineContent = Ordered(quantity: real) | ReceivedFor(poLine: string, quantity: real) | Invoiced

  datatype Line = Line(id: string, document: string, number: string, content: LineContent, details: string)
  {
    function Kind(): Kind {
      match content
      case Ordered(_) => PurchaseOrderLines
      case ReceivedFor(_, _) => ReceiptLines
      case Invoiced => InvoiceLines
    }

    function Key(): Key { (Kind(), id) }

    /** The place in its document; the table holds at most one line of a kind for it. */
    function Place(): (Kind, string, string) { (Kind(), document, number) }
  }

  predicate PlaceTaken(rows: Rows<Line>, c: Line) {
    exists k :: k in rows && k != c.Key() && rows[k].value.Place() == c.Place()
  }

  /** The branches of `upsertLine`; no result where the table refuses the new place of a line. */
  function LineOutcome(rows: Rows<Line>, accepted: set<string>, c: Line): Option<Outcome> {
    if c.document !in accepted then Some(Skipped("PARENT_NOT_IMPORTED"))
    else if c.Key() !in rows then Some(if PlaceTaken(rows, c) then Skipped("LINE_NUMBER_CONFLICT") else Created)
    else if rows[c.Key()].value.document != c.document then Some(Skipped("LINE_PARENT_CONFLICT"))
    else if rows[c.Key()].value == c then Some(Unchanged)
    else if PlaceTaken(rows, c) then None
    else Some(Updated)
  }

  function AfterLine(rows: Rows<Line>, accepted: set<string>, c: Line): Option<Rows<Line>> {
    match LineOutcome(rows, accepted, c)
    case None => None
    case Some(Created) => Some(rows[c.Key() := Row(1, c)])
    case Some(Updated) => Some(rows[c.Key() := Row(rows[c.Key()].version + 1, c)])
    case Some(_) => Some(rows)
  }

  function AfterLines(rows: Rows<Line>, accepted: set<string>, cs: seq<Line>): Option<Rows<Line>> {
    if cs == [] then Some(rows)
    else
      var front := AfterLines(rows, accepted, cs[..|cs| - 1]);
      if front.None? then None else AfterLine(front.value, accepted, cs[|cs| - 1])
  }

  function LineOutcomes(rows: Rows<Line>, accepted: set<string>, cs: seq<Line>): (os: seq<Outcome>)
    requires AfterLines(rows, accepted, cs).Some?
    ensures |os| == |cs|
  {
    if cs == [] then []
    else
      var front := cs[..|cs| - 1];
      LineOutcomes(rows, accepted, front) + [LineOutcome(AfterLines(rows, accepted, front).value, accepted, cs[|cs| - 1]).value]
  }

  function AcceptedLines(rows: Rows<Line>, accepted: set<string>, cs: seq<Line>): set<string>
    requires AfterLines(rows, accepted, cs).Some?
  {
    if cs == [] then {}
    else
      var front, last := cs[..|cs| - 1], cs[|cs| - 1];
      AcceptedLines(rows, accepted, front)
      + (if LineOutcome(AfterLines(rows, accepted, front).value, accepted, last).value.Skipped? then {} else {last.id})
  }

  // ---- what every upsert keeps

  ghost predicate KeyedDocs(rows: Rows<Doc>) {
    && (forall k {:trigger rows[k]} :: k in rows ==> rows[k].value.Key() == k)
    && forall k, k' {:trigger rows[k], rows[k']} :: k in rows && k' in rows && rows[k].value.Ref() == rows[k'].value.Ref() ==> k == k'
  }

  ghost predicate KeyedLines(rows: Rows<Line>) {
    && (forall k {:trigger rows[k]} :: k in rows ==> rows[k].value.Key() == k)
    && forall k, k' {:trigger rows[k], rows[k']} :: k in rows && k' in rows && rows[k].value.Place() == rows[k'].value.Place() ==> k == k'
  }

  /** Rows are never removed, and a row that changes gets a higher version. */
  ghost predicate Grows<T>(rows: Rows<T>, rows': Rows<T>) {
    forall k {:trigger k in rows} :: k in rows ==>
      k in rows' && rows[k].version <= rows'[k].version && (rows[k].version == rows'[k].version ==> rows[k] == rows'[k])
  }

  lemma GrowsBothWays<T>(a: Rows<T>, b: Rows<T>)
    requires Grows(a, b) && Grows(b, a)
    ensures a == b
  {
    assert forall k :: k in a <==> k in b;
  }

  lemma GrowsChains<T>(a: Rows<T>, b: Rows<T>, c: Rows<T>)
    requires Grows(a, b) && Grows(b, c)
    ensures Grows(a, c)
  {
    forall k | k in a
      ensures k in c && a[k].version <= c[k].version && (a[k].version == c[k].version ==> a[k] == c[k])
    {
      assert k in b;
    }
  }

  lemma DocGrows(rows: Rows<Doc>, c: Doc, at: int)
    ensures Grows(rows, AfterDoc(rows, c, at))
    ensures AfterDoc(rows, c, at) == rows <==> DocOutcome(rows, c).Skipped? || DocOutcome(rows, c).Unchanged?
    ensures KeyedDocs(rows) ==> KeyedDocs(AfterDoc(rows, c, at))
  {
    var rows' := AfterDoc(rows, c, at);
    if DocOutcome(rows, c).Created? {
      assert c.Key() !in rows && c.Key() in rows';
    } else if DocOutcome(rows, c).Updated? {
      assert rows'[c.Key()].version != rows[c.Key()].version;
      assert rows'[c.Key()].value.Ref() == rows[c.Key()].value.Ref();
    }
  }

  lemma LineGrows(rows: Rows<Line>, accepted: set<string>, c: Line)
    requires AfterLine(rows, accepted, c).Some?
    ensures var rows' := AfterLine(rows, accepted, c).value;
            && Grows(rows, rows')
            && (rows' == rows <==> LineOutcome(rows, accepted, c).value.Skipped? || LineOutcome(rows, accepted, c).value.Unchanged?)
            && (KeyedLines(rows) ==> KeyedLines(rows'))
  {
    var rows' := AfterLine(rows, accepted, c).value;
    if LineOutcome(rows, accepted, c).value.Created? {
      assert c.Key() !in rows && c.Key() in rows';
    } else if LineOutcome(rows, accepted, c).value.Updated? {
      assert rows'[c.Key()].version != rows[c.Key()].version;
    }
  }

  lemma {:induction false} DocsGrow(rows: Rows<Doc>, cs: seq<Doc>, at: int)
    ensures Grows(rows, AfterDocs(rows, cs, at))
    ensures KeyedDocs(rows) ==> KeyedDocs(AfterDocs(rows, cs, at))
  {
    if cs != [] {
      var front := cs[..|cs| - 1];
      DocsGrow(rows, front, at);
      DocGrows(AfterDocs(rows, front, at), cs[|cs| - 1], at);
      GrowsChains(rows, AfterDocs(rows, front, at), AfterDocs(rows, cs, at));
    }
  }

  lemma {:induction false} LinesGrow(rows: Rows<Line>, accepted: set<string>, cs: seq<Line>)
    requires AfterLines(rows, accepted, cs).Some?
    ensures var rows' := AfterLines(rows, accepted, cs).value;
            Grows(rows, rows') && (KeyedLines(rows) ==> KeyedLines(rows'))
  {
    if cs != [] {
      var front := cs[..|cs| - 1];
      LinesGrow(rows, accepted, front);
      var rows1 := AfterLines(rows, accepted, front).value;
      LineGrows(rows1, accepted, cs[|cs| - 1]);
      GrowsChains(rows, rows1, AfterLines(rows, accepted, cs).value);
    }
  }

  // ---- when storing changes nothing

  predicate SettledDoc(rows: Rows<Doc>, c: Doc) {
    DocOutcome(rows, c).Skipped? || DocOutcome(rows, c).Unchanged?
  }

  predicate SettledLine(rows: Rows<Line>, accepted: set<string>, c: Line) {
    LineOutcome(rows, accepted, c).Some?
    && (LineOutcome(rows, accepted, c).value.Skipped? || LineOutcome(rows, accepted, c).value.Unchanged?)
  }

  ghost predicate AllSettledDocs(rows: Rows<Doc>, cs: seq<Doc>) {
    forall c {:trigger SettledDoc(rows, c)} :: c in cs ==> SettledDoc(rows, c)
  }

  ghost predicate AllSettledLines(rows: Rows<Line>, accepted: set<string>, cs: seq<Line>) {
    forall c {:trigger SettledLine(rows, accepted, c)} :: c in cs ==> SettledLine(rows, accepted, c)
  }

  /** Storing candidates leaves the whole table alone exactly if it leaves it alone for each of them. */
  lemma {:induction false} DocsUnchanged(rows: Rows<Doc>, cs: seq<Doc>, at: int)
    ensures AfterDocs(rows, cs, at) == rows <==> AllSettledDocs(rows, cs)
  {
    if cs != [] {
      var front, last := cs[..|cs| - 1], cs[|cs| - 1];
      var rows1, rows' := AfterDocs(rows, front, at), AfterDocs(rows, cs, at);
      InFrontOrLast(cs);
      assert AllSettledDocs(rows, cs) <==> AllSettledDocs(rows, front) && SettledDoc(rows, last);
      DocsUnchanged(rows, front, at);
      DocsGrow(rows, front, at);
      DocGrows(rows1, last, at);
      if rows' == rows {
        GrowsBothWays(rows, rows1);
      }
    }
  }

  lemma {:induction false} LinesUnchanged(rows: Rows<Line>, accepted: set<string>, cs: seq<Line>)
    ensures AfterLines(rows, accepted, cs) == Some(rows) <==> AllSettledLines(rows, accepted, cs)
  {
    if cs != [] {
      var front, last := cs[..|cs| - 1], cs[|cs| - 1];
      InFrontOrLast(cs);
      assert AllSettledLines(rows, accepted, cs) <==> AllSettledLines(rows, accepted, front) && SettledLine(rows, accepted, last);
      LinesUnchanged(rows, accepted, front);
      if AfterLines(rows, accepted, front).Some? {
        var rows1 := AfterLines(rows, accepted, front).value;
        LinesGrow(rows, accepted, front);
        if AfterLine(rows1, accepted, last).Some? {
          LineGrows(rows1, accepted, last);
          if AfterLines(rows, accepted, cs) == Some(rows) {
            GrowsBothWays(rows, rows1);
          }
        }
      }
    }
  }

  // ---- what one import leaves behind

  /** No two candidates share an id; the ids of different kinds have different prefixes. */
  ghost predicate DistinctDocs(cs: seq<Doc>) {
    forall i, j :: 0 <= i < j < |cs| ==> cs[i].id != cs[j].id
  }

  ghost predicate DistinctLines(cs: seq<Line>) {
    forall i, j :: 0 <= i < j < |cs| ==> cs[i].id != cs[j].id
  }

  /** Stored as the import left it: the candidate's content under a status no merge changes. */
  predicate Stored(rows: Rows<Doc>, c: Doc) {
    Owns(rows, c) && rows[c.Key()].value.Business() == Merged(rows[c.Key()].value, c, 0).Business()
  }

  lemma OtherKeepsStored(rows: Rows<Doc>, c: Doc, other: Doc, at: int)
    requires Stored(rows, c) && other.Key() != c.Key()
    ensures Stored(AfterDoc(rows, other, at), c)
  {
  }

  lemma OtherKeepsRefused(rows: Rows<Doc>, c: Doc, other: Doc, at: int)
    requires !Owns(rows, c) && other.Key() != c.Key()
    ensures !Owns(AfterDoc(rows, other, at), c)
  {
    if c.Key() in rows {
      assert AfterDoc(rows, other, at)[c.Key()] == rows[c.Key()];
    }
  }

  lemma OwnOutcome(rows: Rows<Doc>, c: Doc, at: int)
    ensures var rows' := AfterDoc(rows, c, at);
            if DocOutcome(rows, c).Skipped? then rows' == rows && (KeyedDocs(rows) ==> !Owns(rows, c)) else Stored(rows', c)
  {
    if !DocOutcome(rows, c).Skipped? {
      assert c.Key() in AfterDoc(rows, c, at);
    }
  }

  lemma LastDocIsNew(cs: seq<Doc>)
    requires cs != [] && DistinctDocs(cs)
    ensures var front, last := cs[..|cs| - 1], cs[|cs| - 1];
            && DistinctDocs(front) && (forall c :: c in front ==> c.id != last.id)
            && forall c :: c in cs <==> c in front || c == last
  {
    var front, last := cs[..|cs| - 1], cs[|cs| - 1];
    assert cs == front + [last];
    forall c | c in front ensures c.id != last.id {
      var i :| 0 <= i < |front| && front[i] == c;
      assert cs[i].id != cs[|front|].id;
    }
  }

  /** After an import of distinct documents the accepted ones, and only they, are stored as their own. */
  ghost predicate DocLeft(rows: Rows<Doc>, accepted: set<string>, c: Doc) {
    if c.id in accepted then Stored(rows, c) else !Owns(rows, c)
  }

  ghost predicate AllDocsLeft(rows: Rows<Doc>, accepted: set<string>, cs: seq<Doc>) {
    forall c {:trigger DocLeft(rows, accepted, c)} :: c in cs ==> DocLeft(rows, accepted, c)
  }

  lemma {:induction false} AcceptedDocsAreCandidates(rows: Rows<Doc>, cs: seq<Doc>, at: int)
    ensures forall id :: id in AcceptedDocs(rows, cs, at) ==> exists c :: c in cs && c.id == id
  {
    if cs != [] {
      var front, last := cs[..|cs| - 1], cs[|cs| - 1];
      AcceptedDocsAreCandidates(rows, front, at);
      InFrontOrLast(cs);
      forall id | id in AcceptedDocs(rows, cs, at) ensures exists c :: c in cs && c.id == id {
        if id in AcceptedDocs(rows, front, at) {
          var c :| c in front && c.id == id;
          assert c in cs;
        } else {
          assert last in cs && last.id == id;
        }
      }
    }
  }

  lemma {:induction false} DocsLeft(rows: Rows<Doc>, cs: seq<Doc>, at: int)
    requires KeyedDocs(rows) && DistinctDocs(cs)
    ensures KeyedDocs(AfterDocs(rows, cs, at))
    ensures AllDocsLeft(AfterDocs(rows, cs, at), AcceptedDocs(rows, cs, at), cs)
  {
    DocsGrow(rows, cs, at);
    if cs != [] {
      var front, last := cs[..|cs| - 1], cs[|cs| - 1];
      LastDocIsNew(cs);
      DocsLeft(rows, front, at);
      AcceptedDocsAreCandidates(rows, front, at);
      var rows1, rows' := AfterDocs(rows, front, at), AfterDocs(rows, cs, at);
      var accepted1, accepted' := AcceptedDocs(rows, front, at), AcceptedDocs(rows, cs, at);
      OwnOutcome(rows1, last, at);
      forall c | c in cs ensures DocLeft(rows', accepted', c) {
        if c in front {
          assert DocLeft(rows1, accepted1, c);
          if c.id in accepted1 {
            OtherKeepsStored(rows1, c, last, at);
          } else {
            OtherKeepsRefused(rows1, c, last, at);
          }
        }
      }
    }
  }

  // ---- the same for lines

  /** The line is stored word for word under an accepted document. */
  predicate Held(rows: Rows<Line>, parents: set<string>, c: Line) {
    c.document in parents && c.Key() in rows && rows[c.Key()].value == c
  }

  /** A refused line: without its document, under another one, or not stored at all. */
  predicate Turned(rows: Rows<Line>, parents: set<string>, c: Line) {
    c.document in parents && c.Key() in rows ==> rows[c.Key()].value.document != c.document
  }

  ghost predicate LineLeft(rows: Rows<Line>, parents: set<string>, accepted: set<string>, c: Line) {
    if c.id in accepted then Held(rows, parents, c) else Turned(rows, parents, c)
  }

  ghost predicate AllLinesLeft(rows: Rows<Line>, parents: set<string>, accepted: set<string>, cs: seq<Line>) {
    forall c {:trigger LineLeft(rows, parents, accepted, c)} :: c in cs ==> LineLeft(rows, parents, accepted, c)
  }

  lemma LastLineIsNew(cs: seq<Line>)
    requires cs != [] && DistinctLines(cs)
    ensures var front, last := cs[..|cs| - 1], cs[|cs| - 1];
            && DistinctLines(front) && (forall c :: c in front ==> c.id != last.id)
            && forall c :: c in cs <==> c in front || c == last
  {
    var front, last := cs[..|cs| - 1], cs[|cs| - 1];
    assert cs == front + [last];
    forall c | c in front ensures c.id != last.id {
      var i :| 0 <= i < |front| && front[i] == c;
      assert cs[i].id != cs[|front|].id;
    }
  }

  lemma {:induction false} AcceptedLinesAreCandidates(rows: Rows<Line>, parents: set<string>, cs: seq<Line>)
    requires AfterLines(rows, parents, cs).Some?
    ensures forall id :: id in AcceptedLines(rows, parents, cs) ==> exists c :: c in cs && c.id == id
  {
    if cs != [] {
      var front, last := cs[..|cs| - 1], cs[|cs| - 1];
      AcceptedLinesAreCandidates(rows, parents, front);
      InFrontOrLast(cs);
      forall id | id in AcceptedLines(rows, parents, cs) ensures exists c :: c in cs && c.id == id {
        if id in AcceptedLines(rows, parents, front) {
          var c :| c in front && c.id == id;
          assert c in cs;
        } else {
          assert last in cs && last.id == id;
        }
      }
    }
  }

  lemma LineStep(rows: Rows<Line>, parents: set<string>, c: Line, other: Line)
    requires AfterLine(rows, parents, other).Some? && other.Key() != c.Key()
    ensures var rows' := AfterLine(rows, parents, other).value;
            (Held(rows', parents, c) <==> Held(rows, parents, c)) && (Turned(rows', parents, c) <==> Turned(rows, parents, c))
  {
    var rows' := AfterLine(rows, parents, other).value;
    assert c.Key() in rows' <==> c.Key() in rows;
  }

  lemma OwnLineOutcome(rows: Rows<Line>, parents: set<string>, c: Line)
    requires AfterLine(rows, parents, c).Some?
    ensures var rows' := AfterLine(rows, parents, c).value;
            if LineOutcome(rows, parents, c).value.Skipped? then Turned(rows', parents, c) else Held(rows', parents, c)
  {
  }

  lemma {:induction false} LinesLeft(rows: Rows<Line>, parents: set<string>, cs: seq<Line>)
    requires DistinctLines(cs) && AfterLines(rows, parents, cs).Some?
    ensures AllLinesLeft(AfterLines(rows, parents, cs).value, parents, AcceptedLines(rows, parents, cs), cs)
  {
    if cs != [] {
      var front, last := cs[..|cs| - 1], cs[|cs| - 1];
      LastLineIsNew(cs);
      LinesLeft(rows, parents, front);
      AcceptedLinesAreCandidates(rows, parents, front);
      var rows1, rows' := AfterLines(rows, parents, front).value, AfterLines(rows, parents, cs).value;
      var accepted1, accepted' := AcceptedLines(rows, parents, front), AcceptedLines(rows, parents, cs);
      OwnLineOutcome(rows1, parents, last);
      forall c | c in cs ensures LineLeft(rows', parents, accepted', c) {
        if c in front {
          assert LineLeft(rows1, parents, accepted1, c);
          LineStep(rows1, parents, c, last);
        }
      }
    }
  }
}
