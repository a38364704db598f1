/** The purchase-order lifecycle, projected after the documents of a snapshot are stored. */
module OdooLifecycle {
  // Lines of confirmed orders are filled up to the ordered quantity, receipt lines are followed by
  // corrections, and each order's status is derived from its lines.

  import opened Basics
  import opened QuantityLedger

  const CONFIRMED := "confirmed"
  const PARTLY := "partially_received"
  const RECEIVED := "received"

  datatype Po = Po(id: string, status: string, confirmedAt: Option<int>, orderedAt: int, updatedAt: int)

  datatype PoLine = PoLine(id: string, po: string, ordered: real)

  datatype Receipt = Receipt(id: string, po: string, receivedAt: int, updatedAt: int)

  datatype ReceiptLine = ReceiptLine(id: string, receipt: string, poLine: string, quantity: real)

  /** The accepted candidates of one import; the receipts in the order of their time and id. */
  datatype Accepted = Accepted(pos: seq<Po>, poLines: seq<PoLine>, receipts: seq<Receipt>, receiptLines: seq<ReceiptLine>, syncedAt: int)

  ghost predicate WellNamed(a: Accepted) {
    && (forall i, j :: 0 <= i < j < |a.poLines| ==> a.poLines[i].id != a.poLines[j].id)
    && (forall i, j :: 0 <= i < j < |a.receiptLines| ==> a.receiptLines[i].id != a.receiptLines[j].id)
    && (forall i, j :: 0 <= i < j < |a.pos| ==> a.pos[i].id != a.pos[j].id)
    && (forall i, j :: 0 <= i < j < |a.receipts| ==> a.receipts[i].id != a.receipts[j].id)
  }

  // ---- looking things up

  function PoOf(pos: seq<Po>, id: string): Option<Po> {
    if pos == [] then None
    else if pos[|pos| - 1].id == id then Some(pos[|pos| - 1]) else PoOf(pos[..|pos| - 1], id)
  }

  function LineOf(lines: seq<PoLine>, id: string): Option<PoLine> {
    if lines == [] then None
    else if lines[|lines| - 1].id == id then Some(lines[|lines| - 1]) else LineOf(lines[..|lines| - 1], id)
  }

  function ReceiptOf(receipts: seq<Receipt>, id: string): Option<Receipt> {
    if receipts == [] then None
    else if receipts[0].id == id then Some(receipts[0]) else ReceiptOf(receipts[1..], id)
  }

  function LinesOf(lines: seq<PoLine>, po: string): seq<PoLine> {
    if lines == [] then []
    else
      var front, last := LinesOf(lines[..|lines| - 1], po), lines[|lines| - 1];
      if last.po == po then front + [last] else front
  }

  // ---- the two posting loops

  /** A line to fill up, with the order it belongs to. */
  datatype Job = Job(po: Po, line: PoLine)

  function JobsOf(po: Po, lines: seq<PoLine>): seq<Job> {
    seq(|lines|, i requires 0 <= i < |lines| => Job(po, lines[i]))
  }

  /** The confirmed orders' lines, order by order. */
  function Jobs(pos: seq<Po>, lines: seq<PoLine>): seq<Job> {
    if pos == [] then []
    else
      var po := pos[|pos| - 1];
      Jobs(pos[..|pos| - 1], lines) + (if po.status == CONFIRMED then JobsOf(po, LinesOf(lines, po.id)) else [])
  }

  function ConfirmAll(l: Ledger, jobs: seq<Job>): Option<Ledger> {
    if jobs == [] then Some(l)
    else
      var front, job := ConfirmAll(l, jobs[..|jobs| - 1]), jobs[|jobs| - 1];
      if front.None? then None else FillOne(front.value, job)
  }

  function FollowOne(l: Ledger, a: Accepted, r: ReceiptLine): Option<Ledger> {
    var line, receipt := LineOf(a.poLines, r.poLine), ReceiptOf(a.receipts, r.receipt);
    if line.None? || receipt.None? then Some(l)
    else FollowReceipt(l, line.value.ordered, line.value.id, r.id, r.quantity, receipt.value.updatedAt)
  }

  function FollowAll(l: Ledger, a: Accepted, lines: seq<ReceiptLine>): Option<Ledger> {
    if lines == [] then Some(l)
    else
      var front := FollowAll(l, a, lines[..|lines| - 1]);
      if front.None? then None else FollowOne(front.value, a, lines[|lines| - 1])
  }

  function PostAll(l: Ledger, a: Accepted): Option<Ledger> {
    var confirmed := ConfirmAll(l, Jobs(a.pos, a.poLines));
    if confirmed.None? then None else FollowAll(confirmed.value, a, a.receiptLines)
  }

  method ConfirmLines(l: Ledger, jobs: seq<Job>) returns (result: Option<Ledger>)
    ensures result == ConfirmAll(l, jobs)
  {
    var ledger := l;
    for i := 0 to |jobs|
      invariant ConfirmAll(l, jobs[..i]) == Some(ledger)
    {
      var next := FillOne(ledger, jobs[i]);
      assert jobs[..i + 1][..i] == jobs[..i];
      if next.None? {
        ConfirmFails(l, jobs, i + 1);
        return None;
      }
      ledger := next.value;
    }
    assert jobs[..|jobs|] == jobs;
    return Some(ledger);
  }

  method FollowLines(l: Ledger, a: Accepted, lines: seq<ReceiptLine>) returns (result: Option<Ledger>)
    ensures result == FollowAll(l, a, lines)
  {
    var ledger := l;
    for i := 0 to |lines|
      invariant FollowAll(l, a, lines[..i]) == Some(ledger)
    {
      var next := FollowOne(ledger, a, lines[i]);
      assert lines[..i + 1][..i] == lines[..i];
      if next.None? {
        FollowFails(l, a, lines, i + 1);
        return None;
      }
      ledger := next.value;
    }
    assert lines[..|lines|] == lines;
    return Some(ledger);
  }

  method Post(l: Ledger, a: Accepted) returns (result: Option<Ledger>)
    ensures result == PostAll(l, a)
  {
    result := ConfirmLines(l, Jobs(a.pos, a.poLines));
    if result.Some? {
      result := FollowLines(result.value, a, a.receiptLines);
    }
  }

  lemma {:induction false} ConfirmFails(l: Ledger, jobs: seq<Job>, i: nat)
    requires i <= |jobs| && ConfirmAll(l, jobs[..i]).None?
    ensures ConfirmAll(l, jobs).None?
    decreases |jobs|
  {
    if i < |jobs| {
      assert jobs[..|jobs| - 1][..i] == jobs[..i];
      ConfirmFails(l, jobs[..|jobs| - 1], i);
    } else {
      assert jobs[..i] == jobs;
    }
  }

  lemma {:induction false} FollowFails(l: Ledger, a: Accepted, lines: seq<ReceiptLine>, i: nat)
    requires i <= |lines| && FollowAll(l, a, lines[..i]).None?
    ensures FollowAll(l, a, lines).None?
    decreases |lines|
  {
    if i < |lines| {
      assert lines[..|lines| - 1][..i] == lines[..i];
      FollowFails(l, a, lines[..|lines| - 1], i);
    } else {
      assert lines[..i] == lines;
    }
  }

  // ---- receipts converge

  /** The receipt line is linked to an accepted order line and receipt, as the loop requires. */
  predicate Linked(a: Accepted, r: ReceiptLine) {
    LineOf(a.poLines, r.poLine).Some? && ReceiptOf(a.receipts, r.receipt).Some?
  }

  function Missing(l: Ledger, r: ReceiptLine): real {
    r.quantity - EntitySum(l.events, r.id, Received)
  }

  function Correction(l: Ledger, a: Accepted, r: ReceiptLine): EventId
    requires Linked(a, r)
  {
    var at := ReceiptOf(a.receipts, r.receipt).value.updatedAt;
    Odoo(r.id, Received, Missing(l, r), at, at)
  }

  /** Nothing to correct, or a correction that the same receipt revision has not brought before. */
  predicate FreshReceipt(l: Ledger, a: Accepted, r: ReceiptLine)
    requires Linked(a, r)
  {
    Missing(l, r) == 0.0 || Correction(l, a, r) !in Names(l.events)
  }

  /** Between two ledgers only receipts of the entities in `ids` were posted. */
  ghost predicate OnlyReceived(l: Ledger, l': Ledger, ids: set<string>) {
    && (forall entity {:trigger EntitySum(l'.events, entity, Received)} :: entity !in ids ==> EntitySum(l'.events, entity, Received) == EntitySum(l.events, entity, Received))
    && (forall line, d {:trigger Sum(l'.events, line, d)} :: d != Received ==> Sum(l'.events, line, d) == Sum(l.events, line, d))
    && Names(l.events) <= Names(l'.events)
    && (forall n :: n in Names(l'.events) ==> n in Names(l.events) || (n.Odoo? && n.dimension == Received && n.entity in ids))
  }

  lemma FollowNames(l: Ledger, a: Accepted, r: ReceiptLine)
    requires LedgerInv(l) && FollowOne(l, a, r).Some?
    ensures Names(FollowOne(l, a, r).value.events)
         == Names(l.events) + (if Linked(a, r) && Missing(l, r) != 0.0 then {Correction(l, a, r)} else {})
  {
    if Linked(a, r) && Missing(l, r) != 0.0 {
      var line, at := LineOf(a.poLines, r.poLine).value, ReceiptOf(a.receipts, r.receipt).value.updatedAt;
      PersistNames(l, line.ordered, OdooEvent(r.id, line.id, Received, Missing(l, r), at, at));
    }
  }

  lemma FollowOneIs(l: Ledger, a: Accepted, r: ReceiptLine)
    requires Linked(a, r)
    ensures var line, at := LineOf(a.poLines, r.poLine).value, ReceiptOf(a.receipts, r.receipt).value.updatedAt;
            FollowOne(l, a, r) == FollowReceipt(l, line.ordered, line.id, r.id, r.quantity, at)
  {
  }

  lemma FollowSettlesIt(l: Ledger, a: Accepted, r: ReceiptLine)
    requires LedgerInv(l) && Linked(a, r) && FollowOne(l, a, r).Some?
    ensures var l' := FollowOne(l, a, r).value;
            LedgerInv(l') && (EntitySum(l'.events, r.id, Received) == r.quantity <==> FreshReceipt(l, a, r))
  {
    var line, at := LineOf(a.poLines, r.poLine).value, ReceiptOf(a.receipts, r.receipt).value.updatedAt;
    FollowOneIs(l, a, r);
    ReceiptFollowed(l, line.ordered, line.id, r.id, r.quantity, at);
  }

  /** The sums that posting one correction leaves alone. */
  lemma FollowSums(l: Ledger, a: Accepted, r: ReceiptLine)
    requires LedgerInv(l) && Linked(a, r) && FollowOne(l, a, r).Some?
    ensures var l' := FollowOne(l, a, r).value;
            && (forall entity :: entity != r.id ==> EntitySum(l'.events, entity, Received) == EntitySum(l.events, entity, Received))
            && (forall line, d :: d != Received ==> Sum(l'.events, line, d) == Sum(l.events, line, d))
  {
    var line, at := LineOf(a.poLines, r.poLine).value, ReceiptOf(a.receipts, r.receipt).value.updatedAt;
    FollowOneIs(l, a, r);
    ReceiptFollowed(l, line.ordered, line.id, r.id, r.quantity, at);
  }

  lemma FollowOneFrame(l: Ledger, a: Accepted, r: ReceiptLine)
    requires LedgerInv(l) && FollowOne(l, a, r).Some?
    ensures var l' := FollowOne(l, a, r).value;
            && LedgerInv(l') && OnlyReceived(l, l', {r.id})
            && (Linked(a, r) ==> (EntitySum(l'.events, r.id, Received) == r.quantity <==> FreshReceipt(l, a, r)))
  {
    if Linked(a, r) {
      FollowSettlesIt(l, a, r);
      FollowSums(l, a, r);
      FollowNames(l, a, r);
    } else {
      assert FollowOne(l, a, r).value == l;
    }
  }

  function ReceiptIds(lines: seq<ReceiptLine>): set<string> {
    set r | r in lines :: r.id
  }

  lemma OnlyReceivedChains(l: Ledger, l1: Ledger, l2: Ledger, ids: set<string>, id: string)
    requires OnlyReceived(l, l1, ids) && OnlyReceived(l1, l2, {id})
    ensures OnlyReceived(l, l2, ids + {id})
  {
  }

  /** A correction is fresh before and after postings for other receipt lines alike. */
  lemma FreshUnchanged(l: Ledger, l1: Ledger, a: Accepted, r: ReceiptLine, ids: set<string>)
    requires Linked(a, r) && OnlyReceived(l, l1, ids) && r.id !in ids
    ensures FreshReceipt(l1, a, r) <==> FreshReceipt(l, a, r)
  {
    assert EntitySum(l1.events, r.id, Received) == EntitySum(l.events, r.id, Received);
  }

  ghost predicate DistinctReceiptLines(lines: seq<ReceiptLine>) {
    forall i, j :: 0 <= i < j < |lines| ==> lines[i].id != lines[j].id
  }

  lemma LastReceiptIsNew(lines: seq<ReceiptLine>)
    requires lines != [] && DistinctReceiptLines(lines)
    ensures var front, last := lines[..|lines| - 1], lines[|lines| - 1];
      && DistinctReceiptLines(front) && last.id !in ReceiptIds(front)
      && ReceiptIds(lines) == ReceiptIds(front) + {last.id}
      && forall r :: r in lines ==> r == last || (r in front && r.id != last.id)
  {
    var front, last := lines[..|lines| - 1], lines[|lines| - 1];
    assert lines == front + [last];
    forall r | r in front ensures r.id != last.id {
      var i :| 0 <= i < |front| && front[i] == r;
      assert lines[i].id != lines[|front|].id;
    }
  }

  /** Its postings add up to its quantity exactly if the correction was fresh. */
  ghost predicate Followed(l: Ledger, l': Ledger, a: Accepted, r: ReceiptLine) {
    Linked(a, r) ==> (EntitySum(l'.events, r.id, Received) == r.quantity <==> FreshReceipt(l, a, r))
  }

  /** The ledger when the turn of the receipt line at `i` came. */
  function LedgerAt(l: Ledger, a: Accepted, lines: seq<ReceiptLine>, i: nat): Ledger
    requires i <= |lines|
  {
    FollowAll(l, a, lines[..i]).GetOr(l)
  }

  /** No later line posts under the same id. */
  ghost predicate LastPosting(a: Accepted, lines: seq<ReceiptLine>, i: nat)
    requires i < |lines|
  {
    forall j :: i < j < |lines| && Linked(a, lines[j]) ==> lines[j].id != lines[i].id
  }

  ghost predicate FollowedAt(l: Ledger, l': Ledger, a: Accepted, lines: seq<ReceiptLine>, i: nat)
    requires i < |lines|
  {
    Linked(a, lines[i]) ==>
      (EntitySum(l'.events, lines[i].id, Received) == lines[i].quantity <==> FreshReceipt(LedgerAt(l, a, lines, i), a, lines[i]))
  }

  /** The loop posts for its lines and for nothing else. */
  lemma {:induction false} FollowAllKeeps(l: Ledger, a: Accepted, lines: seq<ReceiptLine>)
    requires LedgerInv(l) && FollowAll(l, a, lines).Some?
    ensures var l' := FollowAll(l, a, lines).value; LedgerInv(l') && OnlyReceived(l, l', ReceiptIds(lines))
  {
    if lines != [] {
      var front, last := lines[..|lines| - 1], lines[|lines| - 1];
      FollowAllKeeps(l, a, front);
      var l1 := FollowAll(l, a, front).value;
      FollowOneFrame(l1, a, last);
      OnlyReceivedChains(l, l1, FollowAll(l, a, lines).value, ReceiptIds(front), last.id);
      InFrontOrLast(lines);
      assert ReceiptIds(lines) == ReceiptIds(front) + {last.id};
    }
  }

  lemma FollowedStays(l: Ledger, a: Accepted, lines: seq<ReceiptLine>, i: nat)
    requires LedgerInv(l) && FollowAll(l, a, lines).Some? && i < |lines| - 1 && LastPosting(a, lines, i)
    requires var front := lines[..|lines| - 1]; FollowedAt(l, FollowAll(l, a, front).value, a, front, i)
    ensures FollowedAt(l, FollowAll(l, a, lines).value, a, lines, i)
  {
    var front, last := lines[..|lines| - 1], lines[|lines| - 1];
    assert front[..i] == lines[..i];
    FollowAllKeeps(l, a, front);
    var l1 := FollowAll(l, a, front).value;
    if Linked(a, last) {
      FollowSums(l1, a, last);
    } else {
      assert FollowOne(l1, a, last) == Some(l1);
    }
  }

  lemma LastFollowedAt(l: Ledger, a: Accepted, lines: seq<ReceiptLine>)
    requires LedgerInv(l) && FollowAll(l, a, lines).Some? && lines != []
    ensures FollowedAt(l, FollowAll(l, a, lines).value, a, lines, |lines| - 1)
  {
    FollowAllKeeps(l, a, lines[..|lines| - 1]);
    if Linked(a, lines[|lines| - 1]) {
      FollowSettlesIt(LedgerAt(l, a, lines, |lines| - 1), a, lines[|lines| - 1]);
    }
  }

  /**
   After the loop the postings of a receipt line add up to its quantity, exactly if its correction was
   fresh when its turn came. Where an id repeats this is said of the last line that posts under it.
   */
  lemma {:induction false} FollowAllConverges(l: Ledger, a: Accepted, lines: seq<ReceiptLine>)
    requires LedgerInv(l) && FollowAll(l, a, lines).Some?
    ensures var l' := FollowAll(l, a, lines).value;
            forall i {:trigger FollowedAt(l, l', a, lines, i)} :: 0 <= i < |lines| && LastPosting(a, lines, i) ==> FollowedAt(l, l', a, lines, i)
  {
    if lines != [] {
      var front := lines[..|lines| - 1];
      FollowAllConverges(l, a, front);
      LastFollowedAt(l, a, lines);
      var l1, l' := FollowAll(l, a, front).value, FollowAll(l, a, lines).value;
      forall i | 0 <= i < |lines| && LastPosting(a, lines, i) ensures FollowedAt(l, l', a, lines, i) {
        if i < |front| {
          assert LastPosting(a, front, i) by {
            assert forall j :: i < j < |front| ==> front[j] == lines[j];
          }
          assert FollowedAt(l, l1, a, front, i);
          FollowedStays(l, a, lines, i);
        }
      }
    }
  }

  lemma DistinctReceipt(lines: seq<ReceiptLine>, i: nat)
    requires DistinctReceiptLines(lines) && i < |lines|
    ensures lines[i].id !in ReceiptIds(lines[..i])
  {
  }

  /** Where ids do not repeat, the ledger before the loop decides. */
  lemma DistinctFollowed(l: Ledger, a: Accepted, lines: seq<ReceiptLine>, r: ReceiptLine)
    requires LedgerInv(l) && FollowAll(l, a, lines).Some? && DistinctReceiptLines(lines) && r in lines
    ensures Followed(l, FollowAll(l, a, lines).value, a, r)
  {
    var i :| 0 <= i < |lines| && lines[i] == r;
    FollowAllConverges(l, a, lines);
    assert FollowedAt(l, FollowAll(l, a, lines).value, a, lines, i);
    if FollowAll(l, a, lines[..i]).None? {
      FollowFails(l, a, lines, i);
    }
    FollowAllKeeps(l, a, lines[..i]);
    DistinctReceipt(lines, i);
    if Linked(a, r) {
      FreshUnchanged(l, LedgerAt(l, a, lines, i), a, r, ReceiptIds(lines[..i]));
    }
  }

  // ---- confirmations converge

  function FilledUp(before: real, ordered: real): real {
    if before < ordered then ordered else before
  }

  predicate FreshConfirmation(l: Ledger, job: Job) {
    var before := Sum(l.events, job.line.id, Confirmed);
    job.line.ordered <= before
    || Odoo(job.line.id, Confirmed, job.line.ordered - before, job.po.orderedAt, job.po.updatedAt) !in Names(l.events)
  }

  /** Between two ledgers only confirmations of the lines in `ids` were posted. */
  ghost predicate OnlyConfirmed(l: Ledger, l': Ledger, ids: set<string>) {
    && (forall line, d {:trigger Sum(l'.events, line, d)} :: line !in ids || d != Confirmed ==> Sum(l'.events, line, d) == Sum(l.events, line, d))
    && (forall entity {:trigger EntitySum(l'.events, entity, Received)} :: EntitySum(l'.events, entity, Received) == EntitySum(l.events, entity, Received))
    && Names(l.events) <= Names(l'.events)
    && (forall n :: n in Names(l'.events) ==> n in Names(l.events) || (n.Odoo? && n.dimension == Confirmed && n.entity in ids))
  }

  function FillOne(l: Ledger, job: Job): Option<Ledger> {
    FillConfirmation(l, job.line.ordered, job.line.id, job.po.orderedAt, job.po.updatedAt)
  }

  function FillUp(l: Ledger, job: Job): Event {
    OdooEvent(job.line.id, job.line.id, Confirmed, job.line.ordered - Sum(l.events, job.line.id, Confirmed), job.po.orderedAt, job.po.updatedAt)
  }

  lemma FillNames(l: Ledger, job: Job)
    requires LedgerInv(l) && FillOne(l, job).Some?
    ensures Names(FillOne(l, job).value.events)
         == Names(l.events) + (if Sum(l.events, job.line.id, Confirmed) < job.line.ordered then {FillUp(l, job).id} else {})
  {
    assert Agrees(l, job.line.id);
    assert Total(Load(l, job.line.id, job.line.ordered).value, Confirmed) == Sum(l.events, job.line.id, Confirmed);
    if Sum(l.events, job.line.id, Confirmed) < job.line.ordered {
      PersistNames(l, job.line.ordered, FillUp(l, job));
    }
  }

  lemma FillFrame(l: Ledger, job: Job)
    requires LedgerInv(l) && FillOne(l, job).Some?
    ensures var l' := FillOne(l, job).value;
            && LedgerInv(l') && OnlyConfirmed(l, l', {job.line.id})
            && (Sum(l'.events, job.line.id, Confirmed) == FilledUp(Sum(l.events, job.line.id, Confirmed), job.line.ordered)
                <==> FreshConfirmation(l, job))
  {
    ConfirmationFilled(l, job.line.ordered, job.line.id, job.po.orderedAt, job.po.updatedAt);
    FillNames(l, job);
  }

  function JobLines(jobs: seq<Job>): set<string> {
    set job | job in jobs :: job.line.id
  }

  lemma OnlyConfirmedChains(l: Ledger, l1: Ledger, l2: Ledger, ids: set<string>, id: string)
    requires OnlyConfirmed(l, l1, ids) && OnlyConfirmed(l1, l2, {id})
    ensures OnlyConfirmed(l, l2, ids + {id})
  {
  }

  lemma FreshConfirmationUnchanged(l: Ledger, l1: Ledger, job: Job, ids: set<string>)
    requires OnlyConfirmed(l, l1, ids) && job.line.id !in ids
    ensures FreshConfirmation(l1, job) <==> FreshConfirmation(l, job)
    ensures Sum(l1.events, job.line.id, Confirmed) == Sum(l.events, job.line.id, Confirmed)
  {
    assert Sum(l1.events, job.line.id, Confirmed) == Sum(l.events, job.line.id, Confirmed);
  }

  ghost predicate DistinctJobs(jobs: seq<Job>) {
    forall i, j :: 0 <= i < j < |jobs| ==> jobs[i].line.id != jobs[j].line.id
  }

  /** The line is confirmed in full, without counting an earlier confirmation twice, exactly if the fill-up was fresh. */
  ghost predicate Filled(l: Ledger, l': Ledger, job: Job) {
    Sum(l'.events, job.line.id, Confirmed) == FilledUp(Sum(l.events, job.line.id, Confirmed), job.line.ordered)
    <==> FreshConfirmation(l, job)
  }

  function LedgerFor(l: Ledger, jobs: seq<Job>, i: nat): Ledger
    requires i <= |jobs|
  {
    ConfirmAll(l, jobs[..i]).GetOr(l)
  }

  ghost predicate LastJob(jobs: seq<Job>, i: nat)
    requires i < |jobs|
  {
    forall j :: i < j < |jobs| ==> jobs[j].line.id != jobs[i].line.id
  }

  ghost predicate FilledAt(l: Ledger, l': Ledger, jobs: seq<Job>, i: nat)
    requires i < |jobs|
  {
    var job, before := jobs[i], LedgerFor(l, jobs, i);
    Sum(l'.events, job.line.id, Confirmed) == FilledUp(Sum(before.events, job.line.id, Confirmed), job.line.ordered)
    <==> FreshConfirmation(before, job)
  }

  lemma {:induction false} ConfirmAllKeeps(l: Ledger, jobs: seq<Job>)
    requires LedgerInv(l) && ConfirmAll(l, jobs).Some?
    ensures var l' := ConfirmAll(l, jobs).value; LedgerInv(l') && OnlyConfirmed(l, l', JobLines(jobs))
  {
    if jobs != [] {
      var front, last := jobs[..|jobs| - 1], jobs[|jobs| - 1];
      ConfirmAllKeeps(l, front);
      var l1 := ConfirmAll(l, front).value;
      FillFrame(l1, last);
      OnlyConfirmedChains(l, l1, ConfirmAll(l, jobs).value, JobLines(front), last.line.id);
      InFrontOrLast(jobs);
      assert JobLines(jobs) == JobLines(front) + {last.line.id};
    }
  }

  lemma FilledStays(l: Ledger, jobs: seq<Job>, i: nat)
    requires LedgerInv(l) && ConfirmAll(l, jobs).Some? && i < |jobs| - 1 && LastJob(jobs, i)
    requires var front := jobs[..|jobs| - 1]; FilledAt(l, ConfirmAll(l, front).value, front, i)
    ensures FilledAt(l, ConfirmAll(l, jobs).value, jobs, i)
  {
    var front, last := jobs[..|jobs| - 1], jobs[|jobs| - 1];
    assert front[..i] == jobs[..i];
    ConfirmAllKeeps(l, front);
    var l1, l' := ConfirmAll(l, front).value, ConfirmAll(l, jobs).value;
    FillFrame(l1, last);
    assert Sum(l'.events, jobs[i].line.id, Confirmed) == Sum(l1.events, jobs[i].line.id, Confirmed);
  }

  lemma LastFilledAt(l: Ledger, jobs: seq<Job>)
    requires LedgerInv(l) && ConfirmAll(l, jobs).Some? && jobs != []
    ensures FilledAt(l, ConfirmAll(l, jobs).value, jobs, |jobs| - 1)
  {
    ConfirmAllKeeps(l, jobs[..|jobs| - 1]);
    FillFrame(LedgerFor(l, jobs, |jobs| - 1), jobs[|jobs| - 1]);
  }

  /** The same for confirmed lines; where a line has several jobs this is said of the last one. */
  lemma {:induction false} ConfirmAllConverges(l: Ledger, jobs: seq<Job>)
    requires LedgerInv(l) && ConfirmAll(l, jobs).Some?
    ensures var l' := ConfirmAll(l, jobs).value;
            forall i {:trigger FilledAt(l, l', jobs, i)} :: 0 <= i < |jobs| && LastJob(jobs, i) ==> FilledAt(l, l', jobs, i)
  {
    if jobs != [] {
      var front := jobs[..|jobs| - 1];
      ConfirmAllConverges(l, front);
      LastFilledAt(l, jobs);
      var l1, l' := ConfirmAll(l, front).value, ConfirmAll(l, jobs).value;
      forall i | 0 <= i < |jobs| && LastJob(jobs, i) ensures FilledAt(l, l', jobs, i) {
        if i < |front| {
          assert LastJob(front, i) by {
            assert forall j :: i < j < |front| ==> front[j] == jobs[j];
          }
          assert FilledAt(l, l1, front, i);
          FilledStays(l, jobs, i);
        }
      }
    }
  }

  lemma DistinctJob(jobs: seq<Job>, i: nat)
    requires DistinctJobs(jobs) && i < |jobs|
    ensures jobs[i].line.id !in JobLines(jobs[..i])
  {
  }

  lemma DistinctFilled(l: Ledger, jobs: seq<Job>, job: Job)
    requires LedgerInv(l) && ConfirmAll(l, jobs).Some? && DistinctJobs(jobs) && job in jobs
    ensures Filled(l, ConfirmAll(l, jobs).value, job)
  {
    var i :| 0 <= i < |jobs| && jobs[i] == job;
    ConfirmAllConverges(l, jobs);
    assert FilledAt(l, ConfirmAll(l, jobs).value, jobs, i);
    if ConfirmAll(l, jobs[..i]).None? {
      ConfirmFails(l, jobs, i);
    }
    ConfirmAllKeeps(l, jobs[..i]);
    DistinctJob(jobs, i);
    FreshConfirmationUnchanged(l, LedgerFor(l, jobs, i), job, JobLines(jobs[..i]));
  }

  // ---- both loops

  ghost predicate DistinctLines(lines: seq<PoLine>) {
    forall i, j :: 0 <= i < j < |lines| ==> lines[i].id != lines[j].id
  }

  ghost predicate DistinctPos(pos: seq<Po>) {
    forall i, j :: 0 <= i < j < |pos| ==> pos[i].id != pos[j].id
  }

  lemma {:induction false} LinesOfElements(lines: seq<PoLine>, po: string)
    ensures forall line :: line in LinesOf(lines, po) <==> line in lines && line.po == po
  {
    if lines != [] {
      LinesOfElements(lines[..|lines| - 1], po);
      assert lines == lines[..|lines| - 1] + [lines[|lines| - 1]];
    }
  }

  lemma {:induction false} LinesOfDistinct(lines: seq<PoLine>, po: string)
    requires DistinctLines(lines)
    ensures DistinctLines(LinesOf(lines, po))
  {
    if lines != [] {
      var front, last := lines[..|lines| - 1], lines[|lines| - 1];
      LinesOfDistinct(front, po);
      LinesOfElements(front, po);
      forall k | 0 <= k < |LinesOf(front, po)| ensures LinesOf(front, po)[k].id != last.id {
        assert LinesOf(front, po)[k] in front;
        var i :| 0 <= i < |front| && front[i] == LinesOf(front, po)[k];
        assert lines[i].id != lines[|front|].id;
      }
    }
  }

  lemma {:induction false} JobsElements(pos: seq<Po>, lines: seq<PoLine>)
    ensures forall job :: job in Jobs(pos, lines) ==>
              job.po in pos && job.line in lines && job.line.po == job.po.id && job.po.status == CONFIRMED
    ensures forall po, line :: po in pos && po.status == CONFIRMED && line in lines && line.po == po.id ==> Job(po, line) in Jobs(pos, lines)
  {
    if pos != [] {
      var front, po := pos[..|pos| - 1], pos[|pos| - 1];
      JobsElements(front, lines);
      LinesOfElements(lines, po.id);
      assert pos == front + [po];
      JobsOfElements(po, LinesOf(lines, po.id));
    }
  }

  lemma JobsOfElements(po: Po, lines: seq<PoLine>)
    ensures forall job: Job :: job in JobsOf(po, lines) <==> job.po == po && job.line in lines
  {
    forall job: Job | job.po == po && job.line in lines ensures job in JobsOf(po, lines) {
      var i :| 0 <= i < |lines| && lines[i] == job.line;
      assert JobsOf(po, lines)[i] == job;
    }
  }

  lemma OtherOrderOtherLine(lines: seq<PoLine>, a: PoLine, b: PoLine)
    requires DistinctLines(lines) && a in lines && b in lines && a.po != b.po
    ensures a.id != b.id
  {
    var i :| 0 <= i < |lines| && lines[i] == a;
    var j :| 0 <= j < |lines| && lines[j] == b;
  }

  lemma {:induction false} JobsDistinct(pos: seq<Po>, lines: seq<PoLine>)
    requires DistinctPos(pos) && DistinctLines(lines)
    ensures DistinctJobs(Jobs(pos, lines))
  {
    if pos != [] {
      var front, po := pos[..|pos| - 1], pos[|pos| - 1];
      JobsDistinct(front, lines);
      JobsElements(front, lines);
      LinesOfElements(lines, po.id);
      LinesOfDistinct(lines, po.id);
      var earlier: seq<Job> := Jobs(front, lines);
      var later: seq<Job> := JobsOf(po, LinesOf(lines, po.id));
      forall i, j | 0 <= i < |earlier| && 0 <= j < |later| ensures earlier[i].line.id != later[j].line.id {
        assert earlier[i] in earlier && later[j].line in lines;
        var k :| 0 <= k < |front| && front[k] == earlier[i].po;
        assert pos[k].id != pos[|front|].id;
        OtherOrderOtherLine(lines, earlier[i].line, later[j].line);
      }
      if po.status == CONFIRMED {
        JobsAppendDistinct(earlier, later);
      } else {
        assert earlier + [] == earlier;
      }
    }
  }

  lemma JobsAppendDistinct(a: seq<Job>, b: seq<Job>)
    requires DistinctJobs(a) && DistinctJobs(b)
    requires forall i, j :: 0 <= i < |a| && 0 <= j < |b| ==> a[i].line.id != b[j].line.id
    ensures DistinctJobs(a + b)
  {
  }

  /** The ledger between the two loops. */
  function AfterConfirming(l: Ledger, a: Accepted): Ledger {
    ConfirmAll(l, Jobs(a.pos, a.poLines)).GetOr(l)
  }

  /** Following receipts does not touch confirmations, and filling up does not touch corrections. */
  lemma PostAllKeeps(l: Ledger, a: Accepted)
    requires LedgerInv(l) && PostAll(l, a).Some?
    ensures var l', c := PostAll(l, a).value, AfterConfirming(l, a);
            && LedgerInv(l') && LedgerInv(c)
            && OnlyConfirmed(l, c, JobLines(Jobs(a.pos, a.poLines))) && OnlyReceived(c, l', ReceiptIds(a.receiptLines))
  {
    ConfirmAllKeeps(l, Jobs(a.pos, a.poLines));
    FollowAllKeeps(AfterConfirming(l, a), a, a.receiptLines);
  }

  /** Both loops together, whatever ids repeat. */
  lemma PostAllConverges(l: Ledger, a: Accepted)
    requires LedgerInv(l) && PostAll(l, a).Some?
    ensures var l', c, jobs := PostAll(l, a).value, AfterConfirming(l, a), Jobs(a.pos, a.poLines);
            && (forall i {:trigger FollowedAt(c, l', a, a.receiptLines, i)} ::
                  0 <= i < |a.receiptLines| && LastPosting(a, a.receiptLines, i) ==> FollowedAt(c, l', a, a.receiptLines, i))
            && (forall i {:trigger FilledAt(l, l', jobs, i)} :: 0 <= i < |jobs| && LastJob(jobs, i) ==> FilledAt(l, l', jobs, i))
  {
    var l', c, jobs := PostAll(l, a).value, AfterConfirming(l, a), Jobs(a.pos, a.poLines);
    PostAllKeeps(l, a);
    FollowAllConverges(c, a, a.receiptLines);
    ConfirmAllConverges(l, jobs);
    forall i | 0 <= i < |jobs| && LastJob(jobs, i) ensures FilledAt(l, l', jobs, i) {
      assert FilledAt(l, c, jobs, i);
      assert Sum(l'.events, jobs[i].line.id, Confirmed) == Sum(c.events, jobs[i].line.id, Confirmed);
    }
  }

  /** Where ids do not repeat, the ledger before the import decides. */
  lemma DistinctConverges(l: Ledger, a: Accepted)
    requires LedgerInv(l) && WellNamed(a) && PostAll(l, a).Some?
    ensures var l' := PostAll(l, a).value;
            && LedgerInv(l')
            && (forall r {:trigger Followed(l, l', a, r)} :: r in a.receiptLines ==> Followed(l, l', a, r))
            && (forall job {:trigger Filled(l, l', job)} :: job in Jobs(a.pos, a.poLines) ==> Filled(l, l', job))
  {
    var jobs := Jobs(a.pos, a.poLines);
    var c, l' := AfterConfirming(l, a), PostAll(l, a).value;
    PostAllKeeps(l, a);
    JobsDistinct(a.pos, a.poLines);
    forall r | r in a.receiptLines ensures Followed(l, l', a, r) {
      DistinctFollowed(c, a, a.receiptLines, r);
      CorrectionsUntouched(l, c, a, r, JobLines(jobs));
    }
    forall job | job in jobs ensures Filled(l, l', job) {
      DistinctFilled(l, jobs, job);
      assert Sum(l'.events, job.line.id, Confirmed) == Sum(c.events, job.line.id, Confirmed);
    }
  }

  lemma CorrectionsUntouched(l: Ledger, c: Ledger, a: Accepted, r: ReceiptLine, ids: set<string>)
    requires OnlyConfirmed(l, c, ids)
    ensures Linked(a, r) ==> (FreshReceipt(c, a, r) <==> FreshReceipt(l, a, r))
  {
    assert EntitySum(c.events, r.id, Received) == EntitySum(l.events, r.id, Received);
  }

  // ---- the status of an order

  datatype PoRow = PoRow(version: nat, status: string, updatedAt: int)

  datatype Derived = Keep | Throws | Becomes(status: string)

  predicate Loadable(l: Ledger, lines: seq<PoLine>) {
    forall i :: 0 <= i < |lines| ==> Load(l, lines[i].id, lines[i].ordered).Some?
  }

  predicate AnyReceived(l: Ledger, lines: seq<PoLine>)
    requires Loadable(l, lines)
  {
    exists i :: 0 <= i < |lines| && Total(Load(l, lines[i].id, lines[i].ordered).value, Received) > 0.0
  }

  predicate AllCovered(l: Ledger, lines: seq<PoLine>)
    requires Loadable(l, lines)
  {
    forall i :: 0 <= i < |lines| ==>
      var p := Load(l, lines[i].id, lines[i].ordered).value; Total(p, Received) + Total(p, Cancelled) >= p.ordered
  }

  function DeriveStatus(l: Ledger, po: Po, lines: seq<PoLine>): Derived {
    if lines == [] then Keep
    else if !Loadable(l, lines) then Throws
    else if !AnyReceived(l, lines) && po.status != PARTLY && po.status != RECEIVED then Keep
    else Becomes(if AllCovered(l, lines) then RECEIVED else PARTLY)
  }

  function ReceiptsOf(receipts: seq<Receipt>, po: string): seq<Receipt> {
    if receipts == [] then []
    else
      var front, last := ReceiptsOf(receipts[..|receipts| - 1], po), receipts[|receipts| - 1];
      if last.po == po then front + [last] else front
  }

  /** The revision of the latest receipt of the order, or the time of the import. */
  function StatusTime(a: Accepted, po: string): int {
    var own := ReceiptsOf(a.receipts, po);
    if own == [] then a.syncedAt else own[|own| - 1].updatedAt
  }

  function SetStatus(rows: map<string, PoRow>, id: string, status: string, at: int): map<string, PoRow> {
    if id !in rows || rows[id].status == status then rows
    else rows[id := PoRow(rows[id].version + 1, status, at)]
  }

  function DeriveOne(rows: map<string, PoRow>, l: Ledger, a: Accepted, po: Po): Option<map<string, PoRow>> {
    match DeriveStatus(l, po, LinesOf(a.poLines, po.id))
    case Throws => None
    case Keep => Some(rows)
    case Becomes(status) => Some(SetStatus(rows, po.id, status, StatusTime(a, po.id)))
  }

  function DeriveAll(rows: map<string, PoRow>, l: Ledger, a: Accepted, pos: seq<Po>): Option<map<string, PoRow>> {
    if pos == [] then Some(rows)
    else
      var front := DeriveAll(rows, l, a, pos[..|pos| - 1]);
      if front.None? then None else DeriveOne(front.value, l, a, pos[|pos| - 1])
  }

  method UpdateStatus(rows: map<string, PoRow>, l: Ledger, a: Accepted, po: Po) returns (result: Option<map<string, PoRow>>)
    ensures result == DeriveOne(rows, l, a, po)
  {
    var lines := LinesOf(a.poLines, po.id);
    if lines == [] {
      return Some(rows);
    }
    if !Loadable(l, lines) {
      return None;
    }
    if !AnyReceived(l, lines) && po.status != PARTLY && po.status != RECEIVED {
      return Some(rows);
    }
    var status := if AllCovered(l, lines) then RECEIVED else PARTLY;
    if po.id !in rows || rows[po.id].status == status {
      return Some(rows);
    }
    return Some(rows[po.id := PoRow(rows[po.id].version + 1, status, StatusTime(a, po.id))]);
  }

  method Derive(rows: map<string, PoRow>, l: Ledger, a: Accepted) returns (result: Option<map<string, PoRow>>)
    ensures result == DeriveAll(rows, l, a, a.pos)
  {
    var current, pos := rows, a.pos;
    for i := 0 to |pos|
      invariant DeriveAll(rows, l, a, pos[..i]) == Some(current)
    {
      assert pos[..i + 1][..i] == pos[..i];
      var next := UpdateStatus(current, l, a, pos[i]);
      if next.None? {
        DeriveFails(rows, l, a, pos, i + 1);
        return None;
      }
      current := next.value;
    }
    assert pos[..|pos|] == pos;
    return Some(current);
  }

  lemma {:induction false} DeriveFails(rows: map<string, PoRow>, l: Ledger, a: Accepted, pos: seq<Po>, i: nat)
    requires i <= |pos| && DeriveAll(rows, l, a, pos[..i]).None?
    ensures DeriveAll(rows, l, a, pos).None?
    decreases |pos|
  {
    if i < |pos| {
      assert pos[..|pos| - 1][..i] == pos[..i];
      DeriveFails(rows, l, a, pos[..|pos| - 1], i);
    } else {
      assert pos[..i] == pos;
    }
  }

  /**
   The order's row after the import: its status is derived from its own lines alone, or left as it was, and
   there is a new version exactly for a new status, at the time of its latest receipt or of the import.
   */
  ghost predicate StatusDerived(rows: map<string, PoRow>, rows': map<string, PoRow>, l: Ledger, a: Accepted, po: Po) {
    var derived := DeriveStatus(l, po, LinesOf(a.poLines, po.id));
    && po.id in rows && po.id in rows'
    && !derived.Throws?
    && (derived.Keep? ==> rows'[po.id] == rows[po.id])
    && (derived.Becomes? ==>
          if rows[po.id].status == derived.status then rows'[po.id] == rows[po.id]
          else rows'[po.id] == PoRow(rows[po.id].version + 1, derived.status, StatusTime(a, po.id)))
  }

  ghost predicate Untouched(rows: map<string, PoRow>, rows': map<string, PoRow>, pos: seq<Po>) {
    && rows'.Keys == rows.Keys
    && forall id :: id in rows && (forall po :: po in pos ==> po.id != id) ==> rows'[id] == rows[id]
  }

  lemma DeriveOneEffect(rows: map<string, PoRow>, l: Ledger, a: Accepted, po: Po)
    requires DeriveOne(rows, l, a, po).Some? && po.id in rows
    ensures var rows' := DeriveOne(rows, l, a, po).value;
            && StatusDerived(rows, rows', l, a, po) && rows'.Keys == rows.Keys
            && forall id :: id in rows && id != po.id ==> rows'[id] == rows[id]
  {
  }

  lemma LastPoIsNew(pos: seq<Po>)
    requires pos != [] && DistinctPos(pos)
    ensures var front, last := pos[..|pos| - 1], pos[|pos| - 1];
            && DistinctPos(front)
            && (forall po :: po in front ==> po.id != last.id)
            && forall po :: po in pos <==> po in front || po == last
  {
    var front, last := pos[..|pos| - 1], pos[|pos| - 1];
    assert pos == front + [last];
    forall po | po in front ensures po.id != last.id {
      var k :| 0 <= k < |front| && front[k] == po;
      assert pos[k].id != pos[|front|].id;
    }
  }

  lemma {:induction false} StatusesDerived(rows: map<string, PoRow>, l: Ledger, a: Accepted, pos: seq<Po>)
    requires DeriveAll(rows, l, a, pos).Some? && DistinctPos(pos)
    requires forall po :: po in pos ==> po.id in rows
    ensures var rows' := DeriveAll(rows, l, a, pos).value;
            && Untouched(rows, rows', pos)
            && forall po {:trigger StatusDerived(rows, rows', l, a, po)} :: po in pos ==> StatusDerived(rows, rows', l, a, po)
  {
    if pos != [] {
      var front, last := pos[..|pos| - 1], pos[|pos| - 1];
      LastPoIsNew(pos);
      StatusesDerived(rows, l, a, front);
      var rows1, rows' := DeriveAll(rows, l, a, front).value, DeriveAll(rows, l, a, pos).value;
      DeriveOneEffect(rows1, l, a, last);
      forall po | po in pos ensures StatusDerived(rows, rows', l, a, po) {
        if po in front {
          assert StatusDerived(rows, rows1, l, a, po);
        }
      }
    }
  }

  /** An order with any received quantity ends at the status its lines say, however often it is listed. */
  lemma {:induction false} ReceivedStatuses(rows: map<string, PoRow>, l: Ledger, a: Accepted, pos: seq<Po>)
    requires DeriveAll(rows, l, a, pos).Some?
    ensures var rows' := DeriveAll(rows, l, a, pos).value;
            && rows'.Keys == rows.Keys
            && forall po {:trigger LinesOf(a.poLines, po.id)} :: po in pos && po.id in rows ==>
                 var lines := LinesOf(a.poLines, po.id);
                 && Loadable(l, lines)
                 && (AnyReceived(l, lines) ==> rows'[po.id].status == (if AllCovered(l, lines) then RECEIVED else PARTLY))
  {
    if pos != [] {
      ReceivedStatuses(rows, l, a, pos[..|pos| - 1]);
      InFrontOrLast(pos);
    }
  }

  /** In terms of the ledger: what the two tests on the cached projections amount to. */
  lemma TestsReadTheLedger(l: Ledger, lines: seq<PoLine>)
    requires LedgerInv(l) && Loadable(l, lines)
    ensures AnyReceived(l, lines) <==> exists i :: 0 <= i < |lines| && Sum(l.events, lines[i].id, Received) > 0.0
    ensures AllCovered(l, lines) <==> forall i :: 0 <= i < |lines| ==>
              Sum(l.events, lines[i].id, Received) + Sum(l.events, lines[i].id, Cancelled) >= lines[i].ordered
  {
    forall i | 0 <= i < |lines|
      ensures Total(Load(l, lines[i].id, lines[i].ordered).value, Received) == Sum(l.events, lines[i].id, Received)
      ensures Total(Load(l, lines[i].id, lines[i].ordered).value, Cancelled) == Sum(l.events, lines[i].id, Cancelled)
    {
      assert Agrees(l, lines[i].id);
    }
  }

  /** A successful lifecycle projection: the postings, then the statuses they imply. */
  function Lifecycle(l: Ledger, rows: map<string, PoRow>, a: Accepted): Option<(Ledger, map<string, PoRow>)> {
    var posted := PostAll(l, a);
    if posted.None? then None
    else
      var derived := DeriveAll(rows, posted.value, a, a.pos);
      if derived.None? then None else Some((posted.value, derived.value))
  }

  method Project(l: Ledger, rows: map<string, PoRow>, a: Accepted) returns (result: Option<(Ledger, map<string, PoRow>)>)
    ensures result == Lifecycle(l, rows, a)
  {
    var posted := Post(l, a);
    if posted.None? {
      return None;
    }
    var derived := Derive(rows, posted.value, a);
    if derived.None? {
      return None;
    }
    return Some((posted.value, derived.value));
  }

  ghost predicate AnyLineReceived(l: Ledger, lines: seq<PoLine>) {
    exists i :: 0 <= i < |lines| && Sum(l.events, lines[i].id, Received) > 0.0
  }

  ghost predicate EveryLineCovered(l: Ledger, lines: seq<PoLine>) {
    forall i :: 0 <= i < |lines| ==> Sum(l.events, lines[i].id, Received) + Sum(l.events, lines[i].id, Cancelled) >= lines[i].ordered
  }

  /**
   Convergence of one import, whatever it repeats: the caches are the sums of the ledger; each receipt
   line's postings add up to its quantity and each confirmed line is filled up once, exactly under their
   freshness conditions, where the last row of an id wins; and an order with any received quantity is
   `received` exactly if every line is covered.
   */
  lemma ImportConverges(l: Ledger, rows: map<string, PoRow>, a: Accepted)
    requires LedgerInv(l) && Lifecycle(l, rows, a).Some?
    ensures var (l', rows') := Lifecycle(l, rows, a).value;
            var c, jobs := AfterConfirming(l, a), Jobs(a.pos, a.poLines);
            && LedgerInv(l')
            && (forall i {:trigger FollowedAt(c, l', a, a.receiptLines, i)} ::
                  0 <= i < |a.receiptLines| && LastPosting(a, a.receiptLines, i) ==> FollowedAt(c, l', a, a.receiptLines, i))
            && (forall i {:trigger FilledAt(l, l', jobs, i)} :: 0 <= i < |jobs| && LastJob(jobs, i) ==> FilledAt(l, l', jobs, i))
            && forall po :: po in a.pos && po.id in rows && AnyLineReceived(l', LinesOf(a.poLines, po.id)) ==>
                 po.id in rows' && rows'[po.id].status == (if EveryLineCovered(l', LinesOf(a.poLines, po.id)) then RECEIVED else PARTLY)
  {
    var (l', rows') := Lifecycle(l, rows, a).value;
    PostAllKeeps(l, a);
    PostAllConverges(l, a);
    ReceivedStatuses(rows, l', a, a.pos);
    forall po | po in a.pos && po.id in rows && AnyLineReceived(l', LinesOf(a.poLines, po.id))
      ensures po.id in rows' && rows'[po.id].status == (if EveryLineCovered(l', LinesOf(a.poLines, po.id)) then RECEIVED else PARTLY)
    {
      TestsReadTheLedger(l', LinesOf(a.poLines, po.id));
    }
  }

  // ---- a run of imports and other postings

  datatype Posting = Import(accepted: Accepted) | Record(ordered: real, event: Event)

  /** The supplier-facing parts of the system post through the same two steps. */
  function AfterPosting(l: Ledger, p: Posting): Option<Ledger> {
    match p
    case Import(a) => PostAll(l, a)
    case Record(ordered, event) => Persist(l, ordered, event)
  }

  /** A posting that throws is rolled back. */
  function RunPostings(l: Ledger, ps: seq<Posting>): Ledger {
    if ps == [] then l
    else
      var before := RunPostings(l, ps[..|ps| - 1]);
      AfterPosting(before, ps[|ps| - 1]).GetOr(before)
  }

  /** Over every run the cached projections are the sums of the ledger. */
  lemma {:induction false} LedgerAlwaysAgrees(ps: seq<Posting>)
    ensures LedgerInv(RunPostings(Ledger([], map[]), ps))
  {
    if ps == [] {
      forall line ensures Agrees(Ledger([], map[]), line) {
      }
    } else {
      LedgerAlwaysAgrees(ps[..|ps| - 1]);
      var before, p := RunPostings(Ledger([], map[]), ps[..|ps| - 1]), ps[|ps| - 1];
      if AfterPosting(before, p).Some? {
        match p {
          case Import(a) => PostAllKeeps(before, a);
          case Record(ordered, event) => PersistKeepsLedger(before, ordered, event);
        }
      }
    }
  }
}
