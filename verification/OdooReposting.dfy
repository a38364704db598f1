/**
 Posting the same accepted candidates a second time: which of the two posting loops can still add an
 event, and why the derived statuses stay.
 */
module OdooReposting {
  import opened Basics
  import opened QuantityLedger
  import opened OdooLifecycle

  // ---- a posting loop adds events or changes nothing

  lemma PersistLength(l: Ledger, ordered: real, e: Event)
    requires Persist(l, ordered, e).Some?
    ensures var l' := Persist(l, ordered, e).value; l' == l || |l.events| < |l'.events|
  {
  }

  predicate LongerOrSame(l: Ledger, l': Ledger) { l' == l || |l.events| < |l'.events| }

  predicate QuietJob(l: Ledger, job: Job) { FillOne(l, job) == Some(l) }

  predicate QuietReceipt(l: Ledger, a: Accepted, r: ReceiptLine) { FollowOne(l, a, r) == Some(l) }

  ghost predicate AllJobsQuiet(l: Ledger, jobs: seq<Job>) {
    forall job {:trigger QuietJob(l, job)} :: job in jobs ==> QuietJob(l, job)
  }

  ghost predicate AllReceiptsQuiet(l: Ledger, a: Accepted, lines: seq<ReceiptLine>) {
    forall r {:trigger QuietReceipt(l, a, r)} :: r in lines ==> QuietReceipt(l, a, r)
  }

  lemma FillLength(l: Ledger, job: Job)
    requires FillOne(l, job).Some?
    ensures LongerOrSame(l, FillOne(l, job).value)
  {
    var current := Load(l, job.line.id, job.line.ordered);
    if current.Some? && job.line.ordered - Total(current.value, Confirmed) > 0.0 {
      PersistLength(l, job.line.ordered, OdooEvent(job.line.id, job.line.id, Confirmed,
        job.line.ordered - Total(current.value, Confirmed), job.po.orderedAt, job.po.updatedAt));
    }
  }

  lemma FollowLength(l: Ledger, a: Accepted, r: ReceiptLine)
    requires FollowOne(l, a, r).Some?
    ensures LongerOrSame(l, FollowOne(l, a, r).value)
  {
    if Linked(a, r) && Missing(l, r) != 0.0 {
      var line, at := LineOf(a.poLines, r.poLine).value, ReceiptOf(a.receipts, r.receipt).value.updatedAt;
      PersistLength(l, line.ordered, OdooEvent(r.id, line.id, Received, Missing(l, r), at, at));
    }
  }

  lemma {:induction false} ConfirmQuiet(l: Ledger, jobs: seq<Job>)
    ensures ConfirmAll(l, jobs) == Some(l) <==> AllJobsQuiet(l, jobs)
    ensures ConfirmAll(l, jobs).Some? ==> LongerOrSame(l, ConfirmAll(l, jobs).value)
  {
    if jobs != [] {
      var front, last := jobs[..|jobs| - 1], jobs[|jobs| - 1];
      ConfirmQuiet(l, front);
      InFrontOrLast(jobs);
      assert AllJobsQuiet(l, jobs) <==> AllJobsQuiet(l, front) && QuietJob(l, last);
      var l1 := ConfirmAll(l, front);
      if l1.Some? && FillOne(l1.value, last).Some? {
        FillLength(l1.value, last);
      }
    }
  }

  lemma {:induction false} FollowQuiet(l: Ledger, a: Accepted, lines: seq<ReceiptLine>)
    ensures FollowAll(l, a, lines) == Some(l) <==> AllReceiptsQuiet(l, a, lines)
    ensures FollowAll(l, a, lines).Some? ==> LongerOrSame(l, FollowAll(l, a, lines).value)
  {
    if lines != [] {
      var front, last := lines[..|lines| - 1], lines[|lines| - 1];
      FollowQuiet(l, a, front);
      InFrontOrLast(lines);
      assert AllReceiptsQuiet(l, a, lines) <==> AllReceiptsQuiet(l, a, front) && QuietReceipt(l, a, last);
      var l1 := FollowAll(l, a, front);
      if l1.Some? && FollowOne(l1.value, a, last).Some? {
        FollowLength(l1.value, a, last);
      }
    }
  }

  /** Posting leaves the ledger alone exactly if every single line would. */
  lemma PostQuiet(l: Ledger, a: Accepted)
    ensures PostAll(l, a) == Some(l)
       <==> AllJobsQuiet(l, Jobs(a.pos, a.poLines)) && AllReceiptsQuiet(l, a, a.receiptLines)
  {
    var jobs := Jobs(a.pos, a.poLines);
    ConfirmQuiet(l, jobs);
    var c := ConfirmAll(l, jobs);
    if c.Some? {
      FollowQuiet(c.value, a, a.receiptLines);
      if c.value == l {
        FollowQuiet(l, a, a.receiptLines);
      }
    }
  }

  // ---- receipts: a line that was followed once is quiet for good

  /** The projection that holds an event of its line goes on being loaded, with that event in it. */
  lemma PersistKeepsApplied(l: Ledger, line: string, ordered: real, e: Event, ordered2: real, e2: Event)
    requires line in l.projections && l.projections[line].ordered == ordered && e in l.projections[line].applied
    requires Persist(l, ordered2, e2).Some?
    ensures var l' := Persist(l, ordered2, e2).value;
            line in l'.projections && l'.projections[line].ordered == ordered && e in l'.projections[line].applied
  {
  }

  /** The quiet cases of a receipt line: nothing is missing, or the correction is already applied. */
  predicate Applied(l: Ledger, line: PoLine, e: Event) {
    line.id in l.projections && l.projections[line.id].ordered == line.ordered && e in l.projections[line.id].applied
  }

  function CorrectionEvent(l: Ledger, a: Accepted, r: ReceiptLine): Event
    requires Linked(a, r)
  {
    var line, at := LineOf(a.poLines, r.poLine).value, ReceiptOf(a.receipts, r.receipt).value.updatedAt;
    OdooEvent(r.id, line.id, Received, Missing(l, r), at, at)
  }

  predicate Settled(l: Ledger, a: Accepted, r: ReceiptLine) {
    !Linked(a, r) || Missing(l, r) == 0.0 || Applied(l, LineOf(a.poLines, r.poLine).value, CorrectionEvent(l, a, r))
  }

  lemma DuplicateIsQuiet(l: Ledger, line: PoLine, e: Event)
    requires Applied(l, line, e) && e.line == line.id && e.delta != 0.0
    ensures Persist(l, line.ordered, e) == Some(l)
  {
  }

  lemma SettledIsQuiet(l: Ledger, a: Accepted, r: ReceiptLine)
    requires Settled(l, a, r)
    ensures QuietReceipt(l, a, r)
  {
    if Linked(a, r) && Missing(l, r) != 0.0 {
      DuplicateIsQuiet(l, LineOf(a.poLines, r.poLine).value, CorrectionEvent(l, a, r));
    }
  }

  /** Whatever the posting of a receipt line did, it leaves the line settled. */
  lemma FollowSettles(l: Ledger, a: Accepted, r: ReceiptLine)
    requires LedgerInv(l) && FollowOne(l, a, r).Some?
    ensures Settled(FollowOne(l, a, r).value, a, r)
  {
    if Linked(a, r) && Missing(l, r) != 0.0 {
      var l' := FollowOne(l, a, r).value;
      var line, e := LineOf(a.poLines, r.poLine).value, CorrectionEvent(l, a, r);
      FollowOneFrame(l, a, r);
      PersistEffect(l, line.ordered, e);
      if e.id in Names(l.events) {
        assert Agrees(l, line.id);
        NamesOfLine(l.events, line.id);
        assert e in OfLine(l.events, line.id);
      } else {
        assert FreshReceipt(l, a, r);
      }
    }
  }

  /** Following another receipt line does not unsettle this one. */
  lemma OtherKeepsSettled(l: Ledger, a: Accepted, r: ReceiptLine, other: ReceiptLine)
    requires LedgerInv(l) && Settled(l, a, r) && other.id != r.id && FollowOne(l, a, other).Some?
    ensures Settled(FollowOne(l, a, other).value, a, r)
  {
    var l' := FollowOne(l, a, other).value;
    FollowOneFrame(l, a, other);
    assert Missing(l', r) == Missing(l, r);
    if Linked(a, other) && Missing(l, other) != 0.0 && Linked(a, r) && Missing(l, r) != 0.0 {
      var line, line2 := LineOf(a.poLines, r.poLine).value, LineOf(a.poLines, other.poLine).value;
      PersistKeepsApplied(l, line.id, line.ordered, CorrectionEvent(l, a, r), line2.ordered, CorrectionEvent(l, a, other));
    }
  }

  lemma {:induction false} FollowAllSettles(l: Ledger, a: Accepted, lines: seq<ReceiptLine>)
    requires LedgerInv(l) && FollowAll(l, a, lines).Some? && DistinctReceiptLines(lines)
    ensures forall r {:trigger Settled(FollowAll(l, a, lines).value, a, r)} :: r in lines ==> Settled(FollowAll(l, a, lines).value, a, r)
  {
    if lines != [] {
      var front, last := lines[..|lines| - 1], lines[|lines| - 1];
      LastReceiptIsNew(lines);
      FollowAllSettles(l, a, front);
      FollowAllKeeps(l, a, front);
      var l1, l' := FollowAll(l, a, front).value, FollowAll(l, a, lines).value;
      FollowSettles(l1, a, last);
      forall r | r in lines ensures Settled(l', a, r) {
        if r != last {
          assert Settled(l1, a, r);
          OtherKeepsSettled(l1, a, r, last);
        }
      }
    }
  }

  /** What a line has received changes only by the receipt lines that point at it. */
  lemma {:induction false} FollowLeavesLine(l: Ledger, a: Accepted, lines: seq<ReceiptLine>, id: string)
    requires LedgerInv(l) && FollowAll(l, a, lines).Some? && forall r :: r in lines ==> r.poLine != id
    ensures Sum(FollowAll(l, a, lines).value.events, id, Received) == Sum(l.events, id, Received)
  {
    if lines != [] {
      var front, r := lines[..|lines| - 1], lines[|lines| - 1];
      InFrontOrLast(lines);
      FollowLeavesLine(l, a, front, id);
      FollowAllKeeps(l, a, front);
      var l1 := FollowAll(l, a, front).value;
      if Linked(a, r) {
        LineOfFinds(a.poLines, r.poLine);
        var line, at := LineOf(a.poLines, r.poLine).value, ReceiptOf(a.receipts, r.receipt).value.updatedAt;
        FollowOneIs(l1, a, r);
        ReceiptFollowed(l1, line.ordered, line.id, r.id, r.quantity, at);
      }
    }
  }

  lemma LineOfFinds(lines: seq<PoLine>, id: string)
    ensures LineOf(lines, id).Some? ==> LineOf(lines, id).value.id == id
  {
  }

  // ---- confirmations: only a line that is still short can be filled up again

  predicate Covered(l: Ledger, job: Job) {
    job.line.ordered <= Sum(l.events, job.line.id, Confirmed) || FillUp(l, job) in l.events
  }

  lemma QuietMeansCovered(l: Ledger, job: Job)
    requires LedgerInv(l) && Load(l, job.line.id, job.line.ordered).Some?
    ensures QuietJob(l, job) <==> Covered(l, job)
  {
    var current := Load(l, job.line.id, job.line.ordered).value;
    assert Agrees(l, job.line.id);
    assert Total(current, Confirmed) == Sum(l.events, job.line.id, Confirmed);
    NamesOfLine(l.events, job.line.id);
    if Sum(l.events, job.line.id, Confirmed) < job.line.ordered {
      var e := FillUp(l, job);
      assert FillOne(l, job) == Persist(l, job.line.ordered, e);
      assert e in current.applied <==> e in l.events;
      assert e in current.applied ==> e.id in Names(current.applied);
    }
  }

  // ---- the same candidates at another time

  /** Orders carry the time of the import as their revision; nothing else does. */
  function RestampPos(pos: seq<Po>, at: int): (r: seq<Po>)
    ensures |r| == |pos| && forall i :: 0 <= i < |pos| ==> r[i] == pos[i].(updatedAt := at)
  {
    if pos == [] then [] else RestampPos(pos[..|pos| - 1], at) + [pos[|pos| - 1].(updatedAt := at)]
  }

  function Restamp(a: Accepted, at: int): Accepted {
    a.(pos := RestampPos(a.pos, at), syncedAt := at)
  }

  ghost predicate AllSettled(l: Ledger, a: Accepted, lines: seq<ReceiptLine>) {
    forall r {:trigger Settled(l, a, r)} :: r in lines ==> Settled(l, a, r)
  }

  lemma RestampedReceipts(l: Ledger, a: Accepted, at: int)
    requires AllSettled(l, a, a.receiptLines)
    ensures AllReceiptsQuiet(l, Restamp(a, at), a.receiptLines)
  {
    forall r | r in a.receiptLines ensures QuietReceipt(l, Restamp(a, at), r) {
      assert Settled(l, a, r);
      SettledIsQuiet(l, a, r);
      assert FollowOne(l, Restamp(a, at), r) == FollowOne(l, a, r);
    }
  }

  /** Every line of every order can be loaded; a successful status pass has seen to that. */
  ghost predicate AllLoadable(l: Ledger, a: Accepted) {
    forall po {:trigger LinesOf(a.poLines, po.id)} :: po in a.pos ==> Loadable(l, LinesOf(a.poLines, po.id))
  }

  lemma JobLoads(l: Ledger, a: Accepted, job: Job)
    requires AllLoadable(l, a) && job in Jobs(a.pos, a.poLines)
    ensures Load(l, job.line.id, job.line.ordered).Some?
  {
    JobsElements(a.pos, a.poLines);
    LinesOfElements(a.poLines, job.po.id);
    var lines := LinesOf(a.poLines, job.po.id);
    assert job.line in lines;
    var i :| 0 <= i < |lines| && lines[i] == job.line;
  }

  ghost predicate NoLineShort(l: Ledger, a: Accepted) {
    forall job {:trigger Covered(l, job)} :: job in Jobs(a.pos, a.poLines) ==> Covered(l, job)
  }

  lemma JobsQuietIfCovered(l: Ledger, a: Accepted)
    requires LedgerInv(l) && AllLoadable(l, a)
    ensures AllJobsQuiet(l, Jobs(a.pos, a.poLines)) <==> NoLineShort(l, a)
  {
    forall job | job in Jobs(a.pos, a.poLines) ensures QuietJob(l, job) <==> Covered(l, job) {
      JobLoads(l, a, job);
      QuietMeansCovered(l, job);
    }
  }

  lemma RestampedLoadable(l: Ledger, a: Accepted, at: int)
    requires AllLoadable(l, a)
    ensures AllLoadable(l, Restamp(a, at))
  {
    forall po | po in Restamp(a, at).pos ensures Loadable(l, LinesOf(a.poLines, po.id)) {
      var i :| 0 <= i < |a.pos| && RestampPos(a.pos, at)[i] == po;
      assert a.pos[i] in a.pos && a.pos[i].id == po.id;
    }
  }

  /**
   After a successful import, posting its candidates again at another time leaves the ledger alone
   exactly if no line of a confirmed order is short: the receipts never post twice.
   */
  lemma RepostingIsQuiet(l: Ledger, a: Accepted, at: int)
    requires LedgerInv(l) && WellNamed(a) && PostAll(l, a).Some? && AllLoadable(PostAll(l, a).value, a)
    ensures var l' := PostAll(l, a).value;
            PostAll(l', Restamp(a, at)) == Some(l') <==> NoLineShort(l', Restamp(a, at))
  {
    var jobs := Jobs(a.pos, a.poLines);
    var c, l' := ConfirmAll(l, jobs).value, PostAll(l, a).value;
    PostAllKeeps(l, a);
    FollowAllSettles(c, a, a.receiptLines);
    assert AllSettled(l', a, a.receiptLines);
    RestampedReceipts(l', a, at);
    RestampedLoadable(l', a, at);
    JobsQuietIfCovered(l', Restamp(a, at));
    PostQuiet(l', Restamp(a, at));
  }

  /** A line that the import filled up, with nothing posted under the same revision before, is covered. */
  lemma FreshMeansCovered(l: Ledger, a: Accepted, job: Job, at: int)
    requires LedgerInv(l) && WellNamed(a) && PostAll(l, a).Some?
    requires job in Jobs(a.pos, a.poLines) && FreshConfirmation(l, job)
    ensures Covered(PostAll(l, a).value, job.(po := job.po.(updatedAt := at)))
  {
    DistinctConverges(l, a);
    assert Filled(l, PostAll(l, a).value, job);
  }

  // ---- statuses

  lemma SameDerivation(l: Ledger, po: Po, at: int, lines: seq<PoLine>)
    ensures DeriveStatus(l, po.(updatedAt := at), lines) == DeriveStatus(l, po, lines)
  {
  }

  /** Orders whose statuses were derived from a ledger keep them when derived from it again. */
  lemma {:induction false} DerivingAgain(rows: map<string, PoRow>, rows': map<string, PoRow>, l: Ledger, a: Accepted, pos: seq<Po>, at: int)
    requires forall po {:trigger StatusDerived(rows, rows', l, a, po)} :: po in pos ==> StatusDerived(rows, rows', l, a, po)
    ensures DeriveAll(rows', l, Restamp(a, at), RestampPos(pos, at)) == Some(rows')
  {
    if pos != [] {
      var front, last := pos[..|pos| - 1], pos[|pos| - 1];
      InFrontOrLast(pos);
      DerivingAgain(rows, rows', l, a, front, at);
      assert RestampPos(pos, at)[..|pos| - 1] == RestampPos(front, at);
      assert StatusDerived(rows, rows', l, a, last);
      SameDerivation(l, last, at, LinesOf(a.poLines, last.id));
    }
  }

  /** Deriving only ever raises versions. */
  ghost predicate RowsGrow(rows: map<string, PoRow>, rows': map<string, PoRow>) {
    rows'.Keys == rows.Keys
    && forall id :: id in rows ==> rows[id].version <= rows'[id].version && (rows[id].version == rows'[id].version ==> rows[id] == rows'[id])
  }

  lemma {:induction false} DerivingGrows(rows: map<string, PoRow>, l: Ledger, a: Accepted, pos: seq<Po>)
    requires DeriveAll(rows, l, a, pos).Some?
    ensures RowsGrow(rows, DeriveAll(rows, l, a, pos).value)
  {
    if pos != [] {
      DerivingGrows(rows, l, a, pos[..|pos| - 1]);
    }
  }
}
