/** One human approval decision, sent to a Temporal workflow as a signal. */
module ApprovalDecision {
  // Several API processes may race for it, crash after sending, outlive their lease and mark the row
  // late. The row fixes the conclusion; the module shows that nothing ever contradicts it.

  import opened Basics

  datatype Conclusion = Approved | Rejected

  datatype Payload = Payload(conclusion: Conclusion, approver: string)

  datatype RowStatus = Pending | Sent | FailedToSend

  datatype Row = Row(conclusion: Conclusion, status: RowStatus, payload: Payload, lease: Option<int>)

  datatype Claim = Owner | Replayed(payload: Payload) | Processing | Conflict

  datatype Existing = NoneYet | AlreadySent(conclusion: Conclusion) | InProcess | Recoverable(payload: Payload) | Opposite

  predicate LeaseOver(lease: Option<int>, now: int) {
    lease.None? || lease.value <= now
  }

  /** The transaction of `claimEditorApprovalDecision`. */
  function ClaimRow(row: Option<Row>, payload: Payload, now: int, leaseUntil: int): (Option<Row>, Claim) {
    if row.None? then (Some(Row(payload.conclusion, Pending, payload, Some(leaseUntil))), Owner)
    else
      var r := row.value;
      if r.conclusion != payload.conclusion then (row, Conflict)
      else if r.status == Sent then (row, Replayed(r.payload))
      else if r.status == FailedToSend || LeaseOver(r.lease, now) then
        (Some(r.(status := Pending, payload := payload, lease := Some(leaseUntil))), Owner)
      else (row, Processing)
  }

  /** `existingEditorApprovalDecision` for one node with one decision id: answers only the same approver. */
  function Look(row: Option<Row>, conclusion: Conclusion, approver: string, now: int): Existing {
    if row.None? || row.value.payload.approver != approver then NoneYet
    else
      var r := row.value;
      if r.conclusion != conclusion then Opposite
      else if r.status == Sent then AlreadySent(r.conclusion)
      else if r.status == Pending && LeaseOver(r.lease, now) then Recoverable(r.payload)
      else InProcess
  }

  /** The two `mark...` updates touch the row only where the conclusion matches. */
  function MarkRow(row: Option<Row>, payload: Payload, status: RowStatus): Option<Row> {
    if row.Some? && row.value.conclusion == payload.conclusion
    then Some(row.value.(status := status, lease := None)) else row
  }

  /** The table of one API process, as the three functions update it. */
  class DecisionTable {
    var rows: map<string, Row>

    constructor (rows: map<string, Row>)
      ensures this.rows == rows
    {
      this.rows := rows;
    }

    function RowOf(id: string): Option<Row>
      reads this
    {
      if id in rows then Some(rows[id]) else None
    }

    method ClaimDecision(id: string, payload: Payload, now: int, leaseUntil: int) returns (claim: Claim)
      modifies this
      ensures (RowOf(id), claim) == ClaimRow(old(RowOf(id)), payload, now, leaseUntil)
      ensures forall other :: other != id ==> RowOf(other) == old(RowOf(other))
    {
      if id !in rows {
        rows := rows[id := Row(payload.conclusion, Pending, payload, Some(leaseUntil))];
        return Owner;
      }
      var row := rows[id];
      if row.conclusion != payload.conclusion {
        return Conflict;
      }
      if row.status == Sent {
        return Replayed(row.payload);
      }
      if row.status == FailedToSend {
        rows := rows[id := row.(status := Pending, payload := payload, lease := Some(leaseUntil))];
        return Owner;
      }
      if row.status == Pending && (row.lease.None? || row.lease.value <= now) {
        rows := rows[id := row.(payload := payload, lease := Some(leaseUntil))];
        return Owner;
      }
      return Processing;
    }

    method Mark(id: string, payload: Payload, status: RowStatus)
      modifies this
      ensures RowOf(id) == MarkRow(old(RowOf(id)), payload, status)
      ensures forall other :: other != id ==> RowOf(other) == old(RowOf(other))
    {
      if id in rows && rows[id].conclusion == payload.conclusion {
        rows := rows[id := rows[id].(status := status, lease := None)];
      }
    }
  }

  // ---- all interleavings

  /** A request is asking Temporal for its state, or has been given the right to send and is sending. */
  datatype Task = Asking(payload: Payload, recoverable: Option<Payload>) | Sending(payload: Payload)

  /** `signals` were handed to Temporal, `audit` is what it recorded, `answers` are the positive replies. */
  datatype State = State(row: Option<Row>, tasks: map<nat, Task>, signals: set<Conclusion>, audit: set<Conclusion>, answers: seq<Conclusion>)

  datatype Step =
    | Request(task: nat, payload: Payload, now: int)
    | StillWaiting(task: nat, now: int, leaseUntil: int)
    | MovedOn(task: nat, recorded: bool)
    | Recorded(conclusion: Conclusion)
    | SendDone(task: nat, ok: bool)
    | Crash(task: nat)

  function Init(): State {
    State(None, map[], {}, {}, [])
  }

  /**
   Temporal records a conclusion only if it was signalled, and the audit a request compares with shows
   only what is recorded. A successful send means that the signal was accepted.
   */
  predicate Enabled(s: State, step: Step) {
    match step
    case Request(t, _, _) => t !in s.tasks
    case StillWaiting(t, _, _) => t in s.tasks && s.tasks[t].Asking?
    case MovedOn(t, recorded) =>
      && t in s.tasks && s.tasks[t].Asking?
      && (recorded && s.tasks[t].recoverable.Some? ==> s.tasks[t].recoverable.value.conclusion in s.audit)
    case Recorded(c) => c in s.signals
    case SendDone(t, _) => t in s.tasks && s.tasks[t].Sending?
    case Crash(t) => t in s.tasks
  }

  function Apply(s: State, step: Step): State
    requires Enabled(s, step)
  {
    match step
    case Request(t, payload, now) =>
      (match Look(s.row, payload.conclusion, payload.approver, now)
       case AlreadySent(c) => s.(answers := s.answers + [c])
       case NoneYet => s.(tasks := s.tasks[t := Asking(payload, None)])
       case Recoverable(stored) => s.(tasks := s.tasks[t := Asking(payload, Some(stored))])
       case _ => s)
    case StillWaiting(t, now, leaseUntil) =>
      var payload := s.tasks[t].payload;
      var (row', claim) := ClaimRow(s.row, payload, now, leaseUntil);
      (match claim
       case Owner => s.(row := row', tasks := s.tasks[t := Sending(payload)], signals := s.signals + {payload.conclusion})
       case Replayed(stored) => s.(tasks := s.tasks - {t}, answers := s.answers + [stored.conclusion])
       case _ => s.(tasks := s.tasks - {t}))
    case MovedOn(t, recorded) =>
      var task := s.tasks[t];
      if recorded && task.recoverable.Some? then
        State(MarkRow(s.row, task.recoverable.value, Sent), s.tasks - {t}, s.signals, s.audit,
              s.answers + [task.recoverable.value.conclusion])
      else s.(tasks := s.tasks - {t})
    case Recorded(c) => s.(audit := s.audit + {c})
    case SendDone(t, ok) =>
      var payload := s.tasks[t].payload;
      if ok then
        State(MarkRow(s.row, payload, Sent), s.tasks - {t}, s.signals, s.audit + {payload.conclusion}, s.answers + [payload.conclusion])
      else s.(row := MarkRow(s.row, payload, FailedToSend), tasks := s.tasks - {t})
    case Crash(t) => s.(tasks := s.tasks - {t})
  }

  /** A run from any state: what follows may be any steps of any requests. */
  ghost predicate RunFrom(s: State, states: seq<State>, steps: seq<Step>) {
    && |states| == |steps| + 1
    && states[0] == s
    && forall i :: 0 <= i < |steps| ==> Enabled(states[i], steps[i]) && states[i + 1] == Apply(states[i], steps[i])
  }

  ghost predicate Run(states: seq<State>, steps: seq<Step>) {
    RunFrom(Init(), states, steps)
  }

  /** Everything in sight carries the row's conclusion, and `sent` was earned. */
  ghost predicate Inv(s: State) {
    && (s.row.None? ==> s.signals == {} && s.audit == {} && s.answers == [])
    && s.audit <= s.signals
    && (s.row.Some? ==>
          && (forall c :: c in s.signals ==> c == s.row.value.conclusion)
          && (forall i :: 0 <= i < |s.answers| ==> s.answers[i] == s.row.value.conclusion)
          && s.row.value.payload.conclusion == s.row.value.conclusion
          && (s.row.value.status == Sent ==> s.row.value.conclusion in s.audit))
    && forall t :: t in s.tasks ==> TaskInv(s, s.tasks[t])
  }

  ghost predicate TaskInv(s: State, task: Task) {
    match task
    case Asking(_, None) => true
    case Asking(payload, Some(stored)) => s.row.Some? && stored.conclusion == s.row.value.conclusion
    case Sending(payload) => s.row.Some? && payload.conclusion == s.row.value.conclusion && payload.conclusion in s.signals
  }

  lemma StepKeepsInv(s: State, step: Step)
    requires Inv(s) && Enabled(s, step)
    ensures Inv(Apply(s, step))
    ensures s.row.Some? ==> Apply(s, step).row.Some? && Apply(s, step).row.value.conclusion == s.row.value.conclusion
  {
    var s' := Apply(s, step);
    assert step.StillWaiting? || step.MovedOn? || step.SendDone? || step.Crash? ==> TaskInv(s, s.tasks[step.task]);
    forall t | t in s'.tasks ensures TaskInv(s', s'.tasks[t]) {
      if t in s.tasks && s'.tasks[t] == s.tasks[t] {
        assert TaskInv(s, s.tasks[t]);
      }
    }
  }

  lemma {:induction false} InvAlong(states: seq<State>, steps: seq<Step>, i: nat)
    requires Run(states, steps) && i < |states|
    ensures Inv(states[i])
  {
    if i > 0 {
      InvAlong(states, steps, i - 1);
      StepKeepsInv(states[i - 1], steps[i - 1]);
    }
  }

  /** Temporal never sees two conclusions, all senders and all positive answers agree, and `sent` is true. */
  lemma Agreement(states: seq<State>, steps: seq<Step>, i: nat)
    requires Run(states, steps) && i < |states|
    ensures var s := states[i];
      && (forall c, d :: c in s.signals && d in s.signals ==> c == d)
      && (forall t, u :: t in s.tasks && u in s.tasks && s.tasks[t].Sending? && s.tasks[u].Sending? ==>
            s.tasks[t].payload.conclusion == s.tasks[u].payload.conclusion)
      && (forall k, l :: 0 <= k < |s.answers| && 0 <= l < |s.answers| ==> s.answers[k] == s.answers[l])
      && (s.row.Some? && s.row.value.status == Sent ==> s.row.value.conclusion in s.audit && s.row.value.conclusion in s.signals)
  {
    InvAlong(states, steps, i);
    var s := states[i];
    forall t, u | t in s.tasks && u in s.tasks && s.tasks[t].Sending? && s.tasks[u].Sending?
      ensures s.tasks[t].payload.conclusion == s.tasks[u].payload.conclusion
    {
      assert TaskInv(s, s.tasks[t]) && TaskInv(s, s.tasks[u]);
    }
  }

  /** The first claim decides: the conclusion of the row never changes, whatever happens later. */
  lemma {:induction false} ConclusionIsFinal(states: seq<State>, steps: seq<Step>, i: nat, j: nat)
    requires Run(states, steps) && i <= j < |states| && states[i].row.Some?
    ensures states[j].row.Some? && states[j].row.value.conclusion == states[i].row.value.conclusion
    decreases j
  {
    if i < j {
      ConclusionIsFinal(states, steps, i, j - 1);
      InvAlong(states, steps, j - 1);
      StepKeepsInv(states[j - 1], steps[j - 1]);
    }
  }

  // ---- when `sent` is final

  predicate IsSent(s: State) {
    s.row.Some? && s.row.value.status == RowStatus.Sent
  }

  ghost predicate NobodySends(s: State) {
    forall t :: t in s.tasks ==> !s.tasks[t].Sending?
  }

  ghost predicate StaysSent(s: State) {
    forall states, steps :: RunFrom(s, states, steps) ==> forall i :: 0 <= i < |states| ==> IsSent(states[i])
  }

  /** Under `sent` a claim only replays or conflicts, so no new sender comes up. */
  lemma StepKeepsSent(s: State, step: Step)
    requires IsSent(s) && NobodySends(s) && Enabled(s, step)
    ensures IsSent(Apply(s, step)) && NobodySends(Apply(s, step))
  {
  }

  lemma {:induction false} SentAlong(s: State, states: seq<State>, steps: seq<Step>, i: nat)
    requires IsSent(s) && NobodySends(s) && RunFrom(s, states, steps) && i < |states|
    ensures IsSent(states[i]) && NobodySends(states[i])
  {
    if i > 0 {
      SentAlong(s, states, steps, i - 1);
      StepKeepsSent(states[i - 1], steps[i - 1]);
    }
  }

  /** A late owner whose own send fails marks the row, whatever it says by then. */
  lemma LateFailureMarks(s: State, t: nat)
    requires Inv(s) && IsSent(s) && t in s.tasks && s.tasks[t].Sending?
    ensures Enabled(s, SendDone(t, false))
    ensures Apply(s, SendDone(t, false)).row == Some(s.row.value.(status := FailedToSend, lease := None))
  {
    assert TaskInv(s, s.tasks[t]);
  }

  /** A sent row stays sent whatever follows if and only if no request is still sending. */
  lemma SentIsFinalUnlessSending(s: State)
    requires Inv(s) && IsSent(s)
    ensures StaysSent(s) <==> NobodySends(s)
  {
    if NobodySends(s) {
      forall states, steps | RunFrom(s, states, steps) ensures forall i :: 0 <= i < |states| ==> IsSent(states[i]) {
        forall i | 0 <= i < |states| ensures IsSent(states[i]) {
          SentAlong(s, states, steps, i);
        }
      }
    } else {
      var t :| t in s.tasks && s.tasks[t].Sending?;
      LateFailureMarks(s, t);
      var states, steps := [s, Apply(s, SendDone(t, false))], [SendDone(t, false)];
      assert RunFrom(s, states, steps) && !IsSent(states[1]);
    }
  }

  /** Such a state is reachable: an owner whose lease ran out while it was sending, and a second one. */
  lemma SentCanBeLost(p: Payload) returns (states: seq<State>, steps: seq<Step>)
    ensures Run(states, steps)
    ensures exists i :: 0 <= i < |states| - 1 && states[i].row.Some? && states[i].row.value.status == Sent
              && states[i + 1].row == Some(Row(p.conclusion, FailedToSend, p, None))
  {
    var c := p.conclusion;
    var r0, r1 := Row(c, Pending, p, Some(60)), Row(c, Pending, p, Some(121));
    var a, b := Asking(p, None), Sending(p);
    var s0 := Init();
    var s1 := s0.(tasks := map[0 := a]);
    var s2 := s0.(tasks := map[0 := a, 1 := a]);
    var s3 := State(Some(r0), map[0 := b, 1 := a], {c}, {}, []);
    var s4 := State(Some(r1), map[0 := b, 1 := b], {c}, {}, []);
    var s5 := State(Some(r1.(status := Sent, lease := None)), map[0 := b], {c}, {c}, [c]);
    var s6 := State(Some(r1.(status := FailedToSend, lease := None)), map[], {c}, {c}, [c]);
    states := [s0, s1, s2, s3, s4, s5, s6];
    steps := [Request(0, p, 0), Request(1, p, 0), StillWaiting(0, 0, 60), StillWaiting(1, 61, 121), SendDone(1, true), SendDone(0, false)];
    assert s1 == Apply(s0, steps[0]);
    assert s2 == Apply(s1, steps[1]);
    assert s3 == Apply(s2, steps[2]);
    assert s4 == Apply(s3, steps[3]);
    assert s5 == Apply(s4, steps[4]);
    assert s6 == Apply(s5, steps[5]);
    assert states[5].row.value.status == Sent && states[5 + 1].row == Some(Row(c, FailedToSend, p, None));
  }

  // ---- who can still send

  /** Who is given the row by a claim, what a claim answers otherwise, and what it leaves alone. */
  lemma ClaimExactly(row: Option<Row>, p: Payload, now: int, leaseUntil: int)
    ensures var (row', claim) := ClaimRow(row, p, now, leaseUntil);
            && (claim == Owner <==>
                  || row.None?
                  || (row.value.conclusion == p.conclusion && row.value.status == RowStatus.FailedToSend)
                  || (row.value.conclusion == p.conclusion && row.value.status == RowStatus.Pending
                      && (row.value.lease == None || row.value.lease.value <= now)))
            && (claim == Conflict <==> row.Some? && row.value.conclusion != p.conclusion)
            && (claim.Replayed? <==> row.Some? && row.value.conclusion == p.conclusion && row.value.status == RowStatus.Sent)
            && (claim.Replayed? ==> claim.payload == row.value.payload)
            && (claim == Owner ==> row' == Some(Row(p.conclusion, RowStatus.Pending, p, Some(leaseUntil))))
            && (claim != Owner ==> row' == row)
  {
  }

  ghost predicate OnlyBy(steps: seq<Step>, p: Payload) {
    forall i :: 0 <= i < |steps| && steps[i].Request? ==> steps[i].payload == p
  }

  /** Requests of this approver with this conclusion, and nobody else's, can get the row sent. */
  ghost predicate CanBeSentBy(s: State, p: Payload) {
    exists states, steps :: RunFrom(s, states, steps) && OnlyBy(steps, p) && IsSent(states[|states| - 1])
  }

  /** Nobody is under way but requests that were told to ask Temporal, and none of them can claim this row. */
  ghost predicate Blocked(s: State, p: Payload) {
    && s.row.Some? && s.row.value.status != RowStatus.Sent
    && forall t :: t in s.tasks ==> s.tasks[t] == Asking(p, None) && p.conclusion != s.row.value.conclusion
  }

  lemma BlockedStep(s: State, row: Row, p: Payload, step: Step)
    requires Blocked(s, p) && s.row == Some(row) && Enabled(s, step) && (step.Request? ==> step.payload == p)
    requires p.conclusion != row.conclusion || (row.status == RowStatus.FailedToSend && row.payload.approver == p.approver)
    ensures Blocked(Apply(s, step), p) && Apply(s, step).row == Some(row)
  {
  }

  lemma {:induction false} BlockedAlong(s: State, row: Row, p: Payload, states: seq<State>, steps: seq<Step>, i: nat)
    requires Blocked(s, p) && s.row == Some(row) && RunFrom(s, states, steps) && OnlyBy(steps, p) && i < |states|
    requires p.conclusion != row.conclusion || (row.status == RowStatus.FailedToSend && row.payload.approver == p.approver)
    ensures Blocked(states[i], p) && states[i].row == Some(row)
  {
    if i > 0 {
      BlockedAlong(s, row, p, states, steps, i - 1);
      BlockedStep(states[i - 1], row, p, steps[i - 1]);
    }
  }

  /** Asking, claiming once the lease is over, and sending. */
  lemma SendsAgain(s: State, p: Payload)
    requires Inv(s) && s.tasks == map[] && s.row.Some? && s.row.value.status != RowStatus.Sent
    requires p.conclusion == s.row.value.conclusion
    requires s.row.value.status == RowStatus.FailedToSend ==> s.row.value.payload.approver != p.approver
    ensures CanBeSentBy(s, p)
  {
    var now := if s.row.value.lease.Some? then s.row.value.lease.value else 0;
    var s1 := Apply(s, Request(0, p, now));
    assert 0 in s1.tasks && s1.tasks[0].Asking? && s1.tasks[0].payload == p && s1.row == s.row;
    var s2 := Apply(s1, StillWaiting(0, now, now + 60));
    assert 0 in s2.tasks && s2.tasks[0] == Sending(p) && s2.row.Some? && s2.row.value.conclusion == p.conclusion;
    var s3 := Apply(s2, SendDone(0, true));
    var states, steps := [s, s1, s2, s3], [Request(0, p, now), StillWaiting(0, now, now + 60), SendDone(0, true)];
    assert RunFrom(s, states, steps) && OnlyBy(steps, p) && IsSent(states[3]);
  }

  /**
   With nobody under way, who can get an unsent row sent: everybody with its conclusion, except the approver
   whose own send failed. The look before the claim answers him that his decision is being processed.
   */
  lemma SentAgainExactly(s: State, p: Payload)
    requires Inv(s) && s.tasks == map[] && s.row.Some? && s.row.value.status != RowStatus.Sent
    ensures CanBeSentBy(s, p) <==>
              && p.conclusion == s.row.value.conclusion
              && !(s.row.value.status == RowStatus.FailedToSend && s.row.value.payload.approver == p.approver)
  {
    var row := s.row.value;
    if p.conclusion == row.conclusion && !(row.status == RowStatus.FailedToSend && row.payload.approver == p.approver) {
      SendsAgain(s, p);
    } else {
      forall states, steps | RunFrom(s, states, steps) && OnlyBy(steps, p) ensures !IsSent(states[|states| - 1]) {
        BlockedAlong(s, row, p, states, steps, |states| - 1);
      }
    }
  }

  /** Such a state is reachable: one approver, one send that fails. */
  lemma FailedSenderIsBlocked(p: Payload) returns (states: seq<State>, steps: seq<Step>)
    ensures Run(states, steps) && !CanBeSentBy(states[|states| - 1], p)
  {
    var c := p.conclusion;
    var row := Row(c, RowStatus.Pending, p, Some(60));
    var s1 := Init().(tasks := map[0 := Asking(p, None)]);
    var s2 := State(Some(row), map[0 := Sending(p)], {c}, {}, []);
    var s3 := State(Some(row.(status := RowStatus.FailedToSend, lease := None)), map[], {c}, {}, []);
    states, steps := [Init(), s1, s2, s3], [Request(0, p, 0), StillWaiting(0, 0, 60), SendDone(0, false)];
    assert s1 == Apply(Init(), steps[0]);
    assert s2 == Apply(s1, steps[1]);
    assert s3 == Apply(s2, steps[2]);
    InvAlong(states, steps, 3);
    SentAgainExactly(s3, p);
  }
}
