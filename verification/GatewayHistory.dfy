/**
 What a row of GatewayProtocol says about the calls behind it, in the fields of the row and of the
 answers that came back: over every run a row was earned, and an answer that came back is in the row.
 */
module GatewayHistory {
  import opened Basics
  import opened ActionGateway
  import opened GatewayProtocol

  // ---- what an answer says

  predicate SaysDone(step: Step, text: string) {
    || (step.Answered? && step.answer.ok && step.answer.text == text)
    || (step.Verified? && step.confirmed && step.text == text)
  }

  predicate SaysUnverified(step: Step, text: string) {
    step.Verified? && !step.confirmed && step.text == text
  }

  /** A timeout of an external write: nobody knows whether it took effect. */
  predicate SaysUncertain(a: Action, step: Step) {
    step.Answered? && !step.answer.ok && a.external && step.answer.uncertain
  }

  predicate SaysRetry(a: Action, step: Step, text: string) {
    step.Answered? && !step.answer.ok && !SaysUncertain(a, step) && step.answer.safelyRetryable && step.answer.text == text
  }

  predicate SaysFailed(a: Action, step: Step, text: string) {
    step.Answered? && !step.answer.ok && !SaysUncertain(a, step) && !step.answer.safelyRetryable && step.answer.text == text
  }

  // ---- an answer that came back is in the row

  ghost predicate Holds(row: Option<Row>, status: Status, ok: bool, text: string, attempt: nat) {
    && row.Some? && row.value.status == status && row.value.lease == None && row.value.attempt == attempt
    && row.value.result.ok == ok && row.value.result.text == text
  }

  function AttemptOf(row: Option<Row>): nat {
    if row.Some? then row.value.attempt else 1
  }

  /** Which answer closes a row how, and which leaves it open for a verification; no answer touches the attempt. */
  lemma AnswersAreStored(a: Action, s: State, step: Step, text: string)
    requires Enabled(a, s, step)
    ensures var s', n := Apply(a, s, step), AttemptOf(s.row);
            && (SaysDone(step, text) ==> Holds(s'.row, Completed, true, text, n))
            && (SaysUnverified(step, text) ==> Holds(s'.row, ManualReconciliation, false, text, n))
            && (SaysRetry(a, step, text) ==> Holds(s'.row, RetryableFailed, false, text, n))
            && (SaysFailed(a, step, text) ==> Holds(s'.row, Failed, false, text, n))
            && (step.Deny? ==> Holds(s'.row, Failed, false, s'.row.value.result.text, n))
            && (SaysUncertain(a, step) ==> s'.row == s.row && s'.owners[step.pid].flight == Reconciling(false))
            && (step.Answered? || step.Verified? ==>
                  step.pid in s'.owners && (SaysUncertain(a, step) || s'.owners[step.pid].flight == Done))
  {
  }

  // ---- a row was earned

  ghost predicate Came(steps: seq<Step>, says: Step -> bool) {
    exists j :: 0 <= j < |steps| && says(steps[j])
  }

  /** Some earlier answer says what the row says. */
  ghost predicate Earned(a: Action, steps: seq<Step>, row: Row) {
    var text := row.result.text;
    match row.status
    case Completed => row.result.ok && row.lease == None && Came(steps, (st: Step) => SaysDone(st, text))
    case ManualReconciliation => !row.result.ok && row.lease == None && Came(steps, (st: Step) => SaysUnverified(st, text))
    case RetryableFailed => !row.result.ok && row.lease == None && Came(steps, (st: Step) => SaysRetry(a, st, text))
    case Failed =>
      && !row.result.ok && row.lease == None
      && Came(steps, (st: Step) => st.Deny? || SaysFailed(a, st, text) || SaysRetry(a, st, text))
    case _ => !row.result.ok && row.lease.Some?
  }

  lemma CameBefore(front: seq<Step>, last: Step, says: Step -> bool)
    ensures Came(front, says) || says(last) ==> Came(front + [last], says)
  {
    var steps := front + [last];
    if Came(front, says) {
      var j :| 0 <= j < |front| && says(front[j]);
      assert says(steps[j]);
    } else if says(last) {
      assert says(steps[|front|]);
    }
  }

  lemma EarnedBefore(a: Action, front: seq<Step>, last: Step, row: Row)
    requires Earned(a, front, row)
    ensures Earned(a, front + [last], row)
  {
    var text := row.result.text;
    CameBefore(front, last, (st: Step) => SaysDone(st, text));
    CameBefore(front, last, (st: Step) => SaysUnverified(st, text));
    CameBefore(front, last, (st: Step) => SaysRetry(a, st, text));
    CameBefore(front, last, (st: Step) => st.Deny? || SaysFailed(a, st, text) || SaysRetry(a, st, text));
  }

  lemma AnswerEarns(a: Action, s: State, front: seq<Step>, last: Step)
    requires Enabled(a, s, last) && (last.Deny? || last.Answered? || last.Verified?) && !SaysUncertain(a, last)
    ensures Apply(a, s, last).row.Some? && Earned(a, front + [last], Apply(a, s, last).row.value)
  {
    var text := Apply(a, s, last).row.value.result.text;
    CameBefore(front, last, (st: Step) => SaysDone(st, text));
    CameBefore(front, last, (st: Step) => SaysUnverified(st, text));
    CameBefore(front, last, (st: Step) => SaysRetry(a, st, text));
    CameBefore(front, last, (st: Step) => st.Deny? || SaysFailed(a, st, text) || SaysRetry(a, st, text));
  }

  lemma EnterEarns(a: Action, s: State, front: seq<Step>, last: Step)
    requires Enabled(a, s, last) && last.Enter? && (s.row.Some? ==> Earned(a, front, s.row.value))
    ensures Apply(a, s, last).row.Some? && Earned(a, front + [last], Apply(a, s, last).row.value)
  {
    var row := Apply(a, s, last).row.value;
    if s.row.Some? {
      EarnedBefore(a, front, last, s.row.value);
      if row.status.Failed? && s.row.value.status.RetryableFailed? {
        var text, steps := row.result.text, front + [last];
        var j :| 0 <= j < |steps| && SaysRetry(a, steps[j], text);
        assert ((st: Step) => st.Deny? || SaysFailed(a, st, text) || SaysRetry(a, st, text))(steps[j]);
      }
    }
  }

  /** Over every run: whatever the row claims, some earlier answer said so; done is only what was reported done. */
  lemma {:induction false} RowsAreEarned(a: Action, states: seq<State>, steps: seq<Step>, i: nat)
    requires Run(a, states, steps) && i < |states|
    ensures states[i].row.Some? ==> Earned(a, steps[..i], states[i].row.value)
  {
    if i > 0 {
      RowsAreEarned(a, states, steps, i - 1);
      var s, front, last := states[i - 1], steps[..i - 1], steps[i - 1];
      assert steps[..i] == front + [last];
      if last.Enter? {
        EnterEarns(a, s, front, last);
      } else if (last.Deny? || last.Answered? || last.Verified?) && !SaysUncertain(a, last) {
        AnswerEarns(a, s, front, last);
      } else if s.row.Some? {
        EarnedBefore(a, front, last, s.row.value);
      }
    }
  }

  /** The success a caller is told of happened: the connector answered ok, or a verification found the write. */
  lemma SuccessWasReported(a: Action, states: seq<State>, steps: seq<Step>, i: nat)
    requires Run(a, states, steps) && i < |states| && states[i].row.Some?
    ensures states[i].row.value.result.ok <==> states[i].row.value.status == Completed
    ensures states[i].row.value.result.ok ==>
              exists j :: 0 <= j < i && (|| (steps[j].Answered? && steps[j].answer.ok)
                                         || (steps[j].Verified? && steps[j].confirmed))
  {
    RowsAreEarned(a, states, steps, i);
    var row := states[i].row.value;
    if row.status.Completed? {
      var text := row.result.text;
      var j :| 0 <= j < |steps[..i]| && SaysDone(steps[..i][j], text);
      assert steps[..i][j] == steps[j];
    }
  }

  // ---- who is given the row

  /** An attempt is left: the node's `retries` come on top of the first one. */
  predicate AttemptLeft(a: Action, row: Row) {
    Max(1, row.attempt) <= a.retries
  }

  /** A call is given the row exactly if nobody had it, a retry is left, or the owner's lease has run out. */
  ghost predicate Granted(a: Action, row: Option<Row>, now: int) {
    || row.None?
    || (row.value.status.RetryableFailed? && AttemptLeft(a, row.value))
    || (row.value.status in {Pending, Recovering} && (row.value.lease.None? || row.value.lease.value <= now))
  }

  /** Taking over an abandoned external write only verifies; every other grant sends the request. */
  ghost predicate TakesOver(a: Action, row: Option<Row>) {
    a.external && row.Some? && row.value.status in {Pending, Recovering}
  }

  lemma EnterIsGranted(a: Action, s: State, p: Pid, now: int, leaseUntil: int)
    requires p !in s.owners
    ensures var s' := Apply(a, s, Enter(p, now, leaseUntil));
            && s'.row.Some?
            && (p in s'.owners <==> Granted(a, s.row, now))
            && (Granted(a, s.row, now) ==>
                  && s'.row.value.lease == Some(leaseUntil)
                  && s'.row.value.attempt == (if s.row.None? then 1 else Max(1, s.row.value.attempt) + 1)
                  && s'.row.value.status == (if TakesOver(a, s.row) then Recovering else Pending)
                  && s'.owners[p].flight == (if TakesOver(a, s.row) then Reconciling(true) else Executing)
                  && s'.requests == (if TakesOver(a, s.row) then s.requests else s.requests + [Sent]))
            && (!Granted(a, s.row, now) ==>
                  && s'.requests == s.requests && s'.owners == s.owners
                  && (!s.row.value.status.RetryableFailed? ==> s'.row == s.row)
                  && (s.row.value.status.RetryableFailed? ==>
                        var result := s.row.value.result;
                        Holds(s'.row, Failed, result.ok, result.text, s.row.value.attempt) && !s'.row.value.result.retryable))
  {
  }

  lemma OneMore(a: Action, states: seq<State>, steps: seq<Step>, step: Step) returns (states': seq<State>, steps': seq<Step>)
    requires Run(a, states, steps) && Enabled(a, states[|states| - 1], step)
    ensures Run(a, states', steps') && states'[|states'| - 1] == Apply(a, states[|states| - 1], step)
  {
    states', steps' := states + [Apply(a, states[|states| - 1], step)], steps + [step];
  }

  /** One round: given the row, told to try again later, and let go. */
  lemma Round(a: Action, states: seq<State>, steps: seq<Step>) returns (states': seq<State>, steps': seq<Step>)
    requires Run(a, states, steps) && states[|states| - 1].owners == map[]
    requires var row := states[|states| - 1].row;
             row.Some? ==> row.value.status.RetryableFailed? && 1 <= row.value.attempt <= a.retries
    ensures Run(a, states', steps')
    ensures var s, s' := states[|states| - 1], states'[|states'| - 1];
            && s'.owners == map[] && |s'.requests| == |s.requests| + 1
            && s'.row.Some? && s'.row.value.status.RetryableFailed?
            && s'.row.value.attempt == (if s.row.Some? then s.row.value.attempt + 1 else 1)
  {
    var answered := Answered(0, Answer(false, "", false, true));
    states', steps' := OneMore(a, states, steps, Enter(0, 0, 60));
    states', steps' := OneMore(a, states', steps', answered);
    states', steps' := OneMore(a, states', steps', GatewayProtocol.Release(0));
    assert states'[|states'| - 1].owners == map[];
  }

  lemma {:induction false} Rounds(a: Action, n: nat) returns (states: seq<State>, steps: seq<Step>)
    requires 1 <= n <= Max(1, a.retries + 1)
    ensures Run(a, states, steps)
    ensures var s := states[|states| - 1];
            && s.owners == map[] && |s.requests| == n
            && s.row.Some? && s.row.value.status.RetryableFailed? && s.row.value.attempt == n
  {
    if n == 1 {
      states, steps := [Init()], [];
    } else {
      states, steps := Rounds(a, n - 1);
    }
    states, steps := Round(a, states, steps);
  }

  /** The bound on the connector calls is met: a connector that keeps asking for it gets every retry. */
  lemma EveryRetryIsGranted(a: Action, n: nat)
    requires n <= Max(1, a.retries + 1)
    ensures exists states: seq<State>, steps :: Run(a, states, steps) && |states[|states| - 1].requests| == n
  {
    if n == 0 {
      var states: seq<State>, steps: seq<Step> := [Init()], [];
      assert Run(a, states, steps) && |states[|states| - 1].requests| == 0;
    } else {
      var states, steps := Rounds(a, n);
    }
  }
}
