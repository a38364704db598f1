module GatewayProtocol {
  // One side effect (one row) under every interleaving of processes, crashes, expired leases and late
  // writes.
  //
  // A request is one call of the connector's `execute`; it may take effect at any later time, even after
  // the process that sent it has crashed, and it takes effect at most once by itself.
  //
  // The one assumption about the outside world is the one the source states for its retry patterns: an
  // answer that matches the safe-retry pattern, and is not uncertain, means the request never started.
  // Clocks are not assumed to agree: every reservation brings its own `now`.

  import opened Basics
  import opened ActionGateway

  type Pid = nat

  datatype Request = Sent | Landed | Dead

  datatype Owner = Owner(flight: Flight, request: nat)

  /** `owners` is the union of the in-flight maps: at most one entry per process and key. */
  datatype State = State(row: Option<Row>, owners: map<Pid, Owner>, requests: seq<Request>)

  /** What is fixed for one key: the node's `retries`, and whether its action is an external write. */
  datatype Action = Action(retries: int, external: bool)

  datatype Step =
    | Deny(pid: Pid)
    | Enter(pid: Pid, now: int, leaseUntil: int)
    | Land(request: nat)
    | Answered(pid: Pid, answer: Answer)
    | Verified(pid: Pid, confirmed: bool, text: string)
    | StoreFails(pid: Pid)
    | Release(pid: Pid)
    | Crash(pid: Pid)

  function Init(): State {
    State(None, map[], [])
  }

  predicate NeverStarted(external: bool, answer: Answer) {
    var verdict := Classify(external, answer);
    verdict.Settled? && verdict.result.retryable
  }

  predicate IsExecuting(s: State, p: Pid) {
    p in s.owners && s.owners[p].flight == Executing
  }

  predicate Enabled(a: Action, s: State, step: Step) {
    match step
    case Deny(p) => p !in s.owners
    case Enter(p, _, _) => p !in s.owners
    case Land(i) => i < |s.requests| && s.requests[i] == Sent
    case Answered(p, answer) =>
      && IsExecuting(s, p)
      && s.owners[p].request < |s.requests|
      && (NeverStarted(a.external, answer) ==> s.requests[s.owners[p].request] == Sent)
    case Verified(p, _, _) => p in s.owners && s.owners[p].flight.Reconciling?
    case StoreFails(p) => p in s.owners && s.owners[p].flight != Done
    case Release(p) => p in s.owners && s.owners[p].flight == Done
    case Crash(p) => p in s.owners
  }

  function Finished(s: State, p: Pid): map<Pid, Owner>
    requires p in s.owners
  {
    s.owners[p := s.owners[p].(flight := Done)]
  }

  function Apply(a: Action, s: State, step: Step): State
    requires Enabled(a, s, step)
  {
    match step
    case Deny(p) => s.(row := Some(Store(s.row, DeniedResult())))
    case Enter(p, now, leaseUntil) =>
      var (row', reservation) := Reserve(s.row, now, leaseUntil, a.retries, a.external);
      (match reservation
       case Replay(_) => s.(row := Some(row'))
       case Busy => s.(row := Some(row'))
       case Owner(true) => s.(row := Some(row'), owners := s.owners[p := Owner.Owner(Reconciling(true), |s.requests|)])
       case Owner(false) =>
         State(Some(row'), s.owners[p := Owner.Owner(Executing, |s.requests|)], s.requests + [Sent]))
    case Land(i) => s.(requests := s.requests[i := Landed])
    case Answered(p, answer) =>
      var requests' := if NeverStarted(a.external, answer) then s.requests[s.owners[p].request := Dead] else s.requests;
      (match Classify(a.external, answer)
       case NeedsReconciliation => State(s.row, s.owners[p := s.owners[p].(flight := Reconciling(false))], requests')
       case Settled(result) => State(Some(Store(s.row, result)), Finished(s, p), requests'))
    case Verified(p, confirmed, text) =>
      State(Some(Store(s.row, Reconciled(confirmed, text, s.owners[p].flight.replayed))), Finished(s, p), s.requests)
    case StoreFails(p) => s.(owners := Finished(s, p))
    case Release(p) => s.(owners := s.owners - {p})
    case Crash(p) => s.(owners := s.owners - {p})
  }

  /** States joined by steps. */
  ghost predicate RunFrom(a: Action, s: State, states: seq<State>, steps: seq<Step>) {
    && |states| == |steps| + 1
    && states[0] == s
    && forall i :: 0 <= i < |steps| ==> Enabled(a, states[i], steps[i]) && states[i + 1] == Apply(a, states[i], steps[i])
  }

  /** A run starts from the empty table. */
  ghost predicate Run(a: Action, states: seq<State>, steps: seq<Step>) {
    RunFrom(a, Init(), states, steps)
  }

  // ---- what is to be shown

  function Effects(requests: seq<Request>): nat {
    if requests == [] then 0 else Effects(requests[..|requests| - 1]) + (if requests[|requests| - 1] == Landed then 1 else 0)
  }

  ghost predicate AtMostOneExecutor(s: State) {
    forall p, q :: IsExecuting(s, p) && IsExecuting(s, q) ==> p == q
  }

  ghost predicate AtMostOnce(s: State) {
    AtMostOneExecutor(s) && Effects(s.requests) <= 1
  }

  // ---- the invariant

  /** Every request but the last is known never to have started. */
  ghost predicate OnlyLastOpen(requests: seq<Request>) {
    forall i :: 0 <= i < |requests| - 1 ==> requests[i] == Dead
  }

  ghost predicate AllDead(requests: seq<Request>) {
    forall i :: 0 <= i < |requests| ==> requests[i] == Dead
  }

  ghost predicate Inv(a: Action, s: State) {
    && OnlyLastOpen(s.requests)
    && AtMostOneExecutor(s)
    && (forall p :: IsExecuting(s, p) ==> s.owners[p].request + 1 == |s.requests| && s.requests[|s.requests| - 1] != Dead)
    && (s.row.None? ==> s.requests == [])
    && (s.row.Some? && s.row.value.status == RetryableFailed ==>
          AllDead(s.requests) && forall p :: !IsExecuting(s, p))
    && (s.row.Some? ==> |s.requests| <= s.row.value.attempt)
    && |s.requests| <= MaximumAttempts(a.retries)
  }

  lemma AnsweredKeepsInv(a: Action, s: State, p: Pid, answer: Answer)
    requires a.external && Inv(a, s) && Enabled(a, s, Answered(p, answer))
    ensures Inv(a, Apply(a, s, Answered(p, answer)))
  {
    var s' := Apply(a, s, Answered(p, answer));
    forall q | IsExecuting(s', q) ensures IsExecuting(s, q) && q != p { }
    assert forall q :: !IsExecuting(s', q) by {
      assert IsExecuting(s, p);
    }
  }

  lemma EnterKeepsInv(a: Action, s: State, p: Pid, now: int, leaseUntil: int)
    requires a.external && Inv(a, s) && Enabled(a, s, Enter(p, now, leaseUntil))
    ensures Inv(a, Apply(a, s, Enter(p, now, leaseUntil)))
  {
    var s' := Apply(a, s, Enter(p, now, leaseUntil));
    forall q | IsExecuting(s', q) ensures q == p || IsExecuting(s, q) { }
  }

  lemma StepKeepsInv(a: Action, s: State, step: Step)
    requires a.external && Inv(a, s) && Enabled(a, s, step)
    ensures Inv(a, Apply(a, s, step))
  {
    var s' := Apply(a, s, step);
    match step {
      case Answered(p, answer) => AnsweredKeepsInv(a, s, p, answer);
      case Enter(p, now, leaseUntil) => EnterKeepsInv(a, s, p, now, leaseUntil);
      case _ =>
        forall q | IsExecuting(s', q) ensures IsExecuting(s, q) { }
    }
  }

  lemma OnlyLastOpenEffects(requests: seq<Request>)
    requires OnlyLastOpen(requests)
    ensures Effects(requests) <= 1
  {
    if requests != [] {
      AllDeadEffects(requests[..|requests| - 1]);
    }
  }

  lemma AllDeadEffects(requests: seq<Request>)
    requires AllDead(requests)
    ensures Effects(requests) == 0
  {
  }

  lemma {:induction false} InvAlong(a: Action, states: seq<State>, steps: seq<Step>, i: nat)
    requires a.external && Run(a, states, steps) && i < |states|
    ensures Inv(a, states[i])
  {
    if i > 0 {
      InvAlong(a, states, steps, i - 1);
      StepKeepsInv(a, states[i - 1], steps[i - 1]);
    }
  }

  /** For an external write: never two executors, never two effects, never more calls than attempts. */
  lemma ExternalWriteAtMostOnce(a: Action, states: seq<State>, steps: seq<Step>)
    requires a.external && Run(a, states, steps)
    ensures forall i :: 0 <= i < |states| ==>
              AtMostOnce(states[i]) && |states[i].requests| <= Max(1, a.retries + 1)
  {
    forall i | 0 <= i < |states|
      ensures AtMostOnce(states[i]) && |states[i].requests| <= Max(1, a.retries + 1)
    {
      InvAlong(a, states, steps, i);
      OnlyLastOpenEffects(states[i].requests);
    }
  }

  /** A row that invites a retry: nothing is running and nothing has happened or still can. */
  lemma RetryableMeansUntouched(a: Action, states: seq<State>, steps: seq<Step>, i: nat)
    requires a.external && Run(a, states, steps) && i < |states|
    requires states[i].row.Some? && states[i].row.value.status == RetryableFailed
    ensures Effects(states[i].requests) == 0
    ensures forall p :: !IsExecuting(states[i], p)
    ensures forall r :: 0 <= r < |states[i].requests| ==> states[i].requests[r] == Dead
  {
    InvAlong(a, states, steps, i);
    AllDeadEffects(states[i].requests);
  }

  // ---- the exact condition

  /** A lookup (`po.get`) whose lease runs out is executed again while the first call is out. */
  lemma LookupRunsTwice(a: Action) returns (states: seq<State>, steps: seq<Step>)
    requires !a.external
    ensures Run(a, states, steps) && !AtMostOneExecutor(states[|states| - 1])
    ensures Effects(states[|states| - 1].requests) == 2
  {
    var row0 := Row(Pending, PendingResult(), Some(60), 1);
    var row1 := Row(Pending, PendingResult(), Some(121), 2);
    var first := map[0 := Owner.Owner(Executing, 0)];
    var both := map[0 := Owner.Owner(Executing, 0), 1 := Owner.Owner(Executing, 1)];
    var s1, s2 := State(Some(row0), first, [Sent]), State(Some(row1), both, [Sent, Sent]);
    var s3, s4 := s2.(requests := [Landed, Sent]), s2.(requests := [Landed, Landed]);
    assert s1 == Apply(a, Init(), Enter(0, 0, 60));
    SecondLookup(a, s1, s2);
    assert s3 == Apply(a, s2, Land(0));
    assert s4 == Apply(a, s3, Land(1));
    states, steps := [Init(), s1, s2, s3, s4], [Enter(0, 0, 60), Enter(1, 61, 121), Land(0), Land(1)];
    assert IsExecuting(s4, 0) && IsExecuting(s4, 1);
    TwoLanded();
  }

  lemma SecondLookup(a: Action, s1: State, s2: State)
    requires !a.external
    requires s1 == State(Some(Row(Pending, PendingResult(), Some(60), 1)), map[0 := Owner.Owner(Executing, 0)], [Sent])
    requires s2 == State(Some(Row(Pending, PendingResult(), Some(121), 2)),
                         map[0 := Owner.Owner(Executing, 0), 1 := Owner.Owner(Executing, 1)], [Sent, Sent])
    ensures Enabled(a, s1, Enter(1, 61, 121)) && s2 == Apply(a, s1, Enter(1, 61, 121))
  {
    assert s1.owners[1 := Owner.Owner(Executing, 1)] == s2.owners;
  }

  lemma TwoLanded()
    ensures Effects([Landed, Landed]) == 2
  {
    assert [Landed, Landed][..1] == [Landed];
    assert [Landed][..0] == [];
    assert Effects([Landed]) == 1;
  }

  ghost predicate SafeForEveryRun(a: Action) {
    forall states, steps :: Run(a, states, steps) ==> forall i :: 0 <= i < |states| ==> AtMostOnce(states[i])
  }

  /** At most once over every run: exactly the actions that the gateway classifies as external writes. */
  lemma AtMostOnceExactlyForExternalWrites(a: Action)
    ensures SafeForEveryRun(a) <==> a.external
  {
    if a.external {
      forall states, steps | Run(a, states, steps)
        ensures forall i :: 0 <= i < |states| ==> AtMostOnce(states[i])
      {
        ExternalWriteAtMostOnce(a, states, steps);
      }
    } else {
      var states, steps := LookupRunsTwice(a);
      assert !AtMostOnce(states[|states| - 1]);
    }
  }

  // ---- one process

  /** With one process nothing intervenes between `readFinal` and the write that follows it. */
  ghost predicate SoloRun(a: Action, states: seq<State>, steps: seq<Step>) {
    && Run(a, states, steps)
    && forall i :: 0 <= i < |steps| ==>
         && (!steps[i].Land? ==> steps[i].pid == 0)
         && (steps[i].Deny? || steps[i].Enter? ==> FinalOf(states[i].row).None?)
  }

  ghost predicate SoloInv(s: State) {
    && s.owners.Keys <= {0}
    && (0 in s.owners && s.owners[0].flight != Done ==> s.row.Some? && s.row.value.status in {Pending, Recovering})
  }

  lemma {:induction false} SoloInvAlong(a: Action, states: seq<State>, steps: seq<Step>, i: nat)
    requires SoloRun(a, states, steps) && i < |states|
    ensures SoloInv(states[i])
  {
    if i > 0 {
      SoloInvAlong(a, states, steps, i - 1);
      var s, step := states[i - 1], steps[i - 1];
      match step {
        case Enter(p, now, leaseUntil) =>
          var (row', reservation) := Reserve(s.row, now, leaseUntil, a.retries, a.external);
          assert reservation.Owner? ==> row'.status in {Pending, Recovering};
        case _ =>
      }
    }
  }

  /** Within one process, across crashes and restarts, a final row never changes again. */
  lemma {:induction false} SoloFinalIsAbsorbing(a: Action, states: seq<State>, steps: seq<Step>, i: nat, j: nat)
    requires SoloRun(a, states, steps) && i <= j < |states|
    requires FinalOf(states[i].row).Some?
    ensures states[j].row == states[i].row
    decreases j
  {
    if i < j {
      SoloFinalIsAbsorbing(a, states, steps, i, j - 1);
      SoloInvAlong(a, states, steps, j - 1);
    }
  }

  /** ... so every later call of `execute` answers with that stored result and starts nothing. */
  lemma SoloLaterCallsReplay(a: Action, states: seq<State>, steps: seq<Step>, i: nat, j: nat, call: Call, flight: Option<Flight>)
    requires SoloRun(a, states, steps) && i <= j < |states|
    requires FinalOf(states[i].row).Some?
    ensures BeginSpec(states[j].row, flight, call)
         == (states[i].row, flight, Stored(FinalOf(states[i].row).value.(replayed := true)))
  {
    SoloFinalIsAbsorbing(a, states, steps, i, j);
  }

  // ---- when a final row is never overwritten

  /** An execution knows its request. */
  ghost predicate Formed(s: State) {
    forall p :: IsExecuting(s, p) ==> s.owners[p].request < |s.requests|
  }

  lemma StepKeepsFormed(a: Action, s: State, step: Step)
    requires Formed(s) && Enabled(a, s, step)
    ensures Formed(Apply(a, s, step))
  {
    var s' := Apply(a, s, step);
    forall p | IsExecuting(s', p) ensures s'.owners[p].request < |s'.requests| {
      assert IsExecuting(s, p) || (step.Enter? && step.pid == p);
    }
  }

  lemma {:induction false} FormedAlong(a: Action, states: seq<State>, steps: seq<Step>, i: nat)
    requires Run(a, states, steps) && i < |states|
    ensures Formed(states[i])
  {
    if i > 0 {
      FormedAlong(a, states, steps, i - 1);
      StepKeepsFormed(a, states[i - 1], steps[i - 1]);
    }
  }

  /** Nobody is left who will still write: every execution has stored its result or failed to. */
  ghost predicate AllDone(s: State) {
    forall p :: p in s.owners ==> s.owners[p].flight == Done
  }

  ghost predicate NoDenials(steps: seq<Step>) {
    forall i :: 0 <= i < |steps| ==> !steps[i].Deny?
  }

  /** Whatever follows, the row stays as it is; calls that are denied may be left out. */
  ghost predicate RowStays(a: Action, s: State, denials: bool) {
    forall states: seq<State>, steps :: RunFrom(a, s, states, steps) && (denials || NoDenials(steps)) ==>
      forall i :: 0 <= i < |states| ==> states[i].row == s.row
  }

  /** The row a denied call writes when a final row is already there. */
  function DeniedRow(row: Row): Row {
    Row(Failed, DeniedResult(), None, row.attempt)
  }

  /** With every execution done, the only step that writes over a final row is a denial. */
  lemma DoneStep(a: Action, s: State, step: Step)
    requires FinalOf(s.row).Some? && AllDone(s) && Enabled(a, s, step)
    ensures AllDone(Apply(a, s, step))
    ensures Apply(a, s, step).row == (if step.Deny? then Some(DeniedRow(s.row.value)) else s.row)
  {
  }

  lemma {:induction false} DoneAlong(a: Action, s: State, states: seq<State>, steps: seq<Step>, i: nat)
    requires FinalOf(s.row).Some? && AllDone(s) && RunFrom(a, s, states, steps) && i < |states|
    requires NoDenials(steps) || s.row.value == DeniedRow(s.row.value)
    ensures states[i].row == s.row && AllDone(states[i])
  {
    if i > 0 {
      DoneAlong(a, s, states, steps, i - 1);
      DoneStep(a, states[i - 1], steps[i - 1]);
    }
  }

  lemma OneStep(a: Action, s: State, step: Step)
    requires Enabled(a, s, step) && Apply(a, s, step).row != s.row
    ensures !RowStays(a, s, true) && (!step.Deny? ==> !RowStays(a, s, false))
  {
    var states, steps := [s, Apply(a, s, step)], [step];
    assert RunFrom(a, s, states, steps) && states[1].row != s.row;
  }

  /** An execution that is not done can still store two different results, and the row is at most one of them. */
  lemma LateWrite(a: Action, s: State, p: Pid) returns (step: Step)
    requires Formed(s) && FinalOf(s.row).Some? && p in s.owners && s.owners[p].flight != Done
    ensures Enabled(a, s, step) && !step.Deny? && Apply(a, s, step).row != s.row
  {
    if s.owners[p].flight == Executing {
      assert IsExecuting(s, p);
      step := Answered(p, Answer(true, "a", false, false));
      if Apply(a, s, step).row == s.row {
        step := Answered(p, Answer(true, "b", false, false));
      }
    } else {
      step := Verified(p, true, "a");
      if Apply(a, s, step).row == s.row {
        step := Verified(p, true, "b");
      }
    }
  }

  /** No call but a denied one ever overwrites a final row, if and only if every execution of its key is done. */
  lemma FinalStaysExactlyWhenDone(a: Action, s: State)
    requires Formed(s) && FinalOf(s.row).Some?
    ensures RowStays(a, s, false) <==> AllDone(s)
  {
    if AllDone(s) {
      forall states: seq<State>, steps | RunFrom(a, s, states, steps) && NoDenials(steps)
        ensures forall i :: 0 <= i < |states| ==> states[i].row == s.row
      {
        forall i | 0 <= i < |states| ensures states[i].row == s.row {
          DoneAlong(a, s, states, steps, i);
        }
      }
    } else {
      var p :| p in s.owners && s.owners[p].flight != Done;
      var step := LateWrite(a, s, p);
      OneStep(a, s, step);
    }
  }

  lemma {:induction false} SomePidIsNew(pids: set<Pid>) returns (p: Pid)
    ensures forall q :: q in pids ==> q < p
  {
    p := 0;
    if pids != {} {
      var q :| q in pids;
      var r := SomePidIsNew(pids - {q});
      p := Max(q + 1, r);
      assert forall other :: other in pids ==> other == q || other in pids - {q};
    }
  }

  /**
   A denied call writes without looking: once it is past `readFinal` it overwrites a final row that came in
   between. So with denials a final row stays exactly if, besides, it already is the row a denial writes.
   */
  lemma FinalStaysDespiteDenials(a: Action, s: State)
    requires Formed(s) && FinalOf(s.row).Some?
    ensures RowStays(a, s, true) <==> AllDone(s) && s.row.value == DeniedRow(s.row.value)
  {
    if AllDone(s) && s.row.value == DeniedRow(s.row.value) {
      forall states: seq<State>, steps | RunFrom(a, s, states, steps)
        ensures forall i :: 0 <= i < |states| ==> states[i].row == s.row
      {
        forall i | 0 <= i < |states| ensures states[i].row == s.row {
          DoneAlong(a, s, states, steps, i);
        }
      }
    } else if !AllDone(s) {
      var p :| p in s.owners && s.owners[p].flight != Done;
      var step := LateWrite(a, s, p);
      OneStep(a, s, step);
    } else {
      var p := SomePidIsNew(s.owners.Keys);
      OneStep(a, s, Deny(p));
    }
  }

  /** Two processes are enough to reach a state that fails this: a late owner overwrites the row its recoverer closed. */
  lemma FinalRowsCanBeOverwritten(a: Action) returns (states: seq<State>, steps: seq<Step>)
    requires a.external
    ensures Run(a, states, steps)
    ensures exists i, j :: 0 <= i < j < |states| && FinalOf(states[i].row).Some? && states[j].row != states[i].row
  {
    var enter0, enter1 := Enter(0, 0, 60), Enter(1, 61, 121);
    var verify, late := Verified(1, false, ""), Answered(0, Answer(true, "", false, false));
    var s0 := Init();
    var s1 := Apply(a, s0, enter0);
    var s2 := Apply(a, s1, enter1);
    var s3 := Apply(a, s2, verify);
    var s4 := Apply(a, s3, late);
    states, steps := [s0, s1, s2, s3, s4], [enter0, enter1, verify, late];
    assert states[3].row.value.status == ManualReconciliation && states[4].row.value.status == Completed;
    assert 0 <= 3 < 4 < |states| && FinalOf(states[3].row).Some? && states[4].row != states[3].row;
  }

  // ---- the class takes these steps

  /** What one process sees of the protocol's state. */
  function FlightOf(s: State, p: Pid): Option<Flight> {
    if p in s.owners then Some(s.owners[p].flight) else None
  }

  /** One `Gateway.Begin` is no step or one step of the protocol, whatever the other processes hold. */
  lemma BeginIsAStep(a: Action, s: State, p: Pid, call: Call) returns (step: Option<Step>)
    requires call.retries == a.retries && call.external == a.external
    ensures var (row', flight', entry) := BeginSpec(s.row, FlightOf(s, p), call);
            match step
            case None => row' == s.row && flight' == FlightOf(s, p) && !entry.Started?
            case Some(st) =>
              && (st.Deny? || st.Enter?) && st.pid == p && Enabled(a, s, st)
              && FinalOf(s.row).None?
              && Apply(a, s, st).row == row' && FlightOf(Apply(a, s, st), p) == flight'
              && (forall q :: q != p ==> FlightOf(Apply(a, s, st), q) == FlightOf(s, q))
  {
    if FinalOf(s.row).Some? || p in s.owners {
      step := None;
    } else if !call.allowed {
      step := Some(Deny(p));
    } else {
      step := Some(Enter(p, call.now, call.leaseUntil));
    }
  }
}
