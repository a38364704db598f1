/**
 The single entry point for real-world writes: one durable row per (tenant, idempotency key), a
 lease on it, and per process the map of executions that have not settled yet.

 `execute` is asynchronous; it is cut here at its `await`s. `Begin` is everything up to the first
 one, `Settle` is what runs when the connector has answered, `SettleReconciliation` what runs when
 the read-only verification has answered, and `Release` is the `finally` that clears the map.
 The row functions `Reserve`, `Store` and `Classify` are shared with GatewayProtocol, which lets any
 number of processes interleave these pieces.
 */
module ActionGateway {
  import opened Basics

  datatype ActionResult = ActionResult(ok: bool, text: string, retryable: bool, manual: bool, replayed: bool)

  datatype Status = Pending | Recovering | RetryableFailed | Completed | Failed | ManualReconciliation

  datatype Row = Row(status: Status, result: ActionResult, lease: Option<int>, attempt: nat)

  predicate Terminal(status: Status) {
    status.Completed? || status.Failed? || status.ManualReconciliation?
  }

  function PendingResult(): ActionResult {
    ActionResult(false, "in progress", false, false, false)
  }

  /** What `readFinal` sees: the stored result of a terminal row. */
  function FinalOf(row: Option<Row>): Option<ActionResult> {
    if row.Some? && Terminal(row.value.status) then Some(row.value.result) else None
  }

  function StatusOf(result: ActionResult): Status {
    if result.manual then ManualReconciliation
    else if result.ok then Completed
    else if result.retryable then RetryableFailed
    else Failed
  }

  /** The unconditional upsert of `storeFinal`; only an insert sets the attempt. */
  function Store(row: Option<Row>, result: ActionResult): Row {
    Row(StatusOf(result), result, None, if row.Some? then row.value.attempt else 1)
  }

  datatype Reservation = Owner(recovery: bool) | Replay(result: ActionResult) | Busy

  function MaximumAttempts(retries: int): int {
    Max(1, retries + 1)
  }

  /** The transaction of `reserve`: the row it leaves and what it tells the caller. */
  function Reserve(row: Option<Row>, now: int, leaseUntil: int, retries: int, external: bool): (Row, Reservation) {
    if row.None? then
      (Row(Pending, PendingResult(), Some(leaseUntil), 1), Owner(false))
    else
      var r := row.value;
      if Terminal(r.status) then
        (r, Replay(r.result))
      else if r.status.RetryableFailed? then
        if Max(1, r.attempt) >= MaximumAttempts(retries) then
          var exhausted := r.result.(retryable := false);
          (Row(Failed, exhausted, None, r.attempt), Replay(exhausted))
        else
          (r.(status := Pending, lease := Some(leaseUntil), attempt := Max(1, r.attempt) + 1), Owner(false))
      else if r.lease.Some? && r.lease.value > now then
        (r, Busy)
      else
        (Row(if external then Recovering else Pending, PendingResult(), Some(leaseUntil), Max(1, r.attempt) + 1),
         Owner(external))
  }

  /** A connector's answer, returned or thrown; the last two flags are the two error-text patterns. */
  datatype Answer = Answer(ok: bool, text: string, uncertain: bool, safelyRetryable: bool)

  datatype Verdict = NeedsReconciliation | Settled(result: ActionResult)

  /** `executeReserved` after the connector call: the uncertain pattern is tested first. */
  function Classify(external: bool, answer: Answer): Verdict {
    if !answer.ok && external && answer.uncertain then NeedsReconciliation
    else Settled(ActionResult(answer.ok, answer.text, !answer.ok && answer.safelyRetryable, false, false))
  }

  /** `reconcileUncertainExternalWrite`: confirmed, or fail closed to manual reconciliation. */
  function Reconciled(confirmed: bool, text: string, replayed: bool): ActionResult {
    if confirmed then ActionResult(true, text, false, false, replayed)
    else ActionResult(false, text, false, true, false)
  }

  datatype Flight = Executing | Reconciling(replayed: bool) | Done

  datatype Call = Call(key: string, now: int, leaseUntil: int, retries: int, external: bool, allowed: bool)

  datatype Entry =
    | Stored(result: ActionResult)      // a final row, or the row a reservation refused to give away
    | Joined                            // the same process is already executing this key
    | Denied(result: ActionResult)
    | InProgress
    | Started(flight: Flight)

  function DeniedResult(): ActionResult {
    ActionResult(false, "permission denied", false, false, false)
  }

  /** What one synchronous stretch of `execute` does to the row and to the in-flight entry of its key. */
  function BeginSpec(row: Option<Row>, flight: Option<Flight>, call: Call): (Option<Row>, Option<Flight>, Entry) {
    if FinalOf(row).Some? then (row, flight, Stored(FinalOf(row).value.(replayed := true)))
    else if flight.Some? then (row, flight, Joined)
    else if !call.allowed then (Some(Store(row, DeniedResult())), None, Denied(DeniedResult()))
    else
      var (row', reservation) := Reserve(row, call.now, call.leaseUntil, call.retries, call.external);
      match reservation
      case Replay(result) => (Some(row'), None, Stored(result.(replayed := true)))
      case Busy => (Some(row'), None, InProgress)
      case Owner(recovery) =>
        var started := if recovery then Reconciling(true) else Executing;
        (Some(row'), Some(started), Started(started))
  }

  function Lookup<T>(m: map<string, T>, key: string): Option<T> {
    if key in m then Some(m[key]) else None
  }

  /** One process: the shared table it writes and the executions it has not seen settle. */
  class Gateway {
    var rows: map<string, Row>
    var inFlight: map<string, Flight>

    constructor (table: map<string, Row>)
      ensures rows == table && inFlight == map[]
    {
      rows, inFlight := table, map[];
    }

    method ReadFinal(key: string) returns (final: Option<ActionResult>)
      ensures final == FinalOf(Lookup(rows, key))
    {
      final := None;
      if key in rows && rows[key].status in {Completed, Failed, ManualReconciliation} {
        final := Some(rows[key].result);
      }
    }

    method StoreFinal(key: string, result: ActionResult)
      modifies this`rows
      ensures rows == old(rows)[key := Store(Lookup(old(rows), key), result)]
    {
      var status := if result.manual then ManualReconciliation
                    else if result.ok then Completed
                    else if result.retryable then RetryableFailed
                    else Failed;
      if key in rows {
        rows := rows[key := rows[key].(status := status, result := result, lease := None)];
      } else {
        rows := rows[key := Row(status, result, None, 1)];
      }
    }

    method ReserveRow(call: Call) returns (reservation: Reservation)
      modifies this`rows
      ensures var (row', given) := Reserve(Lookup(old(rows), call.key), call.now, call.leaseUntil, call.retries, call.external);
              rows == old(rows)[call.key := row'] && reservation == given
    {
      if call.key !in rows {
        rows := rows[call.key := Row(Pending, PendingResult(), Some(call.leaseUntil), 1)];
        return Owner(false);
      }
      var row := rows[call.key];
      if Terminal(row.status) {
        return Replay(row.result);
      }
      if row.status == RetryableFailed {
        if Max(1, row.attempt) >= Max(1, call.retries + 1) {
          var exhausted := row.result.(retryable := false);
          rows := rows[call.key := row.(status := Failed, result := exhausted, lease := None)];
          return Replay(exhausted);
        }
        rows := rows[call.key := row.(status := Pending, lease := Some(call.leaseUntil), attempt := Max(1, row.attempt) + 1)];
        return Owner(false);
      }
      if row.lease.Some? && row.lease.value > call.now {
        return Busy;
      }
      rows := rows[call.key := Row(if call.external then Recovering else Pending, PendingResult(),
                                   Some(call.leaseUntil), Max(1, row.attempt) + 1)];
      return Owner(call.external);
    }

    method Begin(call: Call) returns (entry: Entry)
      modifies this
      ensures (Lookup(rows, call.key), Lookup(inFlight, call.key), entry)
           == BeginSpec(Lookup(old(rows), call.key), Lookup(old(inFlight), call.key), call)
      ensures forall other :: other != call.key ==>
        Lookup(rows, other) == Lookup(old(rows), other) && Lookup(inFlight, other) == Lookup(old(inFlight), other)
      ensures entry.Stored? ==>
                call.key in rows && Terminal(rows[call.key].status) && entry.result == rows[call.key].result.(replayed := true)
      ensures entry.Joined? ==> call.key in old(inFlight) && rows == old(rows) && inFlight == old(inFlight)
      ensures entry.Denied? ==>
                && !call.allowed && call.key in rows && rows[call.key].status == Failed
                && !entry.result.ok && rows[call.key].result == entry.result
      ensures entry.InProgress? ==> call.key in rows && rows[call.key].lease.Some? && rows[call.key].lease.value > call.now
      ensures entry.Started? ==>
                && call.allowed && call.key in rows && rows[call.key].status in {Pending, Recovering}
                && rows[call.key].lease == Some(call.leaseUntil) && Lookup(inFlight, call.key) == Some(entry.flight)
    {
      var final := ReadFinal(call.key);
      if final.Some? {
        return Stored(final.value.(replayed := true));
      }
      if call.key in inFlight {
        return Joined;
      }
      if !call.allowed {
        StoreFinal(call.key, DeniedResult());
        return Denied(DeniedResult());
      }
      var reservation := ReserveRow(call);
      match reservation {
        case Replay(result) => entry := Stored(result.(replayed := true));
        case Busy => entry := InProgress;
        case Owner(recovery) =>
          var started := if recovery then Reconciling(true) else Executing;
          inFlight := inFlight[call.key := started];
          entry := Started(started);
      }
    }

    /** The connector has answered: store a result, or go on to the read-only verification. */
    method Settle(key: string, external: bool, answer: Answer)
      requires key in inFlight && inFlight[key] == Executing
      modifies this
      ensures match Classify(external, answer)
              case NeedsReconciliation => rows == old(rows) && inFlight == old(inFlight)[key := Reconciling(false)]
              case Settled(result) =>
                && rows == old(rows)[key := Store(Lookup(old(rows), key), result)]
                && inFlight == old(inFlight)[key := Done]
      ensures answer.ok ==> key in rows && rows[key].status == Completed && rows[key].result.ok
      ensures inFlight[key] == Done && !answer.ok ==>
                && key in rows && !rows[key].result.ok && rows[key].result.text == answer.text
                && rows[key].status == (if answer.safelyRetryable then RetryableFailed else Failed)
      ensures inFlight[key].Reconciling? <==> !answer.ok && answer.uncertain && external
    {
      if !answer.ok && external && answer.uncertain {
        inFlight := inFlight[key := Reconciling(false)];
        return;
      }
      StoreFinal(key, ActionResult(answer.ok, answer.text, !answer.ok && answer.safelyRetryable, false, false));
      inFlight := inFlight[key := Done];
    }

    method SettleReconciliation(key: string, confirmed: bool, text: string)
      requires key in inFlight && inFlight[key].Reconciling?
      modifies this
      ensures rows == old(rows)[key := Store(Lookup(old(rows), key), Reconciled(confirmed, text, old(inFlight)[key].replayed))]
      ensures inFlight == old(inFlight)[key := Done]
      ensures key in rows && rows[key].lease == None && rows[key].result.text == text
      ensures rows[key].status == (if confirmed then Completed else ManualReconciliation)
      ensures rows[key].result.ok == confirmed && !rows[key].result.retryable
      ensures confirmed ==> rows[key].result.replayed == old(inFlight)[key].replayed
    {
      if confirmed {
        StoreFinal(key, ActionResult(true, text, false, false, inFlight[key].replayed));
      } else {
        StoreFinal(key, ActionResult(false, text, false, true, false));
      }
      inFlight := inFlight[key := Done];
    }

    /** The `finally` of `execute`. */
    method Release(key: string)
      modifies this`inFlight
      ensures inFlight == old(inFlight) - {key}
    {
      inFlight := inFlight - {key};
    }
  }
}
