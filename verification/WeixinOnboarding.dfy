/** QR onboarding sessions on one event loop. */
module WeixinOnboarding {
  // Coroutines interleave wherever they `await`: while a QR code is fetched or polled, while an account
  // is applied, and while a record's lock is taken. The registry lock is only ever held between two
  // awaits, so each step below is one stretch of code that runs without interruption. A step may be
  // taken by any suspended coroutine at any time, and a coroutine may be aborted at any suspension.

  import opened Basics

  datatype Status = Waiting | Scanned | Expired | Error | Ready | Applying | Cancelled

  datatype Session = Session(pair: string, profile: string, status: Status, refreshes: nat, credentials: Option<string>, qrcode: string)

  /** Where a coroutine is suspended. From `RefreshFirst`, `Polling` and `RefreshLast` it holds the record's lock. */
  datatype Point = WantStatus | RefreshFirst | Polling | RefreshLast | WantApply | InApply | WantUndo | WantDone

  datatype Task = Task(point: Point, record: nat)

  /** `records` are all sessions ever made; `sessions` is the registry; `holder` says who has a record's lock. */
  datatype State = State(sessions: map<string, nat>, records: seq<Session>, tasks: map<nat, Task>, holder: map<nat, nat>)

  datatype Reply = TimedOut | Wait | Scan | QrExpired | Confirmed(credentials: Option<string>) | Unknown | Failed

  datatype Step =
    | StartDone(profile: string, pair: string, qrcode: string)
    | Lookup(task: nat, pair: string, profile: string, apply: bool)
    | Acquire(task: nat, late: bool)
    | Fetched(task: nat, fetched: Option<string>)
    | Polled(task: nat, reply: Reply)
    | ApplyFinished(task: nat, ok: bool)
    | Cancel(pair: string, profile: string)
    | Abort(task: nat)

  predicate Holds(point: Point) {
    point.RefreshFirst? || point.Polling? || point.RefreshLast?
  }

  predicate Wants(point: Point) {
    point.WantStatus? || point.WantApply? || point.WantUndo? || point.WantDone?
  }

  /** `apply` has read the credentials and has not yet finished with the record. */
  predicate InFlight(point: Point) {
    point.InApply? || point.WantUndo? || point.WantDone?
  }

  function Init(): State {
    State(map[], [], map[], map[])
  }

  predicate Enabled(s: State, step: Step) {
    match step
    case StartDone(_, pair, _) => forall i :: 0 <= i < |s.records| ==> s.records[i].pair != pair
    case Lookup(t, pair, profile, _) =>
      t !in s.tasks && pair in s.sessions && s.sessions[pair] < |s.records| && s.records[s.sessions[pair]].profile == profile
    case Acquire(t, _) => Suspended(s, t) && Wants(s.tasks[t].point) && s.tasks[t].record !in s.holder
    case Fetched(t, _) => Suspended(s, t) && (s.tasks[t].point.RefreshFirst? || s.tasks[t].point.RefreshLast?)
    case Polled(t, _) => Suspended(s, t) && s.tasks[t].point.Polling?
    case ApplyFinished(t, _) => Suspended(s, t) && s.tasks[t].point.InApply?
    case Cancel(pair, profile) =>
      pair in s.sessions && s.sessions[pair] < |s.records| && s.records[s.sessions[pair]].profile == profile
    case Abort(t) => Suspended(s, t)
  }

  predicate Suspended(s: State, t: nat) {
    t in s.tasks && s.tasks[t].record < |s.records|
  }

  /** The coroutine returns or raises; a lock it holds is released. */
  function Leave(s: State, t: nat): State
    requires t in s.tasks
  {
    var r := s.tasks[t].record;
    s.(tasks := s.tasks - {t}, holder := if Holds(s.tasks[t].point) then s.holder - {r} else s.holder)
  }

  function At(s: State, t: nat, point: Point): State
    requires t in s.tasks
  {
    var r := s.tasks[t].record;
    s.(tasks := s.tasks[t := Task(point, r)], holder := if Holds(point) then s.holder[r := t] else s.holder)
  }

  function Set(s: State, r: nat, session: Session): State
    requires r < |s.records|
  {
    s.(records := s.records[r := session])
  }

  function AsCancelled(session: Session): Session {
    session.(status := Cancelled, credentials := None, qrcode := "")
  }

  predicate Registered(s: State, r: nat) {
    r < |s.records| && s.records[r].pair in s.sessions && s.sessions[s.records[r].pair] == r
  }

  /** `_ensure_active` */
  predicate Active(s: State, r: nat) {
    Registered(s, r) && s.records[r].status != Cancelled
  }

  predicate OfProfile(s: State, r: nat, profile: string) {
    r < |s.records| && s.records[r].profile == profile
  }

  /** The registry while `items` are still to be looked at. */
  function SweptSessions(s: State, items: set<string>, profile: string): map<string, nat> {
    map p | p in s.sessions && (p in items || !OfProfile(s, s.sessions[p], profile)) :: s.sessions[p]
  }

  function SweptRecords(s: State, items: set<string>, profile: string): seq<Session> {
    seq(|s.records|, i requires 0 <= i < |s.records| =>
      if Registered(s, i) && s.records[i].profile == profile && s.records[i].pair !in items
      then AsCancelled(s.records[i]) else s.records[i])
  }

  /** `start` cancels and forgets the profile's registered sessions and registers a new one. */
  function StartDoneState(s: State, profile: string, pair: string, qrcode: string): State {
    s.(sessions := SweptSessions(s, {}, profile)[pair := |s.records|],
       records := SweptRecords(s, {}, profile) + [Session(pair, profile, Waiting, 0, None, qrcode)])
  }

  /** The head of `_refresh`: give up, or suspend in `fetch_qr`. */
  function RefreshState(s: State, t: nat, point: Point, max: nat): State
    requires Suspended(s, t)
  {
    var r := s.tasks[t].record;
    if s.records[r].refreshes >= max then Leave(Set(s, r, s.records[r].(qrcode := "", status := Expired)), t)
    else At(s, t, point)
  }

  function AcquireState(s: State, t: nat, late: bool, max: nat): State
    requires Suspended(s, t)
  {
    var r := s.tasks[t].record;
    var record := s.records[r];
    match s.tasks[t].point
    case WantStatus =>
      if record.status in {Ready, Applying, Cancelled, Error} then Leave(s, t)
      else if late then RefreshState(s, t, RefreshFirst, max)
      else At(s, t, Polling)
    case WantApply =>
      if record.status != Ready || record.credentials.None? then Leave(s, t)
      else At(Set(s, r, record.(status := Applying)), t, InApply)
    case WantUndo =>
      Leave(if record.status == Applying then Set(s, r, record.(status := Ready)) else s, t)
    case WantDone =>
      var done := Set(s, r, record.(credentials := None, status := Cancelled));
      Leave(if Registered(s, r) then done.(sessions := s.sessions - {record.pair}) else done, t)
    case _ => s
  }

  function FetchedState(s: State, t: nat, qrcode: Option<string>): State
    requires Suspended(s, t)
  {
    var r := s.tasks[t].record;
    var record := s.records[r];
    if !Active(s, r) then Leave(s, t)
    else if qrcode.None? then Leave(Set(s, r, record.(status := Error)), t)
    else
      var renewed := Set(s, r, record.(qrcode := qrcode.value, refreshes := record.refreshes + 1, status := Waiting));
      if s.tasks[t].point.RefreshFirst? then At(renewed, t, Polling) else Leave(renewed, t)
  }

  function PolledState(s: State, t: nat, reply: Reply, max: nat): State
    requires Suspended(s, t)
  {
    var r := s.tasks[t].record;
    var record := s.records[r];
    if reply.Failed? || !Active(s, r) then Leave(s, t)
    else
      match reply
      case TimedOut => Leave(Set(s, r, record.(status := Waiting)), t)
      case Wait => Leave(Set(s, r, record.(status := Waiting)), t)
      case Scan => Leave(Set(s, r, record.(status := Scanned)), t)
      case QrExpired => RefreshState(s, t, RefreshLast, max)
      case Confirmed(credentials) =>
        if credentials.None? then Leave(Set(s, r, record.(status := Error)), t)
        else Leave(Set(s, r, record.(credentials := credentials, qrcode := "", status := Ready)), t)
      case _ => Leave(s, t)
  }

  function Apply(s: State, step: Step, max: nat): State
    requires Enabled(s, step)
  {
    match step
    case StartDone(profile, pair, qrcode) => StartDoneState(s, profile, pair, qrcode)
    case Lookup(t, pair, _, apply) => s.(tasks := s.tasks[t := Task(if apply then WantApply else WantStatus, s.sessions[pair])])
    case Acquire(t, late) => AcquireState(s, t, late, max)
    case Fetched(t, qrcode) => FetchedState(s, t, qrcode)
    case Polled(t, reply) => PolledState(s, t, reply, max)
    case ApplyFinished(t, ok) => At(s, t, if ok then WantDone else WantUndo)
    case Cancel(pair, _) =>
      var r := s.sessions[pair];
      if s.records[r].status == Applying then s
      else s.(records := s.records[r := AsCancelled(s.records[r])], sessions := s.sessions - {pair})
    case Abort(t) => Leave(s, t)
  }

  // ---- the invariant

  ghost predicate RecordsInv(s: State, max: nat) {
    && (forall p :: p in s.sessions ==> s.sessions[p] < |s.records| && s.records[s.sessions[p]].pair == p)
    && (forall i, j :: 0 <= i < j < |s.records| ==> s.records[i].pair != s.records[j].pair)
    && (forall i :: 0 <= i < |s.records| ==> SessionInv(s, i, max))
    && (forall p, q :: p in s.sessions && q in s.sessions && s.records[s.sessions[p]].profile == s.records[s.sessions[q]].profile ==> p == q)
  }

  /** Credentials exactly while ready or applying; registered exactly until cancelled. */
  ghost predicate SessionInv(s: State, i: nat, max: nat)
    requires i < |s.records|
  {
    && (s.records[i].credentials.Some? <==> s.records[i].status in {Ready, Applying})
    && (Registered(s, i) <==> s.records[i].status != Cancelled)
    && s.records[i].refreshes <= max
  }

  /** What a suspended coroutine may count on. */
  ghost predicate TaskInv(s: State, t: nat, max: nat)
    requires t in s.tasks
  {
    var r := s.tasks[t].record;
    && r < |s.records|
    && (Holds(s.tasks[t].point) <==> r in s.holder && s.holder[r] == t)
    && (Holds(s.tasks[t].point) ==> s.records[r].status !in {Ready, Applying})
    && (InFlight(s.tasks[t].point) ==> s.records[r].status in {Applying, Cancelled})
    && (s.tasks[t].point in {RefreshFirst, RefreshLast} ==> s.records[r].refreshes < max)
  }

  ghost predicate BothInFlight(s: State, t: nat, u: nat) {
    && t in s.tasks && u in s.tasks && s.tasks[t].record == s.tasks[u].record
    && InFlight(s.tasks[t].point) && InFlight(s.tasks[u].point)
  }

  ghost predicate TasksInv(s: State, max: nat) {
    && (forall t :: t in s.tasks ==> TaskInv(s, t, max))
    && (forall t, u :: BothInFlight(s, t, u) ==> t == u)
    && (forall r :: r in s.holder ==> s.holder[r] in s.tasks && s.tasks[s.holder[r]].record == r)
  }

  ghost predicate Inv(s: State, max: nat) {
    RecordsInv(s, max) && TasksInv(s, max)
  }

  // ---- each step keeps it: the registry

  /** Changing a session in place, without cancelling it and without moving it to another pair or profile. */
  lemma UpdateKeepsRecords(s: State, s': State, r: nat, max: nat)
    requires RecordsInv(s, max) && r < |s.records|
    requires s'.sessions == s.sessions && |s'.records| == |s.records|
    requires forall i :: 0 <= i < |s.records| && i != r ==> s'.records[i] == s.records[i]
    requires s'.records[r].pair == s.records[r].pair && s'.records[r].profile == s.records[r].profile
    requires s'.records[r].status == Cancelled <==> s.records[r].status == Cancelled
    requires s'.records[r].credentials.Some? <==> s'.records[r].status in {Ready, Applying}
    requires s'.records[r].refreshes <= max
    ensures RecordsInv(s', max)
  {
    forall i | 0 <= i < |s'.records| ensures SessionInv(s', i, max) {
      assert SessionInv(s, i, max);
    }
  }

  /** Cancelling a registered session and taking it off the registry. */
  lemma RemoveKeepsRecords(s: State, s': State, r: nat, max: nat)
    requires RecordsInv(s, max) && Registered(s, r)
    requires s'.sessions == s.sessions - {s.records[r].pair} && |s'.records| == |s.records|
    requires forall i :: 0 <= i < |s.records| && i != r ==> s'.records[i] == s.records[i]
    requires s'.records[r].pair == s.records[r].pair && s'.records[r].refreshes == s.records[r].refreshes
    requires s'.records[r].status == Cancelled && s'.records[r].credentials.None?
    ensures RecordsInv(s', max)
  {
    forall i | 0 <= i < |s'.records| ensures SessionInv(s', i, max) {
      assert SessionInv(s, i, max);
    }
  }

  lemma StartKeepsSession(s: State, profile: string, pair: string, qrcode: string, max: nat, i: nat)
    requires RecordsInv(s, max) && Enabled(s, StartDone(profile, pair, qrcode)) && i <= |s.records|
    ensures SessionInv(StartDoneState(s, profile, pair, qrcode), i, max)
  {
    if i < |s.records| {
      assert SessionInv(s, i, max);
      assert s.records[i].pair != pair;
    }
  }

  lemma StartKeepsRegistry(s: State, profile: string, pair: string, qrcode: string, max: nat, p: string)
    requires RecordsInv(s, max) && Enabled(s, StartDone(profile, pair, qrcode))
    requires p in StartDoneState(s, profile, pair, qrcode).sessions
    ensures var s' := StartDoneState(s, profile, pair, qrcode);
      && s'.sessions[p] < |s'.records| && s'.records[s'.sessions[p]].pair == p
      && (s'.records[s'.sessions[p]].profile == profile ==> p == pair)
      && (p != pair ==> p in s.sessions && s'.sessions[p] == s.sessions[p])
      && (p != pair ==> s'.records[s'.sessions[p]].profile == s.records[s.sessions[p]].profile)
  {
  }

  lemma StartKeepsRecords(s: State, profile: string, pair: string, qrcode: string, max: nat)
    requires RecordsInv(s, max) && Enabled(s, StartDone(profile, pair, qrcode))
    ensures RecordsInv(StartDoneState(s, profile, pair, qrcode), max)
  {
    var s' := StartDoneState(s, profile, pair, qrcode);
    forall i | 0 <= i < |s'.records| ensures SessionInv(s', i, max) {
      StartKeepsSession(s, profile, pair, qrcode, max, i);
    }
    forall p | p in s'.sessions ensures s'.sessions[p] < |s'.records| && s'.records[s'.sessions[p]].pair == p {
      StartKeepsRegistry(s, profile, pair, qrcode, max, p);
    }
    forall p, q | p in s'.sessions && q in s'.sessions && s'.records[s'.sessions[p]].profile == s'.records[s'.sessions[q]].profile
      ensures p == q
    {
      StartKeepsRegistry(s, profile, pair, qrcode, max, p);
      StartKeepsRegistry(s, profile, pair, qrcode, max, q);
    }
    forall i, j | 0 <= i < j < |s'.records| ensures s'.records[i].pair != s'.records[j].pair {
    }
  }

  lemma FetchedKeepsRecords(s: State, t: nat, fetched: Option<string>, max: nat)
    requires Inv(s, max) && Enabled(s, Fetched(t, fetched))
    ensures RecordsInv(FetchedState(s, t, fetched), max)
  {
    var r := s.tasks[t].record;
    assert SessionInv(s, r, max) && TaskInv(s, t, max);
    if Active(s, r) {
      UpdateKeepsRecords(s, FetchedState(s, t, fetched), r, max);
    } else {
      SameRecords(s, FetchedState(s, t, fetched), max);
    }
  }

  lemma PolledKeepsRecords(s: State, t: nat, reply: Reply, max: nat)
    requires Inv(s, max) && Enabled(s, Polled(t, reply))
    ensures RecordsInv(PolledState(s, t, reply, max), max)
  {
    var r := s.tasks[t].record;
    assert SessionInv(s, r, max) && TaskInv(s, t, max);
    PolledChangesOne(s, t, reply, max);
    UpdateKeepsRecords(s, PolledState(s, t, reply, max), r, max);
  }

  lemma PolledChangesOne(s: State, t: nat, reply: Reply, max: nat)
    requires Enabled(s, Polled(t, reply))
    ensures var s', r := PolledState(s, t, reply, max), s.tasks[t].record;
      && s'.sessions == s.sessions && |s'.records| == |s.records|
      && forall i :: 0 <= i < |s.records| && i != r ==> s'.records[i] == s.records[i]
  {
  }

  lemma CancelKeepsRecords(s: State, pair: string, profile: string, max: nat)
    requires RecordsInv(s, max) && Enabled(s, Cancel(pair, profile))
    ensures RecordsInv(Apply(s, Cancel(pair, profile), max), max)
  {
    var r := s.sessions[pair];
    if s.records[r].status != Applying {
      RemoveKeepsRecords(s, Apply(s, Cancel(pair, profile), max), r, max);
    }
  }

  lemma StepKeepsRecords(s: State, step: Step, max: nat)
    requires Inv(s, max) && Enabled(s, step)
    ensures RecordsInv(Apply(s, step, max), max)
  {
    match step {
      case StartDone(profile, pair, qrcode) => StartKeepsRecords(s, profile, pair, qrcode, max);
      case Cancel(pair, profile) => CancelKeepsRecords(s, pair, profile, max);
      case Acquire(t, late) => AcquireKeepsRecords(s, t, late, max);
      case Fetched(t, fetched) => FetchedKeepsRecords(s, t, fetched, max);
      case Polled(t, reply) => PolledKeepsRecords(s, t, reply, max);
      case _ => SameRecords(s, Apply(s, step, max), max);
    }
  }

  lemma SameRecords(s: State, s': State, max: nat)
    requires RecordsInv(s, max) && s'.sessions == s.sessions && s'.records == s.records
    ensures RecordsInv(s', max)
  {
    forall i | 0 <= i < |s'.records| ensures SessionInv(s', i, max) {
      assert SessionInv(s, i, max);
    }
  }

  lemma AcquireKeepsRecords(s: State, t: nat, late: bool, max: nat)
    requires Inv(s, max) && Enabled(s, Acquire(t, late))
    ensures RecordsInv(AcquireState(s, t, late, max), max)
  {
    var s', r := AcquireState(s, t, late, max), s.tasks[t].record;
    assert SessionInv(s, r, max) && TaskInv(s, t, max);
    if s.tasks[t].point == WantDone && Registered(s, r) {
      RemoveKeepsRecords(s, s', r, max);
    } else if s'.records == s.records {
      SameRecords(s, s', max);
    } else {
      UpdateKeepsRecords(s, s', r, max);
    }
  }

  // ---- each step keeps it: the coroutines

  /** Everything but what the running coroutine `t` may count on. */
  ghost predicate TasksInvBut(s: State, t: nat, max: nat) {
    && t in s.tasks && s.tasks[t].record < |s.records|
    && (Holds(s.tasks[t].point) <==> s.tasks[t].record in s.holder && s.holder[s.tasks[t].record] == t)
    && (forall u :: u in s.tasks && u != t ==> TaskInv(s, u, max))
    && (forall u, v :: BothInFlight(s, u, v) && u != t && v != t ==> u == v)
    && (forall r :: r in s.holder ==> s.holder[r] in s.tasks && s.tasks[s.holder[r]].record == r)
  }

  lemma LeaveRestores(s: State, t: nat, max: nat)
    requires TasksInvBut(s, t, max)
    ensures TasksInv(Leave(s, t), max)
  {
    var s' := Leave(s, t);
    forall u | u in s'.tasks ensures TaskInv(s', u, max) {
      assert TaskInv(s, u, max);
    }
    forall u, v | BothInFlight(s', u, v) ensures u == v {
      assert BothInFlight(s, u, v);
    }
  }

  lemma AtRestores(s: State, t: nat, point: Point, max: nat)
    requires TasksInvBut(s, t, max)
    requires var r := s.tasks[t].record;
      && (Holds(point) ==> (r in s.holder ==> s.holder[r] == t) && s.records[r].status !in {Ready, Applying})
      && (!Holds(point) ==> !Holds(s.tasks[t].point))
      && (point in {RefreshFirst, RefreshLast} ==> s.records[r].refreshes < max)
      && (InFlight(point) ==> s.records[r].status in {Applying, Cancelled})
      && (InFlight(point) ==> forall u :: u in s.tasks && u != t && s.tasks[u].record == r ==> !InFlight(s.tasks[u].point))
    ensures TasksInv(At(s, t, point), max)
  {
    var s' := At(s, t, point);
    forall u | u in s'.tasks ensures TaskInv(s', u, max) {
      if u != t {
        assert TaskInv(s, u, max);
      }
    }
    forall u, v | BothInFlight(s', u, v) ensures u == v {
      if u != t && v != t {
        assert BothInFlight(s, u, v);
      }
    }
  }

  /** Changing the session of the running coroutine, as far as others waiting on it allow. */
  lemma SetKeepsOthers(s: State, s': State, t: nat, max: nat)
    requires TasksInv(s, max) && t in s.tasks
    requires s'.tasks == s.tasks && s'.holder == s.holder && |s'.records| == |s.records|
    requires forall i :: 0 <= i < |s.records| && i != s.tasks[t].record ==> s'.records[i] == s.records[i]
    requires s.tasks[t].record in s.holder ==> s.holder[s.tasks[t].record] == t
    requires var r := s.tasks[t].record;
      r < |s.records| && forall u :: u in s.tasks && u != t && s.tasks[u].record == r && InFlight(s.tasks[u].point) ==>
        s'.records[r].status in {Applying, Cancelled}
    ensures TasksInvBut(s', t, max)
  {
    assert TaskInv(s, t, max);
    forall u | u in s'.tasks && u != t ensures TaskInv(s', u, max) {
      assert TaskInv(s, u, max);
    }
    forall u, v | BothInFlight(s', u, v) ensures u == v {
      assert BothInFlight(s, u, v);
    }
  }

  /** Cancelling sessions, and making new ones, disturbs no coroutine. */
  lemma CancellingKeepsTasks(s: State, s': State, max: nat)
    requires TasksInv(s, max)
    requires s'.tasks == s.tasks && s'.holder == s.holder && |s.records| <= |s'.records|
    requires forall i :: 0 <= i < |s.records| ==> s'.records[i] == s.records[i] || s'.records[i] == AsCancelled(s.records[i])
    ensures TasksInv(s', max)
  {
    forall u | u in s'.tasks ensures TaskInv(s', u, max) {
      assert TaskInv(s, u, max);
    }
    forall u, v | BothInFlight(s', u, v) ensures u == v {
      assert BothInFlight(s, u, v);
    }
  }

  /** While one coroutine holds the lock of an uncancelled record, nobody is applying it. */
  lemma HolderExcludesApply(s: State, t: nat, u: nat, max: nat)
    requires TasksInv(s, max) && t in s.tasks && u in s.tasks && s.tasks[u].record == s.tasks[t].record
    requires Holds(s.tasks[t].point)
    ensures s.tasks[t].record < |s.records|
    ensures s.records[s.tasks[t].record].status != Cancelled ==> !InFlight(s.tasks[u].point)
  {
    assert TaskInv(s, t, max) && TaskInv(s, u, max);
  }

  lemma RefreshKeepsTasks(s: State, t: nat, point: Point, max: nat)
    requires Inv(s, max) && Suspended(s, t) && (point == RefreshFirst || point == RefreshLast)
    requires s.tasks[t].record in s.holder ==> s.holder[s.tasks[t].record] == t
    requires s.records[s.tasks[t].record].status !in {Ready, Applying, Cancelled}
    ensures TasksInv(RefreshState(s, t, point, max), max)
  {
    var r := s.tasks[t].record;
    forall u | u in s.tasks && u != t && s.tasks[u].record == r ensures !InFlight(s.tasks[u].point) {
      assert TaskInv(s, u, max);
    }
    if s.records[r].refreshes >= max {
      var s' := Set(s, r, s.records[r].(qrcode := "", status := Expired));
      SetKeepsOthers(s, s', t, max);
      LeaveRestores(s', t, max);
    } else {
      SetKeepsOthers(s, s, t, max);
      AtRestores(s, t, point, max);
    }
  }

  lemma NobodyApplies(s: State, t: nat, max: nat)
    requires TasksInv(s, max) && t in s.tasks && Holds(s.tasks[t].point) && Suspended(s, t)
    requires s.records[s.tasks[t].record].status != Cancelled
    ensures forall u :: u in s.tasks && s.tasks[u].record == s.tasks[t].record ==> !InFlight(s.tasks[u].point)
  {
    forall u | u in s.tasks && s.tasks[u].record == s.tasks[t].record ensures !InFlight(s.tasks[u].point) {
      HolderExcludesApply(s, t, u, max);
    }
  }

  function Renewed(s: State, t: nat, qrcode: string): State
    requires Suspended(s, t)
  {
    var record := s.records[s.tasks[t].record];
    Set(s, s.tasks[t].record, record.(qrcode := qrcode, refreshes := record.refreshes + 1, status := Waiting))
  }

  lemma RenewKeepsOthers(s: State, t: nat, qrcode: string, max: nat)
    requires TasksInv(s, max) && Suspended(s, t) && Holds(s.tasks[t].point) && Active(s, s.tasks[t].record)
    ensures TasksInvBut(Renewed(s, t, qrcode), t, max)
  {
    assert TaskInv(s, t, max);
    NobodyApplies(s, t, max);
    SetKeepsOthers(s, Renewed(s, t, qrcode), t, max);
  }

  lemma RenewKeepsTasks(s: State, t: nat, qrcode: string, max: nat)
    requires TasksInv(s, max) && Enabled(s, Fetched(t, Some(qrcode))) && Active(s, s.tasks[t].record)
    ensures TasksInv(FetchedState(s, t, Some(qrcode)), max)
  {
    var s' := Renewed(s, t, qrcode);
    RenewKeepsOthers(s, t, qrcode, max);
    if s.tasks[t].point.RefreshFirst? {
      AtRestores(s', t, Polling, max);
    } else {
      LeaveRestores(s', t, max);
    }
  }

  lemma FetchedKeepsTasks(s: State, t: nat, fetched: Option<string>, max: nat)
    requires Inv(s, max) && Enabled(s, Fetched(t, fetched))
    ensures TasksInv(FetchedState(s, t, fetched), max)
  {
    var r := s.tasks[t].record;
    assert TaskInv(s, t, max);
    if !Active(s, r) {
      SetKeepsOthersSame(s, t, max);
      LeaveRestores(s, t, max);
    } else if fetched.None? {
      var s' := Set(s, r, s.records[r].(status := Error));
      NobodyApplies(s, t, max);
      SetKeepsOthers(s, s', t, max);
      LeaveRestores(s', t, max);
    } else {
      RenewKeepsTasks(s, t, fetched.value, max);
    }
  }

  lemma SetKeepsOthersSame(s: State, t: nat, max: nat)
    requires TasksInv(s, max) && Suspended(s, t)
    ensures TasksInvBut(s, t, max)
  {
    assert TaskInv(s, t, max);
  }

  lemma PolledKeepsTasks(s: State, t: nat, reply: Reply, max: nat)
    requires Inv(s, max) && Enabled(s, Polled(t, reply))
    ensures TasksInv(PolledState(s, t, reply, max), max)
  {
    var r := s.tasks[t].record;
    assert TaskInv(s, t, max);
    forall u | u in s.tasks && u != t && s.tasks[u].record == r && Active(s, r) ensures !InFlight(s.tasks[u].point) {
      HolderExcludesApply(s, t, u, max);
    }
    if reply.Failed? || !Active(s, r) || reply.Unknown? {
      SetKeepsOthersSame(s, t, max);
      LeaveRestores(s, t, max);
    } else if reply.QrExpired? {
      RefreshKeepsTasks(s, t, RefreshLast, max);
    } else {
      var record := s.records[r];
      var record' := match reply
        case Scan => record.(status := Scanned)
        case Confirmed(None) => record.(status := Error)
        case Confirmed(credentials) => record.(credentials := credentials, qrcode := "", status := Ready)
        case _ => record.(status := Waiting);
      var s' := Set(s, r, record');
      SetKeepsOthers(s, s', t, max);
      LeaveRestores(s', t, max);
    }
  }

  lemma AcquireKeepsTasks(s: State, t: nat, late: bool, max: nat)
    requires Inv(s, max) && Enabled(s, Acquire(t, late))
    ensures TasksInv(AcquireState(s, t, late, max), max)
  {
    var r := s.tasks[t].record;
    var record := s.records[r];
    assert TaskInv(s, t, max) && SessionInv(s, r, max);
    SetKeepsOthersSame(s, t, max);
    forall u | u in s.tasks && u != t && s.tasks[u].record == r && InFlight(s.tasks[u].point)
      ensures record.status in {Applying, Cancelled} && !InFlight(s.tasks[t].point)
    {
      assert TaskInv(s, u, max);
      assert InFlight(s.tasks[t].point) ==> BothInFlight(s, t, u);
    }
    match s.tasks[t].point {
      case WantStatus =>
        if record.status in {Ready, Applying, Cancelled, Error} {
          LeaveRestores(s, t, max);
        } else if late {
          RefreshKeepsTasks(s, t, RefreshFirst, max);
        } else {
          AtRestores(s, t, Polling, max);
        }
      case WantApply =>
        if record.status != Ready || record.credentials.None? {
          LeaveRestores(s, t, max);
        } else {
          var s' := Set(s, r, record.(status := Applying));
          SetKeepsOthers(s, s', t, max);
          AtRestores(s', t, InApply, max);
        }
      case WantUndo =>
        var s' := if record.status == Applying then Set(s, r, record.(status := Ready)) else s;
        SetKeepsOthers(s, s', t, max);
        LeaveRestores(s', t, max);
      case WantDone =>
        var done := Set(s, r, record.(credentials := None, status := Cancelled));
        var s' := if Registered(s, r) then done.(sessions := s.sessions - {record.pair}) else done;
        SetKeepsOthers(s, s', t, max);
        LeaveRestores(s', t, max);
      case _ =>
    }
  }

  lemma LookupKeepsTasks(s: State, t: nat, pair: string, profile: string, apply: bool, max: nat)
    requires Inv(s, max) && Enabled(s, Lookup(t, pair, profile, apply))
    ensures TasksInv(Apply(s, Lookup(t, pair, profile, apply), max), max)
  {
    var s' := Apply(s, Lookup(t, pair, profile, apply), max);
    forall u | u in s'.tasks ensures TaskInv(s', u, max) {
      if u != t {
        assert TaskInv(s, u, max);
      } else {
        assert s'.tasks[t].record in s.holder ==> s.holder[s'.tasks[t].record] != t;
      }
    }
    forall u, v | BothInFlight(s', u, v) ensures u == v {
      assert BothInFlight(s, u, v);
    }
  }

  lemma StepKeepsTasks(s: State, step: Step, max: nat)
    requires Inv(s, max) && Enabled(s, step)
    ensures TasksInv(Apply(s, step, max), max)
  {
    match step {
      case StartDone(profile, pair, qrcode) => CancellingKeepsTasks(s, Apply(s, step, max), max);
      case Cancel(pair, _) => CancellingKeepsTasks(s, Apply(s, step, max), max);
      case Lookup(t, pair, profile, apply) => LookupKeepsTasks(s, t, pair, profile, apply, max);
      case Acquire(t, late) => AcquireKeepsTasks(s, t, late, max);
      case Fetched(t, fetched) => FetchedKeepsTasks(s, t, fetched, max);
      case Polled(t, reply) => PolledKeepsTasks(s, t, reply, max);
      case ApplyFinished(t, ok) =>
        assert TaskInv(s, t, max);
        SetKeepsOthersSame(s, t, max);
        forall u | u in s.tasks && u != t && s.tasks[u].record == s.tasks[t].record ensures !InFlight(s.tasks[u].point) {
          assert InFlight(s.tasks[u].point) ==> BothInFlight(s, t, u);
        }
        AtRestores(s, t, if ok then WantDone else WantUndo, max);
      case Abort(t) =>
        SetKeepsOthersSame(s, t, max);
        LeaveRestores(s, t, max);
    }
  }

  // ---- runs

  ghost predicate Run(states: seq<State>, steps: seq<Step>, max: nat) {
    RunFrom(Init(), states, steps, max)
  }

  ghost predicate RunFrom(s: State, states: seq<State>, steps: seq<Step>, max: nat) {
    && |states| == |steps| + 1
    && states[0] == s
    && forall i :: 0 <= i < |steps| ==> Enabled(states[i], steps[i]) && states[i + 1] == Apply(states[i], steps[i], max)
  }

  lemma {:induction false} InvAlong(states: seq<State>, steps: seq<Step>, max: nat, i: nat)
    requires Run(states, steps, max) && i < |states|
    ensures Inv(states[i], max)
  {
    if i > 0 {
      InvAlong(states, steps, max, i - 1);
      StepKeepsRecords(states[i - 1], steps[i - 1], max);
      StepKeepsTasks(states[i - 1], steps[i - 1], max);
    }
  }

  /** What every interleaving keeps, session by session. */
  lemma SessionsStaySound(states: seq<State>, steps: seq<Step>, max: nat, i: nat)
    requires Run(states, steps, max) && i < |states|
    ensures var s := states[i];
      && (forall p :: p in s.sessions ==> s.sessions[p] < |s.records|)
      && (forall p, q :: p in s.sessions && q in s.sessions ==>
            (s.records[s.sessions[p]].profile == s.records[s.sessions[q]].profile ==> p == q))
      && (forall r :: 0 <= r < |s.records| ==>
            && (s.records[r].credentials.Some? <==> s.records[r].status in {Ready, Applying})
            && (!Registered(s, r) ==> s.records[r].status == Cancelled && s.records[r].credentials.None?)
            && s.records[r].refreshes <= max)
  {
    InvAlong(states, steps, max, i);
    var s := states[i];
    forall r | 0 <= r < |s.records|
      ensures (s.records[r].credentials.Some? <==> s.records[r].status in {Ready, Applying})
      ensures !Registered(s, r) ==> s.records[r].status == Cancelled && s.records[r].credentials.None?
      ensures s.records[r].refreshes <= max
    {
      assert SessionInv(s, r, max);
    }
  }

  /** Two coroutines are never both between the start and the end of `apply` on one record. */
  lemma OneApplyAtATime(states: seq<State>, steps: seq<Step>, max: nat, i: nat, t: nat, u: nat)
    requires Run(states, steps, max) && i < |states|
    requires BothInFlight(states[i], t, u)
    ensures t == u
  {
    InvAlong(states, steps, max, i);
  }

  predicate IsCancelled(s: State, r: nat) {
    r < |s.records| && s.records[r].status == Cancelled
  }

  lemma CancelledStaysPolled(s: State, t: nat, reply: Reply, max: nat, r: nat)
    requires Suspended(s, t) && IsCancelled(s, r)
    ensures IsCancelled(PolledState(s, t, reply, max), r)
  {
  }

  lemma CancelledStaysAcquire(s: State, t: nat, late: bool, max: nat, r: nat)
    requires Suspended(s, t) && IsCancelled(s, r)
    ensures IsCancelled(AcquireState(s, t, late, max), r)
  {
  }

  lemma CancelledStaysFetched(s: State, t: nat, fetched: Option<string>, r: nat)
    requires Suspended(s, t) && IsCancelled(s, r)
    ensures IsCancelled(FetchedState(s, t, fetched), r)
  {
  }

  lemma CancelledStaysStart(s: State, profile: string, pair: string, qrcode: string, r: nat)
    requires IsCancelled(s, r)
    ensures IsCancelled(StartDoneState(s, profile, pair, qrcode), r)
  {
  }

  lemma CancelledStays(s: State, step: Step, max: nat, r: nat)
    requires Enabled(s, step) && IsCancelled(s, r)
    ensures IsCancelled(Apply(s, step, max), r)
  {
    match step {
      case StartDone(profile, pair, qrcode) => CancelledStaysStart(s, profile, pair, qrcode, r);
      case Acquire(t, late) => CancelledStaysAcquire(s, t, late, max, r);
      case Fetched(t, fetched) => CancelledStaysFetched(s, t, fetched, r);
      case Polled(t, reply) => CancelledStaysPolled(s, t, reply, max, r);
      case _ =>
    }
  }

  lemma {:induction false} CancelledAlong(states: seq<State>, steps: seq<Step>, max: nat, i: nat, j: nat, r: nat)
    requires Run(states, steps, max) && i <= j < |states| && IsCancelled(states[i], r)
    ensures IsCancelled(states[j], r)
    decreases j
  {
    if i < j {
      CancelledAlong(states, steps, max, i, j - 1, r);
      CancelledStays(states[j - 1], steps[j - 1], max, r);
    }
  }

  /** Whatever is suspended when a session is removed, it stays cancelled, unregistered and without credentials. */
  lemma RemovedIsNeverRevived(states: seq<State>, steps: seq<Step>, max: nat, i: nat, j: nat, r: nat)
    requires Run(states, steps, max) && i <= j < |states|
    requires r < |states[i].records| && !Registered(states[i], r)
    ensures IsCancelled(states[j], r) && states[j].records[r].credentials.None? && !Registered(states[j], r)
  {
    InvAlong(states, steps, max, i);
    assert SessionInv(states[i], r, max);
    CancelledAlong(states, steps, max, i, j, r);
    InvAlong(states, steps, max, j);
    assert SessionInv(states[j], r, max);
  }

  // ---- an apply that was aborted

  ghost predicate NobodyInFlight(s: State, r: nat) {
    forall t :: t in s.tasks && s.tasks[t].record == r ==> !InFlight(s.tasks[t].point)
  }

  ghost predicate NoStartOf(steps: seq<Step>, profile: string) {
    forall i :: 0 <= i < |steps| ==> !(steps[i].StartDone? && steps[i].profile == profile)
  }

  predicate IsApplying(s: State, r: nat) {
    r < |s.records| && s.records[r].status == Applying
  }

  /** Until the profile starts anew, the record stays `applying`, whatever else happens. */
  ghost predicate StaysApplying(s: State, r: nat, max: nat)
    requires r < |s.records|
  {
    forall states, steps :: RunFrom(s, states, steps, max) && NoStartOf(steps, s.records[r].profile) ==>
      forall i :: 0 <= i < |states| ==> IsApplying(states[i], r)
  }

  lemma NobodyHolds(s: State, r: nat, max: nat)
    requires Inv(s, max) && IsApplying(s, r)
    ensures r !in s.holder
  {
    assert r in s.holder ==> TaskInv(s, s.holder[r], max);
  }

  /** Applying, with nobody left to finish it, for the profile. */
  ghost predicate Stuck(s: State, r: nat, profile: string) {
    IsApplying(s, r) && NobodyInFlight(s, r) && s.records[r].profile == profile
  }

  lemma StuckAcquire(s: State, t: nat, late: bool, max: nat, r: nat, profile: string)
    requires Inv(s, max) && Enabled(s, Acquire(t, late)) && Stuck(s, r, profile)
    ensures Stuck(AcquireState(s, t, late, max), r, profile)
  {
    assert TaskInv(s, t, max);
  }

  lemma StuckFetched(s: State, t: nat, fetched: Option<string>, max: nat, r: nat, profile: string)
    requires Inv(s, max) && Enabled(s, Fetched(t, fetched)) && Stuck(s, r, profile)
    ensures Stuck(FetchedState(s, t, fetched), r, profile)
  {
    assert TaskInv(s, t, max);
  }

  lemma StuckPolled(s: State, t: nat, reply: Reply, max: nat, r: nat, profile: string)
    requires Inv(s, max) && Enabled(s, Polled(t, reply)) && Stuck(s, r, profile)
    ensures Stuck(PolledState(s, t, reply, max), r, profile)
  {
    assert TaskInv(s, t, max);
  }

  lemma StepKeepsStuck(s: State, step: Step, max: nat, r: nat, profile: string)
    requires Inv(s, max) && Enabled(s, step) && Stuck(s, r, profile) && !(step.StartDone? && step.profile == profile)
    ensures Stuck(Apply(s, step, max), r, profile)
  {
    match step {
      case Acquire(t, late) => StuckAcquire(s, t, late, max, r, profile);
      case Fetched(t, fetched) => StuckFetched(s, t, fetched, max, r, profile);
      case Polled(t, reply) => StuckPolled(s, t, reply, max, r, profile);
      case _ =>
    }
  }

  lemma {:induction false} ApplyingAlong(s: State, states: seq<State>, steps: seq<Step>, max: nat, r: nat, i: nat)
    requires Inv(s, max) && IsApplying(s, r) && NobodyInFlight(s, r)
    requires RunFrom(s, states, steps, max) && NoStartOf(steps, s.records[r].profile) && i < |states|
    ensures Inv(states[i], max) && Stuck(states[i], r, s.records[r].profile)
  {
    if i > 0 {
      ApplyingAlong(s, states, steps, max, r, i - 1);
      StepKeepsStuck(states[i - 1], steps[i - 1], max, r, s.records[r].profile);
      StepKeepsRecords(states[i - 1], steps[i - 1], max);
      StepKeepsTasks(states[i - 1], steps[i - 1], max);
    }
  }

  /** A coroutine in flight can still bring the record to an end. */
  lemma InFlightEnds(s: State, max: nat, r: nat, t: nat)
    requires Inv(s, max) && IsApplying(s, r) && t in s.tasks && s.tasks[t].record == r && InFlight(s.tasks[t].point)
    ensures !StaysApplying(s, r, max)
  {
    NobodyHolds(s, r, max);
    var acquire := Acquire(t, false);
    if s.tasks[t].point.InApply? {
      var done := ApplyFinished(t, true);
      var s1 := Apply(s, done, max);
      var states, steps := [s, s1, Apply(s1, acquire, max)], [done, acquire];
      assert RunFrom(s, states, steps, max) && NoStartOf(steps, s.records[r].profile) && !IsApplying(states[2], r);
    } else {
      var states, steps := [s, Apply(s, acquire, max)], [acquire];
      assert RunFrom(s, states, steps, max) && NoStartOf(steps, s.records[r].profile) && !IsApplying(states[1], r);
    }
  }

  /**
   A record that is being applied stays so for good, refusing to be cancelled or applied, until its profile
   starts anew, exactly if the coroutine that applied it is gone: it was aborted while it was suspended.
   */
  lemma AbortedApplyIsStuck(s: State, max: nat, r: nat)
    requires Inv(s, max) && IsApplying(s, r)
    ensures StaysApplying(s, r, max) <==> NobodyInFlight(s, r)
  {
    if NobodyInFlight(s, r) {
      forall states, steps | RunFrom(s, states, steps, max) && NoStartOf(steps, s.records[r].profile)
        ensures forall i :: 0 <= i < |states| ==> IsApplying(states[i], r)
      {
        forall i | 0 <= i < |states| ensures IsApplying(states[i], r) {
          ApplyingAlong(s, states, steps, max, r, i);
        }
      }
    } else {
      var t :| t in s.tasks && s.tasks[t].record == r && InFlight(s.tasks[t].point);
      InFlightEnds(s, max, r, t);
    }
  }

  // ---- the manager's code, one uninterrupted stretch a method

  class Manager {
    const max: nat
    var sessions: map<string, nat>
    var records: seq<Session>
    var tasks: map<nat, Task>
    var holder: map<nat, nat>

    constructor (max: nat)
      ensures this.max == max && View() == Init()
    {
      this.max := max;
      sessions, records, tasks, holder := map[], [], map[], map[];
    }

    function View(): State
      reads this
    {
      State(sessions, records, tasks, holder)
    }

    method Finish(t: nat)
      requires t in tasks
      modifies this`tasks, this`holder
      ensures View() == Leave(old(View()), t)
    {
      if Holds(tasks[t].point) {
        holder := holder - {tasks[t].record};
      }
      tasks := tasks - {t};
    }

    method Suspend(t: nat, point: Point)
      requires t in tasks
      modifies this`tasks, this`holder
      ensures View() == At(old(View()), t, point)
    {
      if Holds(point) {
        holder := holder[tasks[t].record := t];
      }
      tasks := tasks[t := Task(point, tasks[t].record)];
    }

    /** One item of the loop in `start`. */
    method SweepItem(id: string, profile: string)
      requires id in sessions && sessions[id] < |records|
      modifies this`sessions, this`records
      ensures var r := old(sessions[id]);
        if old(records[r].profile) == profile
        then sessions == old(sessions) - {id} && records == old(records)[r := AsCancelled(old(records[r]))]
        else sessions == old(sessions) && records == old(records)
    {
      if records[sessions[id]].profile == profile {
        records := records[sessions[id] := AsCancelled(records[sessions[id]])];
        sessions := sessions - {id};
      }
    }

    /** The loop in `start` over a copy of the registry. */
    method Sweep(profile: string)
      requires RecordsInv(View(), max)
      modifies this`sessions, this`records
      ensures sessions == SweptSessions(old(View()), {}, profile) && records == SweptRecords(old(View()), {}, profile)
    {
      ghost var before := View();
      var items := sessions.Keys;
      SweepStarts(before, profile);
      while items != {}
        invariant items <= before.sessions.Keys
        invariant sessions == SweptSessions(before, items, profile) && records == SweptRecords(before, items, profile)
        decreases items
      {
        var id :| id in items;
        SweepOne(before, items, id, profile, max);
        items := items - {id};
        SweepItem(id, profile);
      }
    }

    /** `start` after the QR code has arrived: cancel and forget the profile's sessions, register the new one. */
    method Start(profile: string, pair: string, qrcode: string)
      requires RecordsInv(View(), max) && Enabled(View(), StartDone(profile, pair, qrcode))
      modifies this`sessions, this`records
      ensures View() == Apply(old(View()), StartDone(profile, pair, qrcode), max)
    {
      Sweep(profile);
      sessions := sessions[pair := |records|];
      records := records + [Session(pair, profile, Waiting, 0, None, qrcode)];
    }

    /** `cancel` */
    method CancelPair(pair: string, profile: string) returns (done: bool)
      requires Enabled(View(), Cancel(pair, profile))
      modifies this`sessions, this`records
      ensures View() == Apply(old(View()), Cancel(pair, profile), max)
      ensures done <==> old(records[sessions[pair]].status) != Applying
    {
      var r := sessions[pair];
      if records[r].status == Applying {
        return false;
      }
      records := records[r := records[r].(credentials := None, qrcode := "", status := Cancelled)];
      sessions := sessions - {pair};
      return true;
    }

    /** `_refresh` up to its `await`. */
    method BeginRefresh(t: nat, point: Point)
      requires Suspended(View(), t)
      modifies this`records, this`tasks, this`holder
      ensures View() == RefreshState(old(View()), t, point, max)
    {
      var r := tasks[t].record;
      if records[r].refreshes >= max {
        records := records[r := records[r].(qrcode := "", status := Expired)];
        Finish(t);
      } else {
        Suspend(t, point);
      }
    }

    /** `_refresh` after its `await`. */
    method FinishRefresh(t: nat, fetched: Option<string>)
      requires Enabled(View(), Fetched(t, fetched))
      modifies this`records, this`tasks, this`holder
      ensures View() == Apply(old(View()), Fetched(t, fetched), max)
    {
      var r := tasks[t].record;
      if !Active(View(), r) {
        Finish(t);
      } else if fetched.None? {
        records := records[r := records[r].(status := Error)];
        Finish(t);
      } else {
        records := records[r := records[r].(qrcode := fetched.value, refreshes := records[r].refreshes + 1, status := Waiting)];
        if tasks[t].point == RefreshFirst {
          Suspend(t, Polling);
        } else {
          Finish(t);
        }
      }
    }

    /** `status` after the poll has answered. */
    method FinishPoll(t: nat, reply: Reply)
      requires Enabled(View(), Polled(t, reply))
      modifies this`records, this`tasks, this`holder
      ensures View() == Apply(old(View()), Polled(t, reply), max)
    {
      var r := tasks[t].record;
      if reply.Failed? || !Active(View(), r) {
        Finish(t);
        return;
      }
      if reply == QrExpired {
        BeginRefresh(t, RefreshLast);
        return;
      }
      if reply == TimedOut || reply == Wait {
        records := records[r := records[r].(status := Waiting)];
      } else if reply == Scan {
        records := records[r := records[r].(status := Scanned)];
      } else if reply.Confirmed? {
        if reply.credentials.None? {
          records := records[r := records[r].(status := Error)];
        } else {
          records := records[r := records[r].(credentials := reply.credentials, qrcode := "", status := Ready)];
        }
      }
      Finish(t);
    }

    /** What `status` and `apply` do once they have the record's lock. */
    method Locked(t: nat, late: bool)
      requires Enabled(View(), Acquire(t, late))
      modifies this
      ensures View() == Apply(old(View()), Acquire(t, late), max)
    {
      var r := tasks[t].record;
      var record := records[r];
      match tasks[t].point {
        case WantStatus =>
          if record.status == Ready || record.status == Applying || record.status == Cancelled || record.status == Error {
            Finish(t);
          } else if late {
            BeginRefresh(t, RefreshFirst);
          } else {
            Suspend(t, Polling);
          }
        case WantApply =>
          if record.status != Ready || record.credentials.None? {
            Finish(t);
          } else {
            records := records[r := record.(status := Applying)];
            Suspend(t, InApply);
          }
        case WantUndo =>
          if record.status == Applying {
            records := records[r := record.(status := Ready)];
          }
          Finish(t);
        case WantDone =>
          var registered := Registered(View(), r);
          records := records[r := record.(credentials := None, status := Cancelled)];
          if registered {
            sessions := sessions - {record.pair};
          }
          Finish(t);
        case _ =>
      }
    }
  }

  // ---- the loop of `start` over a copy of the registry

  lemma SweepStarts(s: State, profile: string)
    ensures SweptSessions(s, s.sessions.Keys, profile) == s.sessions
    ensures SweptRecords(s, s.sessions.Keys, profile) == s.records
  {
  }

  /** One item of the loop: if it is of the profile, its record is cancelled and it leaves the registry. */
  ghost predicate SweepStep(s: State, items: set<string>, id: string, profile: string)
    requires id in s.sessions && s.sessions[id] < |s.records|
  {
    var sessions, records, r := SweptSessions(s, items, profile), SweptRecords(s, items, profile), s.sessions[id];
    && id in sessions && sessions[id] == r
    && r < |records| && records[r] == s.records[r]
    && SweptSessions(s, items - {id}, profile) == (if s.records[r].profile == profile then sessions - {id} else sessions)
    && SweptRecords(s, items - {id}, profile)
       == (if s.records[r].profile == profile then records[r := AsCancelled(records[r])] else records)
  }

  lemma SweepOne(s: State, items: set<string>, id: string, profile: string, max: nat)
    requires RecordsInv(s, max) && id in items && items <= s.sessions.Keys
    ensures SweepStep(s, items, id, profile)
  {
    var r := s.sessions[id];
    assert s.records[r].pair == id && Registered(s, r);
    assert forall i :: 0 <= i < |s.records| && i != r ==> s.records[i].pair != id;
    SweepOneSession(s, items, id, profile);
    SweepOneRecord(s, items, id, profile);
  }

  lemma SweepOneSession(s: State, items: set<string>, id: string, profile: string)
    requires id in items && id in s.sessions && s.sessions[id] < |s.records|
    ensures var sessions, r := SweptSessions(s, items, profile), s.sessions[id];
      && id in sessions && sessions[id] == r
      && SweptSessions(s, items - {id}, profile) == (if s.records[r].profile == profile then sessions - {id} else sessions)
  {
  }

  lemma SweepOneRecord(s: State, items: set<string>, id: string, profile: string)
    requires id in items && id in s.sessions && Registered(s, s.sessions[id]) && s.records[s.sessions[id]].pair == id
    requires forall i :: 0 <= i < |s.records| && i != s.sessions[id] ==> s.records[i].pair != id
    ensures var records, r := SweptRecords(s, items, profile), s.sessions[id];
      && records[r] == s.records[r]
      && SweptRecords(s, items - {id}, profile)
         == (if s.records[r].profile == profile then records[r := AsCancelled(records[r])] else records)
  {
    var r := s.sessions[id];
    forall i | 0 <= i < |s.records| && i != r
      ensures SweptRecords(s, items - {id}, profile)[i] == SweptRecords(s, items, profile)[i]
    {
      assert s.records[i].pair != id;
    }
  }
}
