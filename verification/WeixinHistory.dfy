/**
 What moves an onboarding session from one status to another, in the fields of its record: every change has
 its cause, every answer of the service is taken, and over every run credentials are what was confirmed.
 */
module WeixinHistory {
  import opened Basics
  import opened WeixinOnboarding

  /** The step was taken by a coroutine that works on this record. */
  predicate Works(s: State, t: nat, r: nat) {
    t in s.tasks && s.tasks[t].record == r
  }

  predicate CameFrom(s: State, t: nat, r: nat, point: Point) {
    Works(s, t, r) && s.tasks[t].point == point
  }

  // ---- every change has its cause

  /** Why a record can have come to its new status. */
  ghost predicate Caused(s: State, step: Step, max: nat, r: nat, a: Session, b: Session) {
    match b.status
    case Ready =>
      || (step.Polled? && Works(s, step.task, r) && step.reply == Confirmed(b.credentials) && b.credentials.Some? && b.qrcode == "")
      || (step.Acquire? && CameFrom(s, step.task, r, WantUndo) && a.status == Applying && b == a.(status := Ready))
    case Applying => step.Acquire? && CameFrom(s, step.task, r, WantApply) && a.status == Ready && b == a.(status := Applying)
    case Scanned => step.Polled? && Works(s, step.task, r) && step.reply == Scan && b == a.(status := Scanned)
    case Waiting =>
      || (step.Polled? && Works(s, step.task, r) && step.reply in {TimedOut, Wait} && b == a.(status := Waiting))
      || (step.Fetched? && Works(s, step.task, r) && step.fetched == Some(b.qrcode)
          && b.refreshes == a.refreshes + 1 && b.credentials == a.credentials)
    case Error =>
      || (step.Polled? && Works(s, step.task, r) && step.reply == Confirmed(None) && b == a.(status := Error))
      || (step.Fetched? && Works(s, step.task, r) && step.fetched == None && b == a.(status := Error))
    case Expired =>
      && max <= a.refreshes && b.qrcode == "" && b.credentials == a.credentials && b.refreshes == a.refreshes
      && ((step.Polled? && Works(s, step.task, r) && step.reply == QrExpired)
          || (step.Acquire? && CameFrom(s, step.task, r, WantStatus) && step.late))
    case Cancelled =>
      && b.credentials == None
      && ((step.Cancel? && step.pair == a.pair) || (step.StartDone? && step.profile == a.profile)
          || (step.Acquire? && CameFrom(s, step.task, r, WantDone)))
  }

  lemma AcquireIsCaused(s: State, t: nat, late: bool, max: nat, r: nat)
    requires Enabled(s, Acquire(t, late)) && r < |s.records|
    ensures var a, b := s.records[r], Apply(s, Acquire(t, late), max).records[r];
            b != a ==> Caused(s, Acquire(t, late), max, r, a, b) && b.pair == a.pair && b.profile == a.profile
  {
  }

  lemma PolledIsCaused(s: State, t: nat, reply: Reply, max: nat, r: nat)
    requires Enabled(s, Polled(t, reply)) && r < |s.records|
    ensures var a, b := s.records[r], Apply(s, Polled(t, reply), max).records[r];
            b != a ==> Caused(s, Polled(t, reply), max, r, a, b) && b.pair == a.pair && b.profile == a.profile
  {
  }

  lemma FetchedIsCaused(s: State, t: nat, fetched: Option<string>, max: nat, r: nat)
    requires Enabled(s, Fetched(t, fetched)) && r < |s.records|
    ensures var a, b := s.records[r], Apply(s, Fetched(t, fetched), max).records[r];
            b != a ==> Caused(s, Fetched(t, fetched), max, r, a, b) && b.pair == a.pair && b.profile == a.profile
  {
  }

  lemma StartIsCaused(s: State, profile: string, pair: string, qrcode: string, max: nat, r: nat)
    requires r < |s.records| && Enabled(s, StartDone(profile, pair, qrcode))
    ensures var a, b := s.records[r], Apply(s, StartDone(profile, pair, qrcode), max).records[r];
            b != a ==> Caused(s, StartDone(profile, pair, qrcode), max, r, a, b) && b.pair == a.pair && b.profile == a.profile
  {
  }

  /** A record changes only for a reason, and never its pair or profile. */
  lemma ChangeIsCaused(s: State, step: Step, max: nat, r: nat)
    requires RecordsInv(s, max) && Enabled(s, step) && r < |s.records|
    ensures r < |Apply(s, step, max).records|
    ensures var a, b := s.records[r], Apply(s, step, max).records[r];
            b != a ==> Caused(s, step, max, r, a, b) && b.pair == a.pair && b.profile == a.profile
  {
    match step {
      case StartDone(profile, pair, qrcode) => StartIsCaused(s, profile, pair, qrcode, max, r);
      case Acquire(t, late) => AcquireIsCaused(s, t, late, max, r);
      case Fetched(t, fetched) => FetchedIsCaused(s, t, fetched, max, r);
      case Polled(t, reply) => PolledIsCaused(s, t, reply, max, r);
      case _ =>
    }
  }

  // ---- every answer is taken

  /** What an answer of the service does to a session that is still registered; a failed poll does nothing. */
  lemma ReplyIsTaken(s: State, t: nat, reply: Reply, max: nat)
    requires Enabled(s, Polled(t, reply)) && Active(s, s.tasks[t].record)
    ensures var s', r := Apply(s, Polled(t, reply), max), s.tasks[t].record;
            var a, b := s.records[r], s'.records[r];
            && (reply == Wait || reply == TimedOut ==> b.status == Waiting)
            && (reply == Scan ==> b.status == Scanned)
            && (reply.Confirmed? && reply.credentials.Some? ==> b.status == Ready && b.credentials == reply.credentials)
            && (reply == Confirmed(None) ==> b.status == Error)
            && (reply == QrExpired ==> if a.refreshes < max then b == a && t in s'.tasks && s'.tasks[t].point == RefreshLast else b.status == Expired)
            && (reply == Failed || reply == Unknown ==> b == a)
            && (reply != QrExpired || max <= a.refreshes ==> t !in s'.tasks)
  {
  }

  /** A renewed code is the one that is polled next; a missing one is an error. */
  lemma CodeIsTaken(s: State, t: nat, fetched: Option<string>, max: nat)
    requires Enabled(s, Fetched(t, fetched)) && Active(s, s.tasks[t].record)
    ensures var s', r := Apply(s, Fetched(t, fetched), max), s.tasks[t].record;
            && (fetched.None? ==> s'.records[r].status == Error && t !in s'.tasks)
            && (fetched.Some? ==> s'.records[r].status == Waiting && s'.records[r].qrcode == fetched.value)
            && (fetched.Some? ==>
                  if s.tasks[t].point == RefreshFirst then t in s'.tasks && s'.tasks[t].point == Polling else t !in s'.tasks)
  {
  }

  /**
   An `apply` takes a ready session; when the account cannot be applied the session is ready again with the
   same credentials, and when it can the session ends: unregistered, cancelled, without credentials.
   */
  lemma ApplyIsTaken(s: State, t: nat, late: bool, max: nat)
    requires RecordsInv(s, max) && Enabled(s, Acquire(t, late))
    ensures var s', r := Apply(s, Acquire(t, late), max), s.tasks[t].record;
            var a, b := s.records[r], s'.records[r];
            && (s.tasks[t].point == WantApply ==>
                  if a.status == Ready then b == a.(status := Applying) && t in s'.tasks && s'.tasks[t].point == InApply
                  else b == a && t !in s'.tasks)
            && (s.tasks[t].point == WantUndo ==> b == (if a.status == Applying then a.(status := Ready) else a) && t !in s'.tasks)
            && (s.tasks[t].point == WantDone ==> b.status == Cancelled && b.credentials == None && a.pair !in s'.sessions && t !in s'.tasks)
  {
    assert SessionInv(s, s.tasks[t].record, max);
  }

  /** Asking for the status polls a session that is still open, after a new code if its time is up and it may have one. */
  lemma StatusPolls(s: State, t: nat, late: bool, max: nat)
    requires Enabled(s, Acquire(t, late)) && s.tasks[t].point == WantStatus
    ensures var s', a := Apply(s, Acquire(t, late), max), s.records[s.tasks[t].record];
            if a.status in {Waiting, Scanned, Expired} then
              if !late then t in s'.tasks && s'.tasks[t].point == Polling && s'.records == s.records
              else if a.refreshes < max then t in s'.tasks && s'.tasks[t].point == RefreshFirst && s'.records == s.records
              else t !in s'.tasks && s'.records[s.tasks[t].record].status == Expired
            else t !in s'.tasks && s'.records == s.records
  {
    var status := s.records[s.tasks[t].record].status;
    assert status.Waiting? || status.Scanned? || status.Expired? || status.Error? || status.Ready? || status.Applying? || status.Cancelled?;
  }

  /** A start registers one fresh session; of the others exactly those of its profile are cancelled and forgotten. */
  lemma StartRegisters(s: State, profile: string, pair: string, qrcode: string, max: nat)
    requires RecordsInv(s, max) && Enabled(s, StartDone(profile, pair, qrcode))
    ensures var s', n := Apply(s, StartDone(profile, pair, qrcode), max), |s.records|;
            && |s'.records| == n + 1 && s'.records[n] == Session(pair, profile, Waiting, 0, None, qrcode) && Registered(s', n)
            && forall r :: 0 <= r < n && Registered(s, r) ==>
                 if s.records[r].profile == profile
                 then s'.records[r].status == Cancelled && s'.records[r].credentials == None && !Registered(s', r)
                 else s'.records[r] == s.records[r] && Registered(s', r)
  {
    var s', n := Apply(s, StartDone(profile, pair, qrcode), max), |s.records|;
    forall r | 0 <= r < n && Registered(s, r)
      ensures if s.records[r].profile == profile
              then s'.records[r].status == Cancelled && s'.records[r].credentials == None && !Registered(s', r)
              else s'.records[r] == s.records[r] && Registered(s', r)
    {
      StartOneRecord(s, profile, pair, qrcode, r);
    }
  }

  lemma StartOneRecord(s: State, profile: string, pair: string, qrcode: string, r: nat)
    requires Enabled(s, StartDone(profile, pair, qrcode)) && Registered(s, r)
    ensures var s' := StartDoneState(s, profile, pair, qrcode);
            && r < |s.records| < |s'.records|
            && if s.records[r].profile == profile
               then s'.records[r] == AsCancelled(s.records[r]) && !Registered(s', r)
               else s'.records[r] == s.records[r] && Registered(s', r)
  {
    assert s.records[r].pair != pair;
    assert s.records[r].pair in s.sessions && s.sessions[s.records[r].pair] == r;
  }

  // ---- over every run

  lemma RecordsStay(s: State, step: Step, max: nat)
    requires Enabled(s, step)
    ensures |s.records| <= |Apply(s, step, max).records|
    ensures forall i :: |s.records| <= i < |Apply(s, step, max).records| ==> Apply(s, step, max).records[i].credentials == None
  {
  }

  predicate Confirms(s: State, step: Step, r: nat, credentials: Option<string>) {
    step.Polled? && Works(s, step.task, r) && step.reply == Confirmed(credentials)
  }

  /** A step leaves credentials as they are, takes them away, or brings what was confirmed. */
  lemma CredentialsMove(s: State, step: Step, max: nat, r: nat)
    requires Inv(s, max) && Enabled(s, step) && r < |Apply(s, step, max).records|
    ensures var credentials := Apply(s, step, max).records[r].credentials;
            || credentials == None || Confirms(s, step, r, credentials)
            || (r < |s.records| && credentials == s.records[r].credentials)
  {
    RecordsStay(s, step, max);
    if r < |s.records| {
      assert SessionInv(s, r, max);
      ChangeIsCaused(s, step, max, r);
    }
  }

  ghost predicate WasConfirmed(states: seq<State>, steps: seq<Step>, n: nat, r: nat, credentials: Option<string>)
    requires n <= |steps| < |states|
  {
    exists j :: 0 <= j < n && Confirms(states[j], steps[j], r, credentials)
  }

  lemma RunStep(states: seq<State>, steps: seq<Step>, max: nat, i: nat)
    requires Run(states, steps, max) && i < |steps|
    ensures |states| == |steps| + 1 && Inv(states[i], max) && Enabled(states[i], steps[i]) && states[i + 1] == Apply(states[i], steps[i], max)
  {
    InvAlong(states, steps, max, i);
  }

  /** Over every run the credentials a session holds are the ones the service confirmed for this very session. */
  lemma {:induction false} CredentialsWereConfirmed(states: seq<State>, steps: seq<Step>, max: nat, i: nat, r: nat)
    requires Run(states, steps, max) && i < |states| && r < |states[i].records| && states[i].records[r].credentials.Some?
    ensures |steps| < |states| && i <= |steps| && WasConfirmed(states, steps, i, r, states[i].records[r].credentials)
  {
    if i > 0 {
      RunStep(states, steps, max, i - 1);
      CredentialsMove(states[i - 1], steps[i - 1], max, r);
      if !Confirms(states[i - 1], steps[i - 1], r, states[i].records[r].credentials) {
        CredentialsWereConfirmed(states, steps, max, i - 1, r);
      }
    }
  }
}
