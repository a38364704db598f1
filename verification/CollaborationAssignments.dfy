/**
 Who holds a work item of Collaboration, and whose request may change that: over every interleaving the
 holder is whom the last saved action names, the actor was allowed to act then, and a confirmation that
 was handed out is accepted exactly while it is unexpired and unused.
 */
module CollaborationAssignments {
  import opened Basics
  import opened JsonText
  import opened CanonicalJson
  import opened Collaboration

  // ---- one request

  /** Reassigning is for the two manager roles; otherwise the administrator and whoever holds the work item may act. */
  ghost predicate MayAct(input: Input, actor: Actor, before: Assignment) {
    var admin, manager := [0x7BA1, 0x7406, 0x5458], [0x91C7, 0x8D2D, 0x7ECF, 0x7406];
    || actor.role == admin
    || (input.action == Reassign && actor.role == manager)
    || (input.action != Reassign && (before.human == Some(actor.human) || before.role == Some(actor.role)))
  }

  /** An attempt was allowed, and its outcome says what it was asked. */
  ghost predicate Does(c: Commit, before: Assignment) {
    && MayAct(c.input, c.actor, before) && Assigned(c.input, c.actor, before, c.outcome.assignment)
    && c.outcome.taskId == c.input.taskId && c.outcome.action == c.input.action && c.outcome.at == c.now
    && c.task == TaskKey(c.actor.tenant, c.input.taskId) && c.key == ActionKey(c.actor.tenant, c.actor.human, c.input.key)
  }

  /** The effective assignment, the reply and the metadata of a saved attempt all say the same. */
  lemma AttemptAssigns(p: Plane, r: Request, ttl: int)
    requires AttemptsIn(p, r)
    ensures var (p', reply) := Handle(p, r.actor, r.input, r.token, r.now, ttl, r.nonce, r.callback);
            var c, task := CommitOf(p, r), TaskKey(r.actor.tenant, r.input.taskId);
            && c.actor == r.actor && c.input == r.input && c.now == r.now && c.callback == r.callback
            && task in p.tasks && task in p'.tasks && Does(c, Effective(p, task))
            && (r.callback == Saved ==>
                  && reply == Waiting(c.outcome) && Effective(p', task) == c.outcome.assignment
                  && p'.tasks[task].assignment == c.outcome.assignment
                  && r.input.key in p'.tasks[task].actions && p'.tasks[task].actions[r.input.key].done.outcome == c.outcome)
  {
  }

  /** Only a saved attempt on the work item itself moves its effective assignment. */
  lemma NothingElseAssigns(p: Plane, r: Request, ttl: int, task: TaskKey)
    requires task in p.tasks
    requires !AttemptsIn(p, r) || r.callback != Saved || task != TaskKey(r.actor.tenant, r.input.taskId)
    ensures var p' := Handle(p, r.actor, r.input, r.token, r.now, ttl, r.nonce, r.callback).0;
            task in p'.tasks && Effective(p', task) == Effective(p, task)
  {
  }

  /** Each refusal, by what is wrong with the request. */
  lemma RefusedExactly(p: Plane, r: Request, ttl: int)
    ensures var reply, task := Handle(p, r.actor, r.input, r.token, r.now, ttl, r.nonce, r.callback).1, TaskKey(r.actor.tenant, r.input.taskId);
            && (reply == InvalidInput <==>
                  || r.input.taskId == [] || r.input.key == []
                  || (r.input.action == Reassign && r.input.toHuman == None && r.input.toRole == None)
                  || (r.input.action != Reassign && (r.input.toHuman != None || r.input.toRole != None)))
            && (reply != InvalidInput ==>
                  && (reply == TaskNotFound <==> task !in p.tasks)
                  && (task in p.tasks ==> (reply == Forbidden <==> !MayAct(r.input, r.actor, Effective(p, task)))))
  {
  }

  // ---- who holds a work item, over every run

  predicate SavedOn(c: Commit, task: TaskKey) {
    c.callback == Saved && c.task == task
  }

  /** Among the first `n` attempts the last saved one on the work item assigns it so; with none it is still as at the start. */
  ghost predicate HolderIs(start: Assignment, attempts: seq<Commit>, n: nat, task: TaskKey, holder: Assignment)
    requires n <= |attempts|
  {
    || (holder == start && forall k :: 0 <= k < n ==> !SavedOn(attempts[k], task))
    || exists i :: 0 <= i < n && SavedOn(attempts[i], task) && holder == attempts[i].outcome.assignment
                && forall k :: i < k < n ==> !SavedOn(attempts[k], task)
  }

  ghost predicate AttemptDoes(h0: History, h: History, i: nat)
    requires i < |h.attempts|
  {
    var c := h.attempts[i];
    c.task in h0.plane.tasks
    && exists before :: HolderIs(Effective(h0.plane, c.task), h.attempts, i, c.task, before) && Does(c, before)
  }

  ghost predicate HeldSo(h0: History, h: History, task: TaskKey)
    requires task in h0.plane.tasks
  {
    task in h.plane.tasks && HolderIs(Effective(h0.plane, task), h.attempts, |h.attempts|, task, Effective(h.plane, task))
  }

  ghost predicate HoldersInv(h0: History, h: History) {
    && h.plane.tasks.Keys == h0.plane.tasks.Keys
    && (forall task {:trigger HeldSo(h0, h, task)} :: task in h0.plane.tasks ==> HeldSo(h0, h, task))
    && (forall i {:trigger AttemptDoes(h0, h, i)} :: 0 <= i < |h.attempts| ==> AttemptDoes(h0, h, i))
  }

  lemma HolderOfPrefix(start: Assignment, attempts: seq<Commit>, c: Commit, n: nat, task: TaskKey, holder: Assignment)
    requires n <= |attempts| && HolderIs(start, attempts, n, task, holder)
    ensures HolderIs(start, attempts + [c], n, task, holder)
    ensures n == |attempts| && !SavedOn(c, task) ==> HolderIs(start, attempts + [c], n + 1, task, holder)
  {
    var longer := attempts + [c];
    if i :| 0 <= i < n && SavedOn(attempts[i], task) && holder == attempts[i].outcome.assignment
            && forall k :: i < k < n ==> !SavedOn(attempts[k], task) {
      assert SavedOn(longer[i], task);
    }
  }

  lemma HolderIsNew(start: Assignment, attempts: seq<Commit>, c: Commit)
    requires SavedOn(c, c.task)
    ensures HolderIs(start, attempts + [c], |attempts| + 1, c.task, c.outcome.assignment)
  {
    assert (attempts + [c])[|attempts|] == c;
  }

  lemma OlderAttemptDoes(h0: History, h: History, h': History, i: nat)
    requires i < |h.attempts| && AttemptDoes(h0, h, i)
    requires h'.attempts == h.attempts || exists c :: h'.attempts == h.attempts + [c]
    ensures i < |h'.attempts| && AttemptDoes(h0, h', i)
  {
    var c := h.attempts[i];
    var before :| HolderIs(Effective(h0.plane, c.task), h.attempts, i, c.task, before) && Does(c, before);
    if d :| h'.attempts == h.attempts + [d] {
      HolderOfPrefix(Effective(h0.plane, c.task), h.attempts, d, i, c.task, before);
    }
  }

  lemma TasksStay(p: Plane, r: Request, ttl: int)
    ensures Handle(p, r.actor, r.input, r.token, r.now, ttl, r.nonce, r.callback).0.tasks.Keys == p.tasks.Keys
  {
    HandleWrites(p, r, ttl);
  }

  lemma TaskHeldSo(h0: History, h: History, r: Request, ttl: int, task: TaskKey)
    requires task in h0.plane.tasks && HeldSo(h0, h, task)
    ensures HeldSo(h0, Begun(h, r, ttl), task)
  {
    var h', start := Begun(h, r, ttl), Effective(h0.plane, task);
    if AttemptsIn(h.plane, r) {
      var c := CommitOf(h.plane, r);
      AttemptAssigns(h.plane, r, ttl);
      HolderOfPrefix(start, h.attempts, c, |h.attempts|, task, Effective(h.plane, task));
      if SavedOn(c, task) {
        HolderIsNew(start, h.attempts, c);
      } else {
        NothingElseAssigns(h.plane, r, ttl, task);
      }
    } else {
      NothingElseAssigns(h.plane, r, ttl, task);
    }
  }

  lemma NewAttemptDoes(h0: History, h: History, r: Request, ttl: int)
    requires HoldersInv(h0, h) && AttemptsIn(h.plane, r)
    ensures AttemptDoes(h0, Begun(h, r, ttl), |h.attempts|)
  {
    var c := CommitOf(h.plane, r);
    AttemptAssigns(h.plane, r, ttl);
    assert HeldSo(h0, h, c.task);
    HolderOfPrefix(Effective(h0.plane, c.task), h.attempts, c, |h.attempts|, c.task, Effective(h.plane, c.task));
  }

  lemma BeginKeepsHolders(h0: History, h: History, r: Request, ttl: int)
    requires HoldersInv(h0, h)
    ensures HoldersInv(h0, Begun(h, r, ttl))
  {
    var h' := Begun(h, r, ttl);
    TasksStay(h.plane, r, ttl);
    forall task | task in h0.plane.tasks ensures HeldSo(h0, h', task) {
      assert HeldSo(h0, h, task);
      TaskHeldSo(h0, h, r, ttl, task);
    }
    forall i | 0 <= i < |h'.attempts| ensures AttemptDoes(h0, h', i) {
      if i < |h.attempts| {
        assert AttemptDoes(h0, h, i);
        OlderAttemptDoes(h0, h, h', i);
      } else {
        NewAttemptDoes(h0, h, r, ttl);
      }
    }
  }

  lemma FinishKeepsHolders(h0: History, h: History, i: nat, ttl: int)
    requires HoldersInv(h0, h) && Enabled(h, Finish(i))
    ensures HoldersInv(h0, Apply(h, Finish(i), ttl))
  {
    var h' := Apply(h, Finish(i), ttl);
    forall task | task in h0.plane.tasks ensures HeldSo(h0, h', task) {
      assert HeldSo(h0, h, task);
    }
    forall j | 0 <= j < |h'.attempts| ensures AttemptDoes(h0, h', j) {
      assert AttemptDoes(h0, h, j);
      OlderAttemptDoes(h0, h, h', j);
    }
  }

  lemma {:induction false} HoldersAlong(h: History, histories: seq<History>, steps: seq<Step>, ttl: int, n: nat)
    requires Start(h) && RunFrom(h, histories, steps, ttl) && n < |histories|
    ensures HoldersInv(h, histories[n])
  {
    if n == 0 {
      forall task | task in h.plane.tasks ensures HeldSo(h, h, task) { }
    } else {
      HoldersAlong(h, histories, steps, ttl, n - 1);
      match steps[n - 1] {
        case Begin(r) => BeginKeepsHolders(h, histories[n - 1], r, ttl);
        case Finish(i) => FinishKeepsHolders(h, histories[n - 1], i, ttl);
      }
    }
  }

  /**
   In every interleaving a work item is held by whom the last saved action on it assigns, or as at the
   start; and each attempt was one its actor was allowed to make under the holder before it, and assigns
   whom it names, its actor, or that same holder.
   */
  lemma HeldByTheLastSaved(h: History, histories: seq<History>, steps: seq<Step>, ttl: int, n: nat)
    requires Start(h) && RunFrom(h, histories, steps, ttl) && n < |histories|
    ensures histories[n].plane.tasks.Keys == h.plane.tasks.Keys
    ensures forall task :: task in h.plane.tasks ==>
              HolderIs(Effective(h.plane, task), histories[n].attempts, |histories[n].attempts|, task, Effective(histories[n].plane, task))
    ensures forall i :: 0 <= i < |histories[n].attempts| ==> AttemptDoes(h, histories[n], i)
  {
    HoldersAlong(h, histories, steps, ttl, n);
    forall task | task in h.plane.tasks
      ensures HolderIs(Effective(h.plane, task), histories[n].attempts, |histories[n].attempts|, task, Effective(histories[n].plane, task))
    {
      assert HeldSo(h, histories[n], task);
    }
  }

  // ---- a confirmation is accepted

  ghost predicate EntryTells(p: Plane, n: nat)
    requires n in p.pending
  {
    var e := p.pending[n];
    && e.fingerprint == Fingerprint(e.input)
    && e.token == Token(e.actor.tenant, e.actor.human, e.input.taskId, e.input.action, Fingerprint(e.input), n, e.expiresAt)
  }

  /** A token that was handed out still waits, or an attempt has used it. */
  ghost predicate WaitsOrUsed(h: History, t: Token) {
    || (t.nonce in h.plane.pending && h.plane.pending[t.nonce].token == t)
    || exists i :: 0 <= i < |h.attempts| && h.attempts[i].nonce == t.nonce
  }

  /** The confirmation kept for a key is one for that key, and once it is gone its nonce does not come back. */
  ghost predicate KeptFor(h: History, key: ActionKey)
    requires key in h.plane.byKey
  {
    var n := h.plane.byKey[key];
    && (n in h.plane.pending ==> KeyOf(h.plane.pending[n].actor, h.plane.pending[n].input) == key)
    && exists t :: t in h.issued && t.nonce == n
  }

  ghost predicate ConfirmationsInv(h: History) {
    && (forall key {:trigger KeptFor(h, key)} :: key in h.plane.byKey ==> KeptFor(h, key))
    && (forall n {:trigger EntryTells(h.plane, n)} :: n in h.plane.pending ==> EntryTells(h.plane, n))
    && (forall t {:trigger WaitsOrUsed(h, t)} :: t in h.issued ==> WaitsOrUsed(h, t))
  }

  lemma PendingStays(p: Plane, r: Request, ttl: int)
    ensures var (p', reply) := Handle(p, r.actor, r.input, r.token, r.now, ttl, r.nonce, r.callback);
            && (forall n :: n in p.pending && n != r.nonce ==> n in p'.pending || (AttemptsIn(p, r) && n == r.token.value.nonce))
            && (reply.ConfirmationRequired? ==> exists n :: n in p'.pending && p'.pending[n].token == reply.token)
  {
    var (p', reply) := Handle(p, r.actor, r.input, r.token, r.now, ttl, r.nonce, r.callback);
    if reply.ConfirmationRequired? && p' == p {
      assert p'.pending[p.byKey[KeyIn(r)]].token == reply.token;
    } else if reply.ConfirmationRequired? {
      assert p'.pending[r.nonce].token == reply.token;
    }
  }

  /** A new confirmation is for this request, lives for `ttl`, and is kept for its key; no other key's is replaced. */
  lemma NewConfirmation(p: Plane, r: Request, ttl: int)
    requires r.nonce !in p.pending
    ensures var (p', reply) := Handle(p, r.actor, r.input, r.token, r.now, ttl, r.nonce, r.callback);
            && (r.nonce in p'.pending ==>
                  && EntryTells(p', r.nonce) && p'.pending[r.nonce].actor == r.actor && p'.pending[r.nonce].input == r.input
                  && p'.pending[r.nonce].expiresAt == r.now + ttl && reply == ConfirmationRequired(p'.pending[r.nonce].token))
            && (forall key :: key in p'.byKey ==>
                  || (key in p.byKey && p'.byKey[key] == p.byKey[key])
                  || (key == KeyIn(r) && p'.byKey[key] == r.nonce && r.nonce in p'.pending))
  {
  }

  lemma KeptAfter(h: History, r: Request, ttl: int, key: ActionKey)
    requires Inv(h) && ConfirmationsInv(h) && Enabled(h, Begin(r)) && key in Begun(h, r, ttl).plane.byKey
    ensures KeptFor(Begun(h, r, ttl), key)
  {
    var h' := Begun(h, r, ttl);
    HandleFrame(h.plane, r, ttl);
    NewConfirmation(h.plane, r, ttl);
    if key in h.plane.byKey && h'.plane.byKey[key] == h.plane.byKey[key] {
      assert KeptFor(h, key);
      var t :| t in h.issued && t.nonce == h.plane.byKey[key];
      assert t in h'.issued;
    } else {
      assert h'.plane.pending[r.nonce].token in h'.issued;
    }
  }

  lemma BeginKeepsConfirmations(h: History, r: Request, ttl: int)
    requires Inv(h) && ConfirmationsInv(h) && Enabled(h, Begin(r))
    ensures ConfirmationsInv(Begun(h, r, ttl))
  {
    var h' := Begun(h, r, ttl);
    HandleFrame(h.plane, r, ttl);
    PendingStays(h.plane, r, ttl);
    NewConfirmation(h.plane, r, ttl);
    assert r.nonce !in h.plane.pending;
    forall key | key in h'.plane.byKey ensures KeptFor(h', key) {
      KeptAfter(h, r, ttl, key);
    }
    forall n | n in h'.plane.pending ensures EntryTells(h'.plane, n) {
      if n in h.plane.pending {
        assert EntryTells(h.plane, n);
      }
    }
    forall t | t in h'.issued ensures WaitsOrUsed(h', t) {
      if t in h.issued {
        assert WaitsOrUsed(h, t);
        if t.nonce in h.plane.pending && h.plane.pending[t.nonce].token == t {
          if t.nonce !in h'.plane.pending {
            assert h'.attempts[|h.attempts|].nonce == t.nonce;
          }
        } else {
          var i :| 0 <= i < |h.attempts| && h.attempts[i].nonce == t.nonce;
          assert h'.attempts[i].nonce == t.nonce;
        }
      }
    }
  }

  lemma {:induction false} ConfirmationsAlong(h: History, histories: seq<History>, steps: seq<Step>, ttl: int, n: nat)
    requires Start(h) && RunFrom(h, histories, steps, ttl) && n < |histories|
    ensures Inv(histories[n]) && ConfirmationsInv(histories[n])
  {
    if n > 0 {
      ConfirmationsAlong(h, histories, steps, ttl, n - 1);
      StepKeepsInv(histories[n - 1], steps[n - 1], ttl);
      match steps[n - 1] {
        case Begin(r) => BeginKeepsConfirmations(histories[n - 1], r, ttl);
        case Finish(i) =>
          forall t | t in histories[n].issued ensures WaitsOrUsed(histories[n], t) {
            assert WaitsOrUsed(histories[n - 1], t);
          }
          forall key | key in histories[n].plane.byKey ensures KeptFor(histories[n], key) {
            assert KeptFor(histories[n - 1], key);
          }
          forall k | k in histories[n].plane.pending ensures EntryTells(histories[n].plane, k) {
            assert EntryTells(histories[n - 1].plane, k);
          }
      }
    }
  }

  /** A request no check but that of its confirmation can refuse. */
  ghost predicate OnlyToConfirm(p: Plane, r: Request) {
    && WellFormed(r.input) && TaskIn(r) in p.tasks && MayAct(r.input, r.actor, Effective(p, TaskIn(r)))
    && KeyIn(r) !in p.completed && !HasRecord(p, TaskIn(r), KeyIn(r))
  }

  /**
   In every interleaving a token that was handed out is accepted exactly if it was handed to this human
   for this payload, has not expired, and no attempt has used it.
   */
  lemma AcceptedExactly(h: History, histories: seq<History>, steps: seq<Step>, ttl: int, n: nat, r: Request)
    requires Start(h) && RunFrom(h, histories, steps, ttl) && n < |histories|
    requires r.token.Some? && r.token.value in histories[n].issued && OnlyToConfirm(histories[n].plane, r)
    ensures var t := r.token.value;
            AttemptsIn(histories[n].plane, r) <==>
              && t.tenant == r.actor.tenant && t.human == r.actor.human && t.fingerprint == Fingerprint(r.input)
              && r.now < t.expiresAt
              && forall i :: 0 <= i < |histories[n].attempts| ==> histories[n].attempts[i].nonce != t.nonce
  {
    var h', t := histories[n], r.token.value;
    ConfirmationsAlong(h, histories, steps, ttl, n);
    assert WaitsOrUsed(h', t);
    if t.nonce in h'.plane.pending {
      assert EntryTells(h'.plane, t.nonce);
      FingerprintInjective(h'.plane.pending[t.nonce].input, r.input);
      forall i | 0 <= i < |h'.attempts| ensures h'.attempts[i].nonce != t.nonce {
        assert AttemptInv(h', i);
      }
    }
  }

  /**
   In every interleaving a request without a token, which only lacks its confirmation, gets one that lives
   for `ttl` or is still alive, and the same request with this token is accepted until then.
   */
  lemma AskedThenAccepted(h: History, histories: seq<History>, steps: seq<Step>, ttl: int, n: nat, r: Request, again: Request)
    requires Start(h) && RunFrom(h, histories, steps, ttl) && n < |histories| && Enabled(histories[n], Begin(r))
    requires r.token.None? && OnlyToConfirm(histories[n].plane, r) && again.actor == r.actor && again.input == r.input
    ensures var (p', reply) := Handle(histories[n].plane, r.actor, r.input, r.token, r.now, ttl, r.nonce, r.callback);
            && reply.ConfirmationRequired?
            && (reply.token.expiresAt == r.now + ttl || (reply.token in histories[n].issued && reply.token.expiresAt > r.now))
            && (again.token == Some(reply.token) ==> (AttemptsIn(p', again) <==> again.now < reply.token.expiresAt))
  {
    var p := histories[n].plane;
    ConfirmationsAlong(h, histories, steps, ttl, n);
    if KeyIn(r) in p.byKey && p.byKey[KeyIn(r)] in p.pending {
      assert KeptFor(histories[n], KeyIn(r)) && EntryTells(p, p.byKey[KeyIn(r)]);
      FingerprintInjective(p.pending[p.byKey[KeyIn(r)]].input, r.input);
    }
  }
}
