module Collaboration {
  // The two-step collaboration actions: a request gets a signed, expiring confirmation, a second one
  // commits.
  //
  // The first request gets the confirmation, the second one brings it back.
  // One control plane serves many humans; its four maps live in memory, the commit callback also writes
  // each action into the work item's metadata.
  //
  // `requestAction` runs to its end in one go, with one exception: once the callback has saved the action,
  // `commit` waits at its `await` before it enters the action as completed, and other requests may come in
  // between. So a request is cut there: `Handle` is everything up to that `await`, `Complete` the rest.
  //
  // A signature cannot be forged, so a token is acceptable only if it was issued. SHA-256 has no
  // collisions, so the fingerprint is the canonical text itself.

  import opened Basics
  import opened JsonText
  import opened CanonicalJson

  datatype ActionKind = Accept | Dismiss | Reassign

  datatype WorkState = Open | Accepted | Dismissed | Reassigned

  datatype Actor = Actor(tenant: Text, human: Text, role: Text)

  datatype Input = Input(taskId: Text, action: ActionKind, key: Text, toHuman: Option<Text>, toRole: Option<Text>)

  datatype Assignment = Assignment(human: Option<Text>, role: Option<Text>, state: WorkState)

  datatype Outcome = Outcome(taskId: Text, action: ActionKind, assignment: Assignment, at: int)

  datatype Done = Done(fingerprint: Text, outcome: Outcome)

  datatype ActionKey = ActionKey(tenant: Text, human: Text, key: Text)

  datatype TaskKey = TaskKey(tenant: Text, id: Text)

  /** An action as a work item's metadata keeps it: under the bare idempotency key. */
  datatype Persisted = Persisted(tenant: Text, human: Text, done: Done)

  datatype Meta = Meta(assignment: Assignment, actions: map<Text, Persisted>)

  datatype Token = Token(tenant: Text, human: Text, taskId: Text, action: ActionKind, fingerprint: Text, nonce: nat, expiresAt: int)

  datatype Pending = Pending(actor: Actor, input: Input, fingerprint: Text, expiresAt: int, token: Token)

  /** How the commit callback ends: saved, thrown before it wrote the metadata, or thrown after. */
  datatype Callback = Saved | NotWritten | WrittenNotSaved

  datatype Reply =
    | Ok(outcome: Outcome, replayed: bool)
    | Waiting(outcome: Outcome)         // saved, at the `await`; no answer yet
    | ConfirmationRequired(token: Token)
    | InvalidInput
    | TaskNotFound
    | Forbidden
    | KeyReused
    | ConfirmationInvalid
    | CommitFailed

  datatype Plane = Plane(
    tasks: map<TaskKey, Meta>,
    assignments: map<TaskKey, Assignment>,
    pending: map<nat, Pending>,
    byKey: map<ActionKey, nat>,
    completed: map<ActionKey, Done>)

  // ---- the payload and its fingerprint

  function Units(s: string): Text
    requires forall i :: 0 <= i < |s| ==> s[i] as int < 128
  {
    seq<Unit>(|s|, i requires 0 <= i < |s| && s[i] as int < 128 => s[i] as int)
  }

  function ActionName(action: ActionKind): Text {
    match action
    case Accept => Units("accept")
    case Dismiss => Units("dismiss")
    case Reassign => Units("reassign")
  }

  function Optional(name: Text, value: Option<Text>): seq<Field> {
    if value.None? then [] else [Field(name, Str(value.value))]
  }

  function Names(): seq<Text> {
    [Units("taskId"), Units("action"), Units("idempotencyKey"), Units("assigneeHumanId"), Units("assigneeRole")]
  }

  function PayloadFields(names: seq<Text>, input: Input): seq<Field>
    requires |names| == 5
  {
    [ Field(names[0], Str(input.taskId)), Field(names[1], Str(ActionName(input.action))), Field(names[2], Str(input.key)) ]
    + Optional(names[3], input.toHuman) + Optional(names[4], input.toRole)
  }

  function Payload(input: Input): Json {
    Obj(PayloadFields(Names(), input))
  }

  function Fingerprint(input: Input): Text {
    Canonical(Payload(input))
  }

  lemma NamesDiffer()
    ensures Distinct(Names())
  {
    assert Units("taskId")[0] == 116 && Units("action")[0] == 97;
    assert |Units("taskId")| == 6 && |Units("action")| == 6;
    assert |Units("idempotencyKey")| == 14 && |Units("assigneeHumanId")| == 15 && |Units("assigneeRole")| == 12;
  }

  lemma ActionNamesDiffer(a: ActionKind, b: ActionKind)
    requires ActionName(a) == ActionName(b)
    ensures a == b
  {
    assert |Units("accept")| == 6 && |Units("dismiss")| == 7 && |Units("reassign")| == 8;
  }

  /** The value a payload has under a name, if any. */
  function ValueAt(fields: seq<Field>, name: Text): Option<Json> {
    if name in Keys(fields) then Some(fields[IndexOf(fields, name)].value) else None
  }

  lemma ValueAtIndex(fields: seq<Field>, i: nat)
    requires Distinct(Keys(fields)) && i < |fields|
    ensures ValueAt(fields, fields[i].key) == Some(fields[i].value)
  {
    assert Keys(fields)[i] == fields[i].key;
    var j := IndexOf(fields, fields[i].key);
    assert Keys(fields)[j] == Keys(fields)[i];
  }

  lemma PayloadValid(names: seq<Text>, input: Input)
    requires |names| == 5 && Distinct(names)
    ensures Valid(Obj(PayloadFields(names, input)))
  {
    assert names[0] != names[1] && names[0] != names[2] && names[0] != names[3] && names[0] != names[4];
    assert names[1] != names[2] && names[1] != names[3] && names[1] != names[4];
    assert names[2] != names[3] && names[2] != names[4] && names[3] != names[4];
  }

  lemma PayloadLookup(names: seq<Text>, input: Input)
    requires |names| == 5 && Distinct(names)
    ensures var fields := PayloadFields(names, input);
      && ValueAt(fields, names[0]) == Some(Str(input.taskId))
      && ValueAt(fields, names[1]) == Some(Str(ActionName(input.action)))
      && ValueAt(fields, names[2]) == Some(Str(input.key))
      && ValueAt(fields, names[3]) == (if input.toHuman.None? then None else Some(Str(input.toHuman.value)))
      && ValueAt(fields, names[4]) == (if input.toRole.None? then None else Some(Str(input.toRole.value)))
  {
    PayloadValid(names, input);
    assert names[0] != names[3] && names[1] != names[3] && names[2] != names[3] && names[3] != names[4];
    assert names[0] != names[4] && names[1] != names[4] && names[2] != names[4];
    var fields := PayloadFields(names, input);
    ValueAtIndex(fields, 0);
    ValueAtIndex(fields, 1);
    ValueAtIndex(fields, 2);
    if input.toHuman.Some? {
      ValueAtIndex(fields, 3);
    }
    if input.toRole.Some? {
      ValueAtIndex(fields, |fields| - 1);
    }
  }

  /** A payload is determined by what it has under its names. */
  lemma PayloadDetermined(names: seq<Text>, a: Input, b: Input)
    requires |names| == 5 && Distinct(names)
    requires Same(Obj(PayloadFields(names, a)), Obj(PayloadFields(names, b)))
    ensures a == b
  {
    var f, g := PayloadFields(names, a), PayloadFields(names, b);
    forall i | 0 <= i < 5 ensures ValueAt(f, names[i]) == ValueAt(g, names[i]) {
      SameLookup(f, g, names[i]);
    }
    PayloadLookup(names, a);
    PayloadLookup(names, b);
    ActionNamesDiffer(a.action, b.action);
  }

  predicate AllStrings(fields: seq<Field>) {
    forall i :: 0 <= i < |fields| ==> fields[i].value.Str?
  }

  lemma SameLookup(f: seq<Field>, g: seq<Field>, name: Text)
    requires Same(Obj(f), Obj(g)) && AllStrings(f)
    ensures ValueAt(f, name) == ValueAt(g, name)
  {
  }

  /** Different payloads have different fingerprints. */
  lemma FingerprintInjective(a: Input, b: Input)
    ensures Fingerprint(a) == Fingerprint(b) <==> a == b
  {
    if Fingerprint(a) == Fingerprint(b) {
      NamesDiffer();
      PayloadValid(Names(), a);
      PayloadValid(Names(), b);
      CanonicalIsInjective(Payload(a), Payload(b));
      PayloadDetermined(Names(), a, b);
    }
  }

  // ---- one request

  /** The two manager roles by their UTF-16 code units: administrator and purchasing manager. */
  function AdminRole(): Text {
    [0x7BA1, 0x7406, 0x5458]
  }

  function ManagerRole(): Text {
    [0x91C7, 0x8D2D, 0x7ECF, 0x7406]
  }

  /** `normalizeInput`: a reassignment names a target, nothing else does. */
  predicate WellFormed(input: Input) {
    && input.taskId != [] && input.key != []
    && (input.action.Reassign? <==> input.toHuman.Some? || input.toRole.Some?)
  }

  function KeyOf(actor: Actor, input: Input): ActionKey {
    ActionKey(actor.tenant, actor.human, input.key)
  }

  function TaskOf(actor: Actor, input: Input): TaskKey {
    TaskKey(actor.tenant, input.taskId)
  }

  /** `assignmentFor` */
  function Effective(p: Plane, task: TaskKey): Assignment
    requires task in p.tasks
  {
    if task in p.assignments then p.assignments[task] else p.tasks[task].assignment
  }

  predicate CanAct(p: Plane, actor: Actor, input: Input)
    requires TaskOf(actor, input) in p.tasks
  {
    var current := Effective(p, TaskOf(actor, input));
    if input.action.Reassign? then actor.role == AdminRole() || actor.role == ManagerRole()
    else actor.role == AdminRole() || current.human == Some(actor.human) || current.role == Some(actor.role)
  }

  /** `persistedCompletedAction` */
  function PersistedDone(p: Plane, actor: Actor, input: Input): Option<Done>
    requires TaskOf(actor, input) in p.tasks
  {
    var actions := p.tasks[TaskOf(actor, input)].actions;
    if input.key in actions && actions[input.key].tenant == actor.tenant && actions[input.key].human == actor.human
    then Some(actions[input.key].done) else None
  }

  /** The four checks of a confirmation against the pending entry it names. */
  predicate ConfirmationHolds(p: Plane, actor: Actor, input: Input, token: Token, now: int) {
    && token.tenant == actor.tenant && token.human == actor.human && token.expiresAt > now
    && token.taskId == input.taskId && token.action == input.action && token.fingerprint == Fingerprint(input)
    && token.nonce in p.pending
    && var entry := p.pending[token.nonce];
       entry.expiresAt > now && entry.fingerprint == Fingerprint(input) && entry.input.key == input.key
       && entry.actor.tenant == actor.tenant && entry.actor.human == actor.human
  }

  /** Whom an action assigns, given the holder before it: whom it names, the actor, or the same as before. */
  ghost predicate Assigned(input: Input, actor: Actor, before: Assignment, after: Assignment) {
    && (input.action == Reassign ==> after.human == input.toHuman && after.role == input.toRole && after.state == Reassigned)
    && (input.action == Accept ==> after.human == Some(actor.human) && after.role == Some(actor.role) && after.state == Accepted)
    && (input.action == Dismiss ==> after.human == before.human && after.role == before.role && after.state == Dismissed)
  }

  function NextAssignment(p: Plane, actor: Actor, input: Input): Assignment
    requires TaskOf(actor, input) in p.tasks
  {
    var current := Effective(p, TaskOf(actor, input));
    match input.action
    case Reassign => Assignment(input.toHuman, input.toRole, Reassigned)
    case Accept => Assignment(Some(actor.human), Some(actor.role), Accepted)
    case Dismiss => Assignment(current.human, current.role, Dismissed)
  }

  /** The metadata write of the commit callback. */
  function Written(p: Plane, actor: Actor, input: Input, outcome: Outcome): map<TaskKey, Meta>
    requires TaskOf(actor, input) in p.tasks
  {
    var task := TaskOf(actor, input);
    var record := Persisted(actor.tenant, actor.human, Done(Fingerprint(input), outcome));
    p.tasks[task := Meta(outcome.assignment, p.tasks[task].actions[input.key := record])]
  }

  /** `commit` up to its `await`; a callback that throws ends it there. */
  function CommitAction(p: Plane, actor: Actor, input: Input, now: int, callback: Callback): (Plane, Reply)
    requires TaskOf(actor, input) in p.tasks
  {
    var task := TaskOf(actor, input);
    var outcome := Outcome(input.taskId, input.action, NextAssignment(p, actor, input), now);
    var tasks' := if callback.NotWritten? then p.tasks else Written(p, actor, input, outcome);
    if callback.Saved? then
      (p.(tasks := tasks', assignments := p.assignments[task := outcome.assignment]), Waiting(outcome))
    else
      (p.(tasks := tasks', assignments := p.assignments[task := Effective(p, task)]), CommitFailed)
  }

  /** `commit` after its `await`. */
  function Complete(p: Plane, key: ActionKey, done: Done): Plane {
    p.(completed := p.completed[key := done])
  }

  function Confirm(p: Plane, actor: Actor, input: Input, now: int, ttl: int, nonce: nat): (Plane, Reply) {
    var key := KeyOf(actor, input);
    if key in p.byKey && p.byKey[key] in p.pending && p.pending[p.byKey[key]].fingerprint == Fingerprint(input)
       && p.pending[p.byKey[key]].expiresAt > now then
      (p, ConfirmationRequired(p.pending[p.byKey[key]].token))
    else
      var token := Token(actor.tenant, actor.human, input.taskId, input.action, Fingerprint(input), nonce, now + ttl);
      (p.(pending := p.pending[nonce := Pending(actor, input, Fingerprint(input), now + ttl, token)], byKey := p.byKey[key := nonce]),
       ConfirmationRequired(token))
  }

  /** Whether the request reaches `commit`. */
  predicate Attempts(p: Plane, actor: Actor, input: Input, token: Option<Token>, now: int) {
    && WellFormed(input) && TaskOf(actor, input) in p.tasks && CanAct(p, actor, input)
    && KeyOf(actor, input) !in p.completed && PersistedDone(p, actor, input).None?
    && token.Some? && ConfirmationHolds(p, actor, input, token.value, now)
  }

  /** `requestAction` up to the `await` of its commit. */
  function Handle(p: Plane, actor: Actor, input: Input, token: Option<Token>, now: int, ttl: int, nonce: nat, callback: Callback): (Plane, Reply) {
    var key, task := KeyOf(actor, input), TaskOf(actor, input);
    if !WellFormed(input) then (p, InvalidInput)
    else if task !in p.tasks then (p, TaskNotFound)
    else if !CanAct(p, actor, input) then (p, Forbidden)
    else if key in p.completed then
      if p.completed[key].fingerprint != Fingerprint(input) then (p, KeyReused) else (p, Ok(p.completed[key].outcome, true))
    else
      var persisted := PersistedDone(p, actor, input);
      if persisted.Some? then
        if persisted.value.fingerprint != Fingerprint(input) then (p, KeyReused)
        else (p.(completed := p.completed[key := persisted.value]), Ok(persisted.value.outcome, true))
      else if token.None? then Confirm(p, actor, input, now, ttl, nonce)
      else if !ConfirmationHolds(p, actor, input, token.value, now) then (p, ConfirmationInvalid)
      else CommitAction(p.(pending := p.pending - {token.value.nonce}, byKey := p.byKey - {key}), actor, input, now, callback)
  }

  /** The control plane with the maps its methods update. */
  class ControlPlane {
    const ttl: int
    var tasks: map<TaskKey, Meta>
    var assignments: map<TaskKey, Assignment>
    var pending: map<nat, Pending>
    var byKey: map<ActionKey, nat>
    var completed: map<ActionKey, Done>

    constructor (tasks: map<TaskKey, Meta>, ttl: int)
      ensures View() == Plane(tasks, map[], map[], map[], map[]) && this.ttl == ttl
    {
      this.tasks, this.ttl := tasks, ttl;
      assignments, pending, byKey, completed := map[], map[], map[], map[];
    }

    function View(): Plane
      reads this
    {
      Plane(tasks, assignments, pending, byKey, completed)
    }

    method RequestAction(actor: Actor, input: Input, token: Option<Token>, now: int, nonce: nat, callback: Callback) returns (reply: Reply)
      modifies this
      ensures (View(), reply) == Handle(old(View()), actor, input, token, now, ttl, nonce, callback)
    {
      if !WellFormed(input) {
        return InvalidInput;
      }
      var task, key, digest := TaskOf(actor, input), KeyOf(actor, input), Fingerprint(input);
      if task !in tasks {
        return TaskNotFound;
      }
      if !CanAct(View(), actor, input) {
        return Forbidden;
      }
      if key in completed {
        if completed[key].fingerprint != digest {
          return KeyReused;
        }
        return Ok(completed[key].outcome, true);
      }
      var persisted := PersistedDone(View(), actor, input);
      if persisted.Some? {
        if persisted.value.fingerprint != digest {
          return KeyReused;
        }
        completed := completed[key := persisted.value];
        return Ok(persisted.value.outcome, true);
      }
      if token.None? {
        if key in byKey && byKey[key] in pending {
          var entry := pending[byKey[key]];
          if entry.fingerprint == digest && entry.expiresAt > now {
            return ConfirmationRequired(entry.token);
          }
        }
        var issued := Token(actor.tenant, actor.human, input.taskId, input.action, digest, nonce, now + ttl);
        pending := pending[nonce := Pending(actor, input, digest, now + ttl, issued)];
        byKey := byKey[key := nonce];
        return ConfirmationRequired(issued);
      }
      if !ConfirmationHolds(View(), actor, input, token.value, now) {
        return ConfirmationInvalid;
      }
      pending := pending - {token.value.nonce};
      byKey := byKey - {key};
      reply := Commit(actor, input, now, callback);
    }

    method Commit(actor: Actor, input: Input, now: int, callback: Callback) returns (reply: Reply)
      requires TaskOf(actor, input) in tasks
      modifies this
      ensures (View(), reply) == CommitAction(old(View()), actor, input, now, callback)
      ensures callback == Saved ==>
                && reply.Waiting? && reply.outcome.taskId == input.taskId && reply.outcome.action == input.action && reply.outcome.at == now
                && TaskOf(actor, input) in assignments && assignments[TaskOf(actor, input)] == reply.outcome.assignment
                && Assigned(input, actor, Effective(old(View()), TaskOf(actor, input)), reply.outcome.assignment)
      ensures forall other :: other in old(tasks) && other != TaskOf(actor, input) ==> Effective(View(), other) == Effective(old(View()), other)
    {
      var task := TaskOf(actor, input);
      var current := Effective(View(), task);
      var assignment := NextAssignment(View(), actor, input);
      var outcome := Outcome(input.taskId, input.action, assignment, now);
      if callback != NotWritten {
        tasks := Written(View(), actor, input, outcome);
      }
      assignments := assignments[task := assignment];
      if callback != Saved {
        assert assignments[task := current] == old(assignments)[task := current];
        assignments := assignments[task := current];
        return CommitFailed;
      }
      return Waiting(outcome);
    }

    method CompleteCommit(key: ActionKey, done: Done) returns (reply: Reply)
      modifies this`completed
      ensures View() == Complete(old(View()), key, done) && reply == Ok(done.outcome, false)
    {
      completed := completed[key := done];
      return Ok(done.outcome, false);
    }
  }

  // ---- all interleavings

  datatype Request = Request(actor: Actor, input: Input, token: Option<Token>, now: int, nonce: nat, callback: Callback)

  /** One attempt to commit, and how its callback ended. */
  datatype Commit = Commit(actor: Actor, key: ActionKey, task: TaskKey, input: Input, nonce: nat, now: int, callback: Callback, outcome: Outcome)

  /** What happened so far: issued tokens, attempts, those that wait at their `await`, and the ok replies. */
  datatype History = History(plane: Plane, issued: set<Token>, attempts: seq<Commit>, waiting: set<nat>, oks: seq<(ActionKey, Outcome)>)

  datatype Step = Begin(request: Request) | Finish(attempt: nat)

  function KeyIn(r: Request): ActionKey { KeyOf(r.actor, r.input) }

  function TaskIn(r: Request): TaskKey { TaskOf(r.actor, r.input) }

  predicate AttemptsIn(p: Plane, r: Request) {
    Attempts(p, r.actor, r.input, r.token, r.now)
  }

  function CommitOf(p: Plane, r: Request): Commit
    requires AttemptsIn(p, r)
  {
    Commit(r.actor, KeyIn(r), TaskIn(r), r.input, r.token.value.nonce, r.now, r.callback,
           Outcome(r.input.taskId, r.input.action, NextAssignment(p, r.actor, r.input), r.now))
  }

  function DoneOf(c: Commit): Done { Done(Fingerprint(c.input), c.outcome) }

  /** A token carries a signature, so the only ones there are were issued; a new nonce is new. */
  ghost predicate Enabled(h: History, step: Step) {
    match step
    case Begin(r) => (r.token.Some? ==> r.token.value in h.issued) && forall t :: t in h.issued ==> t.nonce != r.nonce
    case Finish(i) => i in h.waiting && i < |h.attempts|
  }

  ghost function Begun(h: History, r: Request, ttl: int): History {
    var (plane', reply) := Handle(h.plane, r.actor, r.input, r.token, r.now, ttl, r.nonce, r.callback);
    History(plane',
            if reply.ConfirmationRequired? then h.issued + {reply.token} else h.issued,
            if AttemptsIn(h.plane, r) then h.attempts + [CommitOf(h.plane, r)] else h.attempts,
            if reply.Waiting? then h.waiting + {|h.attempts|} else h.waiting,
            if reply.Ok? then h.oks + [(KeyIn(r), reply.outcome)] else h.oks)
  }

  ghost function Apply(h: History, step: Step, ttl: int): History
    requires Enabled(h, step)
  {
    match step
    case Begin(r) => Begun(h, r, ttl)
    case Finish(i) =>
      var c := h.attempts[i];
      h.(plane := Complete(h.plane, c.key, DoneOf(c)), waiting := h.waiting - {i}, oks := h.oks + [(c.key, c.outcome)])
  }

  ghost predicate RunFrom(h: History, histories: seq<History>, steps: seq<Step>, ttl: int) {
    && |histories| == |steps| + 1
    && histories[0] == h
    && forall i :: 0 <= i < |steps| ==> Enabled(histories[i], steps[i]) && histories[i + 1] == Apply(histories[i], steps[i], ttl)
  }

  /** Any work items with any metadata, and nothing in memory. */
  ghost predicate Start(h: History) {
    && h.plane.assignments == map[] && h.plane.pending == map[] && h.plane.byKey == map[] && h.plane.completed == map[]
    && h.issued == {} && h.attempts == [] && h.waiting == {} && h.oks == []
  }

  // ---- every attempt was confirmed

  ghost predicate Confirmed(h: History, c: Commit) {
    exists t :: t in h.issued && Authorises(t, c)
  }

  /** An unexpired token of the same human for the same payload. */
  predicate Authorises(t: Token, c: Commit) {
    && t.nonce == c.nonce && t.expiresAt > c.now
    && t.tenant == c.key.tenant && t.human == c.key.human
    && t.taskId == c.input.taskId && t.action == c.input.action && t.fingerprint == Fingerprint(c.input)
  }

  /** Every pending entry holds its issued token, and a nonce names one token. */
  ghost predicate TokensInv(h: History) {
    && (forall n :: n in h.plane.pending ==> h.plane.pending[n].token.nonce == n && h.plane.pending[n].token in h.issued)
    && (forall t, u :: t in h.issued && u in h.issued && t.nonce == u.nonce ==> t == u)
  }

  /** What is known of an attempt: above all, a saved one that no longer waits has been completed. */
  ghost predicate AttemptInv(h: History, i: nat)
    requires i < |h.attempts|
  {
    var c := h.attempts[i];
    && Confirmed(h, c) && c.nonce !in h.plane.pending
    && c.task in h.plane.tasks && c.task == TaskKey(c.key.tenant, c.input.taskId) && c.input.key == c.key.key && WellFormed(c.input)
    && (c.callback.Saved? && i !in h.waiting ==> c.key in h.plane.completed)
  }

  ghost predicate NoncesDiffer(attempts: seq<Commit>) {
    forall i, j :: 0 <= i < j < |attempts| ==> attempts[i].nonce != attempts[j].nonce
  }

  ghost predicate AttemptsInv(h: History) {
    && (forall i {:trigger AttemptInv(h, i)} :: 0 <= i < |h.attempts| ==> AttemptInv(h, i))
    && NoncesDiffer(h.attempts)
    && forall i :: i in h.waiting ==> i < |h.attempts| && h.attempts[i].callback.Saved?
  }

  ghost predicate Inv(h: History) {
    TokensInv(h) && AttemptsInv(h)
  }

  /** What a request can do to the confirmations and to the completed actions. */
  lemma HandleFrame(p: Plane, r: Request, ttl: int)
    ensures var (p', reply) := Handle(p, r.actor, r.input, r.token, r.now, ttl, r.nonce, r.callback);
      && (forall k :: k in p.completed ==> k in p'.completed && p'.completed[k] == p.completed[k])
      && (forall n :: n in p'.pending ==>
            (n in p.pending && p'.pending[n] == p.pending[n]) ||
            (n == r.nonce && reply.ConfirmationRequired? && p'.pending[n].token == reply.token && reply.token.nonce == n))
      && (reply.ConfirmationRequired? ==>
            reply.token.nonce == r.nonce || exists n :: n in p.pending && p.pending[n].token == reply.token)
  {
  }

  /** What it can do to the metadata: only an attempt writes, and only its own record. */
  lemma HandleWrites(p: Plane, r: Request, ttl: int)
    ensures var (p', reply) := Handle(p, r.actor, r.input, r.token, r.now, ttl, r.nonce, r.callback);
      && (reply.Waiting? <==> AttemptsIn(p, r) && r.callback.Saved?)
      && (AttemptsIn(p, r) && !r.callback.NotWritten? ==> p'.tasks == Written(p, r.actor, r.input, CommitOf(p, r).outcome))
      && (!AttemptsIn(p, r) || r.callback.NotWritten? ==> p'.tasks == p.tasks)
  {
  }

  lemma KeepsTokensInv(h: History, r: Request, ttl: int)
    requires TokensInv(h) && Enabled(h, Begin(r))
    ensures TokensInv(Begun(h, r, ttl))
  {
    HandleFrame(h.plane, r, ttl);
  }

  lemma ConfirmedGrows(h: History, h': History, c: Commit)
    requires Confirmed(h, c) && h.issued <= h'.issued
    ensures Confirmed(h', c)
  {
    var t :| t in h.issued && Authorises(t, c);
    assert t in h'.issued;
  }

  /** An older attempt: its nonce does not come back, and a completed key stays completed. */
  lemma KeepsAttemptInv(h: History, r: Request, ttl: int, i: nat)
    requires TokensInv(h) && Enabled(h, Begin(r)) && i < |h.attempts| && AttemptInv(h, i)
    ensures AttemptInv(Begun(h, r, ttl), i)
  {
    HandleFrame(h.plane, r, ttl);
    HandleWrites(h.plane, r, ttl);
    ConfirmedGrows(h, Begun(h, r, ttl), h.attempts[i]);
    var t :| t in h.issued && Authorises(t, h.attempts[i]);
  }

  lemma NewAttemptInv(h: History, r: Request, ttl: int)
    requires Inv(h) && Enabled(h, Begin(r)) && AttemptsIn(h.plane, r)
    ensures AttemptInv(Begun(h, r, ttl), |h.attempts|)
    ensures forall i :: 0 <= i < |h.attempts| ==> h.attempts[i].nonce != r.token.value.nonce
  {
    var c := CommitOf(h.plane, r);
    HandleWrites(h.plane, r, ttl);
    assert r.token.value in h.issued && Authorises(r.token.value, c);
    forall i | 0 <= i < |h.attempts| ensures h.attempts[i].nonce != c.nonce {
      assert AttemptInv(h, i);
    }
  }

  lemma BeginKeepsInv(h: History, r: Request, ttl: int)
    requires Inv(h) && Enabled(h, Begin(r))
    ensures Inv(Begun(h, r, ttl))
  {
    var h' := Begun(h, r, ttl);
    KeepsTokensInv(h, r, ttl);
    HandleWrites(h.plane, r, ttl);
    if AttemptsIn(h.plane, r) {
      NewAttemptInv(h, r, ttl);
    }
    forall i | 0 <= i < |h'.attempts| ensures AttemptInv(h', i) {
      if i < |h.attempts| {
        assert AttemptInv(h, i);
        KeepsAttemptInv(h, r, ttl, i);
      }
    }
  }

  lemma FinishKeepsInv(h: History, i: nat, ttl: int)
    requires Inv(h) && Enabled(h, Finish(i))
    ensures Inv(Apply(h, Finish(i), ttl))
  {
    var h' := Apply(h, Finish(i), ttl);
    forall j | 0 <= j < |h'.attempts| ensures AttemptInv(h', j) {
      assert AttemptInv(h, j);
      ConfirmedGrows(h, h', h.attempts[j]);
    }
  }

  lemma StepKeepsInv(h: History, step: Step, ttl: int)
    requires Inv(h) && Enabled(h, step)
    ensures Inv(Apply(h, step, ttl))
  {
    match step {
      case Begin(r) => BeginKeepsInv(h, r, ttl);
      case Finish(i) => FinishKeepsInv(h, i, ttl);
    }
  }

  lemma {:induction false} InvAlong(h: History, histories: seq<History>, steps: seq<Step>, ttl: int, n: nat)
    requires Inv(h) && RunFrom(h, histories, steps, ttl) && n < |histories|
    ensures Inv(histories[n])
  {
    if n > 0 {
      InvAlong(h, histories, steps, ttl, n - 1);
      StepKeepsInv(histories[n - 1], steps[n - 1], ttl);
    }
  }

  /** In every interleaving each attempt had its own unexpired confirmation, issued to that human for that payload. */
  lemma AttemptsAreConfirmed(h: History, histories: seq<History>, steps: seq<Step>, ttl: int, n: nat)
    requires Start(h) && RunFrom(h, histories, steps, ttl) && n < |histories|
    ensures NoncesDiffer(histories[n].attempts)
    ensures forall i :: 0 <= i < |histories[n].attempts| ==> Confirmed(histories[n], histories[n].attempts[i])
  {
    InvAlong(h, histories, steps, ttl, n);
    forall i | 0 <= i < |histories[n].attempts| ensures Confirmed(histories[n], histories[n].attempts[i]) {
      assert AttemptInv(histories[n], i);
    }
  }

  // ---- how often a key commits

  /** The metadata of a work item has an action under this key, by this human. */
  predicate HasRecord(p: Plane, task: TaskKey, key: ActionKey) {
    task in p.tasks && key.key in p.tasks[task].actions
    && p.tasks[task].actions[key.key].tenant == key.tenant && p.tasks[task].actions[key.key].human == key.human
  }

  /** An attempt of another key that wrote its record where `key` would have one: another human, the same words. */
  predicate Displaces(c: Commit, task: TaskKey, key: ActionKey) {
    !c.callback.NotWritten? && c.task == task && c.key.key == key.key && c.key != key
  }

  ghost predicate DisplacedBetween(attempts: seq<Commit>, from: nat, to: nat, task: TaskKey, key: ActionKey) {
    exists k :: from <= k < to <= |attempts| && Displaces(attempts[k], task, key)
  }

  ghost predicate RecordStays(h: History, from: nat, task: TaskKey, key: ActionKey) {
    HasRecord(h.plane, task, key) || DisplacedBetween(h.attempts, from, |h.attempts|, task, key)
  }

  predicate Writes(c: Commit, task: TaskKey, key: ActionKey) {
    !c.callback.NotWritten? && c.task == task && c.key == key
  }

  /** Records stay until displaced, and whoever writes where a record was finds it displaced; `h0` is the start. */
  ghost predicate RecordsInv(h0: History, h: History) {
    && (forall i, task, key :: 0 <= i < |h.attempts| && Writes(h.attempts[i], task, key) ==> RecordStays(h, i + 1, task, key))
    && (forall task, key :: HasRecord(h0.plane, task, key) ==> RecordStays(h, 0, task, key))
    && (forall i, j, task, key :: 0 <= i < j < |h.attempts| && Writes(h.attempts[i], task, key) && Writes(h.attempts[j], task, key) ==>
          DisplacedBetween(h.attempts, i + 1, j, task, key))
    && (forall j, task, key :: 0 <= j < |h.attempts| && HasRecord(h0.plane, task, key) && Writes(h.attempts[j], task, key) ==>
          DisplacedBetween(h.attempts, 0, j, task, key))
  }

  lemma StaysOrDisplaced(h: History, r: Request, ttl: int, from: nat, task: TaskKey, key: ActionKey)
    requires from <= |h.attempts| && RecordStays(h, from, task, key)
    ensures RecordStays(Begun(h, r, ttl), from, task, key)
  {
    var h' := Begun(h, r, ttl);
    HandleWrites(h.plane, r, ttl);
    if DisplacedBetween(h.attempts, from, |h.attempts|, task, key) {
      var k :| from <= k < |h.attempts| && Displaces(h.attempts[k], task, key);
      assert Displaces(h'.attempts[k], task, key);
    } else if AttemptsIn(h.plane, r) && !HasRecord(h'.plane, task, key) {
      assert Displaces(h'.attempts[|h.attempts|], task, key);
    }
  }

  lemma PrefixDisplaced(h: History, c: Commit, from: nat, to: nat, task: TaskKey, key: ActionKey)
    requires to <= |h.attempts| && DisplacedBetween(h.attempts, from, to, task, key)
    ensures DisplacedBetween(h.attempts + [c], from, to, task, key)
  {
    var k :| from <= k < to && Displaces(h.attempts[k], task, key);
    assert Displaces((h.attempts + [c])[k], task, key);
  }

  lemma BeginKeepsRecordsInv(h0: History, h: History, r: Request, ttl: int)
    requires RecordsInv(h0, h)
    ensures RecordsInv(h0, Begun(h, r, ttl))
  {
    var h' := Begun(h, r, ttl);
    HandleWrites(h.plane, r, ttl);
    forall i, task, key | 0 <= i < |h'.attempts| && Writes(h'.attempts[i], task, key) ensures RecordStays(h', i + 1, task, key) {
      if i < |h.attempts| {
        StaysOrDisplaced(h, r, ttl, i + 1, task, key);
      }
    }
    forall task, key | HasRecord(h0.plane, task, key) ensures RecordStays(h', 0, task, key) {
      StaysOrDisplaced(h, r, ttl, 0, task, key);
    }
    forall i, j, task, key | 0 <= i < j < |h'.attempts| && Writes(h'.attempts[i], task, key) && Writes(h'.attempts[j], task, key)
      ensures DisplacedBetween(h'.attempts, i + 1, j, task, key)
    {
      assert Writes(h.attempts[i], task, key);
      if j == |h.attempts| {
        assert RecordStays(h, i + 1, task, key);
      }
      PrefixDisplaced(h, h'.attempts[|h'.attempts| - 1], i + 1, j, task, key);
    }
    forall j, task, key | 0 <= j < |h'.attempts| && HasRecord(h0.plane, task, key) && Writes(h'.attempts[j], task, key)
      ensures DisplacedBetween(h'.attempts, 0, j, task, key)
    {
      if j == |h.attempts| {
        assert RecordStays(h, 0, task, key);
      }
      PrefixDisplaced(h, h'.attempts[|h'.attempts| - 1], 0, j, task, key);
    }
  }

  lemma {:induction false} RecordsAlong(h: History, histories: seq<History>, steps: seq<Step>, ttl: int, n: nat)
    requires Start(h) && RunFrom(h, histories, steps, ttl) && n < |histories|
    ensures RecordsInv(h, histories[n])
  {
    if n > 0 {
      RecordsAlong(h, histories, steps, ttl, n - 1);
      match steps[n - 1] {
        case Begin(r) => BeginKeepsRecordsInv(h, histories[n - 1], r, ttl);
        case Finish(i) =>
          forall from, task, key | RecordStays(histories[n - 1], from, task, key) ensures RecordStays(histories[n], from, task, key) {
          }
      }
    }
  }

  /**
   In every interleaving a key is committed at most once on one work item, unless in between another human
   has written an action under the same idempotency key there.
   */
  lemma OncePerTaskUnlessDisplaced(h: History, histories: seq<History>, steps: seq<Step>, ttl: int, n: nat, i: nat, j: nat)
    requires Start(h) && RunFrom(h, histories, steps, ttl) && n < |histories| && i < j < |histories[n].attempts|
    requires histories[n].attempts[i].callback.Saved? && histories[n].attempts[j].callback.Saved?
    requires histories[n].attempts[i].key == histories[n].attempts[j].key && histories[n].attempts[i].task == histories[n].attempts[j].task
    ensures DisplacedBetween(histories[n].attempts, i + 1, j, histories[n].attempts[j].task, histories[n].attempts[j].key)
  {
    RecordsAlong(h, histories, steps, ttl, n);
    var c := histories[n].attempts[i];
    assert Writes(c, c.task, c.key) && Writes(histories[n].attempts[j], c.task, c.key);
  }

  /** A request that passes every check but the two that look for an earlier commit under its key. */
  predicate Ready(p: Plane, r: Request) {
    && WellFormed(r.input) && TaskIn(r) in p.tasks && CanAct(p, r.actor, r.input)
    && r.token.Some? && ConfirmationHolds(p, r.actor, r.input, r.token.value, r.now)
  }

  /**
   A confirmed request under a key that was saved before commits again exactly if the key is not completed
   and the work item has no record by this human; then the earlier commit still waits at its `await`.
   */
  lemma CommitsAgainExactly(h: History, r: Request, i: nat)
    requires Inv(h) && i < |h.attempts| && h.attempts[i].callback.Saved? && h.attempts[i].key == KeyIn(r) && Ready(h.plane, r)
    ensures AttemptsIn(h.plane, r) <==> KeyIn(r) !in h.plane.completed && !HasRecord(h.plane, TaskIn(r), KeyIn(r))
    ensures AttemptsIn(h.plane, r) ==> i in h.waiting
  {
    assert AttemptInv(h, i);
  }

  // ---- committed for good

  /** No run from here saves another commit of the key on the work item. */
  ghost predicate CommittedForGood(h: History, key: ActionKey, task: TaskKey, ttl: int) {
    forall histories: seq<History>, steps, n, j ::
      RunFrom(h, histories, steps, ttl) && 0 <= n < |histories| && |h.attempts| <= j < |histories[n].attempts| ==>
        !(histories[n].attempts[j].callback.Saved? && histories[n].attempts[j].key == key && histories[n].attempts[j].task == task)
  }

  /** No attempt after the first `m` is under the key. */
  ghost predicate NoneAfter(h: History, m: nat, key: ActionKey) {
    forall j :: m <= j < |h.attempts| ==> h.attempts[j].key != key
  }

  lemma {:induction false} CompletedStops(h: History, histories: seq<History>, steps: seq<Step>, ttl: int, n: nat, key: ActionKey)
    requires key in h.plane.completed && RunFrom(h, histories, steps, ttl) && n < |histories|
    ensures key in histories[n].plane.completed && NoneAfter(histories[n], |h.attempts|, key)
  {
    if n > 0 {
      CompletedStops(h, histories, steps, ttl, n - 1, key);
      match steps[n - 1] {
        case Begin(r) => HandleFrame(histories[n - 1].plane, r, ttl);
        case Finish(i) =>
      }
    }
  }

  lemma {:induction false} SomeNonceIsNew(tokens: set<Token>) returns (nonce: nat)
    ensures forall t :: t in tokens ==> t.nonce < nonce
  {
    nonce := 0;
    if tokens != {} {
      var t :| t in tokens;
      var rest := SomeNonceIsNew(tokens - {t});
      nonce := Max(t.nonce + 1, rest);
      assert forall u :: u in tokens ==> u == t || u in tokens - {t};
    }
  }

  lemma {:induction false} SomeTextIsNew(texts: set<Text>) returns (text: Text)
    ensures forall t :: t in texts ==> |t| < |text|
  {
    text := [];
    if texts != {} {
      var t :| t in texts;
      var rest := SomeTextIsNew(texts - {t});
      text := if |rest| > |t| then rest else t + [QUOTE];
      assert forall u :: u in texts ==> u == t || u in texts - {t};
    }
  }

  function Asking(actor: Actor, input: Input, now: int, nonce: nat): Request {
    Request(actor, input, None, now, nonce, Saved)
  }

  function IssuedFor(actor: Actor, input: Input, expiresAt: int, nonce: nat): Token {
    Token(actor.tenant, actor.human, input.taskId, input.action, Fingerprint(input), nonce, expiresAt)
  }

  /** Nothing in memory or in the metadata answers for the key, and the actor may act on everything. */
  ghost predicate Open(p: Plane, actor: Actor, input: Input) {
    && actor.role == AdminRole() && input.action.Accept? && WellFormed(input) && TaskOf(actor, input) in p.tasks
    && KeyOf(actor, input) !in p.completed && !HasRecord(p, TaskOf(actor, input), KeyOf(actor, input))
  }

  /** The first request gets a new confirmation, once an older one has expired. */
  lemma AskNow(h: History, actor: Actor, input: Input, now: int, nonce: nat, ttl: int)
    requires Open(h.plane, actor, input) && forall t :: t in h.issued ==> t.nonce < nonce
    requires KeyOf(actor, input) in h.plane.byKey && h.plane.byKey[KeyOf(actor, input)] in h.plane.pending ==>
               h.plane.pending[h.plane.byKey[KeyOf(actor, input)]].expiresAt <= now
    ensures Enabled(h, Begin(Asking(actor, input, now, nonce)))
    ensures Begun(h, Asking(actor, input, now, nonce), ttl) == Asked(h, actor, input, now + ttl, nonce)
  {
  }

  ghost function Asked(h: History, actor: Actor, input: Input, expiresAt: int, nonce: nat): History {
    var token := IssuedFor(actor, input, expiresAt, nonce);
    var entry := Pending(actor, input, Fingerprint(input), expiresAt, token);
    h.(plane := h.plane.(pending := h.plane.pending[nonce := entry], byKey := h.plane.byKey[KeyOf(actor, input) := nonce]),
       issued := h.issued + {token})
  }

  /** The second request commits it. */
  lemma CommitNow(h: History, actor: Actor, input: Input, ttl: int) returns (h': History, first: Step, second: Step)
    requires Inv(h) && Open(h.plane, actor, input) && ttl > 0
    ensures Enabled(h, first) && Enabled(Apply(h, first, ttl), second) && h' == Apply(Apply(h, first, ttl), second, ttl)
    ensures Apply(h, first, ttl).attempts == h.attempts && |h'.attempts| == |h.attempts| + 1
    ensures Writes(h'.attempts[|h.attempts|], TaskOf(actor, input), KeyOf(actor, input)) && h'.attempts[|h.attempts|].callback.Saved?
    ensures h'.plane.completed == h.plane.completed && HasRecord(h'.plane, TaskOf(actor, input), KeyOf(actor, input))
    ensures h'.plane.tasks.Keys == h.plane.tasks.Keys
  {
    var key, nonce := KeyOf(actor, input), 0;
    nonce := SomeNonceIsNew(h.issued);
    var now := if key in h.plane.byKey && h.plane.byKey[key] in h.plane.pending then h.plane.pending[h.plane.byKey[key]].expiresAt else 0;
    AskNow(h, actor, input, now, nonce, ttl);
    first := Begin(Asking(actor, input, now, nonce));
    var asked, token := Apply(h, first, ttl), IssuedFor(actor, input, now + ttl, nonce);
    var r := Request(actor, input, Some(token), now, nonce + 1, Saved);
    second := Begin(r);
    assert AttemptsIn(asked.plane, r);
    HandleWrites(asked.plane, r, ttl);
    h' := Apply(asked, second, ttl);
  }

  /** What a run from the next state commits, a run from this one commits. */
  lemma CommitsLater(h: History, step: Step, key: ActionKey, task: TaskKey, ttl: int)
    requires Enabled(h, step) && |h.attempts| <= |Apply(h, step, ttl).attempts|
    requires !CommittedForGood(Apply(h, step, ttl), key, task, ttl)
    ensures !CommittedForGood(h, key, task, ttl)
  {
    var h' := Apply(h, step, ttl);
    var histories: seq<History>, steps, n, j :|
      RunFrom(h', histories, steps, ttl) && 0 <= n < |histories| && |h'.attempts| <= j < |histories[n].attempts|
      && histories[n].attempts[j].callback.Saved? && histories[n].attempts[j].key == key && histories[n].attempts[j].task == task;
    var longer, all := [h] + histories, [step] + steps;
    forall i | 0 <= i < |all| ensures Enabled(longer[i], all[i]) && longer[i + 1] == Apply(longer[i], all[i], ttl) {
      if i >= 1 {
        assert longer[i] == histories[i - 1] && longer[i + 1] == histories[i] && all[i] == steps[i - 1];
      }
    }
    assert RunFrom(h, longer, all, ttl) && longer[n + 1] == histories[n];
  }

  lemma CommitsNext(h: History, step: Step, j: nat, ttl: int)
    requires Enabled(h, step) && |h.attempts| <= j < |Apply(h, step, ttl).attempts|
    requires Apply(h, step, ttl).attempts[j].callback.Saved?
    ensures var c := Apply(h, step, ttl).attempts[j]; !CommittedForGood(h, c.key, c.task, ttl)
  {
    var histories, steps := [h, Apply(h, step, ttl)], [step];
    assert RunFrom(h, histories, steps, ttl) && |histories| == 2 && j < |histories[1].attempts|;
  }

  /** Where the human has no record, two requests commit the key again. */
  lemma CommitsWithoutRecord(h: History, key: ActionKey, task: TaskKey, ttl: int)
    requires Inv(h) && ttl > 0 && key !in h.plane.completed && !HasRecord(h.plane, task, key)
    requires task in h.plane.tasks && task.tenant == key.tenant && task.id != [] && key.key != []
    ensures !CommittedForGood(h, key, task, ttl)
  {
    var h', a, b := CommitNow(h, Actor(key.tenant, key.human, AdminRole()), Input(task.id, Accept, key.key, None, None), ttl);
    CommitsNext(Apply(h, a, ttl), b, |h.attempts|, ttl);
    CommitsLater(h, a, key, task, ttl);
  }

  /** Another human, with an action under the same idempotency key, displaces it. */
  lemma DisplaceRecord(h: History, key: ActionKey, task: TaskKey, ttl: int) returns (h': History, a: Step, b: Step)
    requires Inv(h) && ttl > 0 && HasRecord(h.plane, task, key)
    requires task.tenant == key.tenant && task.id != [] && key.key != []
    ensures Enabled(h, a) && Enabled(Apply(h, a, ttl), b) && h' == Apply(Apply(h, a, ttl), b, ttl)
    ensures h'.plane.completed == h.plane.completed && task in h'.plane.tasks && !HasRecord(h'.plane, task, key)
    ensures |h.attempts| == |Apply(h, a, ttl).attempts| <= |h'.attempts|
  {
    var humans := set k | k in h.plane.completed :: k.human;
    var human := SomeTextIsNew(humans + {key.human});
    var other := ActionKey(key.tenant, human, key.key);
    assert key.human in humans + {key.human};
    assert forall k :: k in h.plane.completed ==> k.human in humans;
    h', a, b := CommitNow(h, Actor(key.tenant, human, AdminRole()), Input(task.id, Accept, key.key, None, None), ttl);
  }

  lemma NotCompletedCommitsAgain(h: History, i: nat, ttl: int)
    requires Inv(h) && ttl > 0 && i < |h.attempts| && h.attempts[i].key !in h.plane.completed
    ensures !CommittedForGood(h, h.attempts[i].key, h.attempts[i].task, ttl)
  {
    var key, task := h.attempts[i].key, h.attempts[i].task;
    assert AttemptInv(h, i);
    if HasRecord(h.plane, task, key) {
      var h', a, b := DisplaceRecord(h, key, task, ttl);
      StepKeepsInv(h, a, ttl);
      StepKeepsInv(Apply(h, a, ttl), b, ttl);
      CommitsWithoutRecord(h', key, task, ttl);
      CommitsLater(Apply(h, a, ttl), b, key, task, ttl);
      CommitsLater(h, a, key, task, ttl);
    } else {
      CommitsWithoutRecord(h, key, task, ttl);
    }
  }

  /**
   A saved commit is the last one of its key on its work item, whatever requests follow, if and only if its
   key is completed; until then it waits at its `await`. Once the key is completed it commits nowhere else.
   */
  lemma CommittedForGoodExactlyWhenCompleted(h: History, i: nat, ttl: int)
    requires Inv(h) && ttl > 0 && i < |h.attempts| && h.attempts[i].callback.Saved?
    ensures CommittedForGood(h, h.attempts[i].key, h.attempts[i].task, ttl) <==> h.attempts[i].key in h.plane.completed
    ensures i !in h.waiting ==> h.attempts[i].key in h.plane.completed
  {
    var key, task := h.attempts[i].key, h.attempts[i].task;
    assert AttemptInv(h, i);
    if key in h.plane.completed {
      forall histories: seq<History>, steps, n, j |
        RunFrom(h, histories, steps, ttl) && 0 <= n < |histories| && |h.attempts| <= j < |histories[n].attempts|
        ensures histories[n].attempts[j].key != key
      {
        CompletedStops(h, histories, steps, ttl, n, key);
      }
    } else {
      NotCompletedCommitsAgain(h, i, ttl);
    }
  }

  /** From the start of a process two requests lead to a commit that is not for good: the same work item can see the key again. */
  lemma NotForGoodWhileWaiting(h: History, key: ActionKey, task: TaskKey, ttl: int) returns (h': History, first: Step, second: Step)
    requires Start(h) && ttl > 0 && task in h.plane.tasks && !HasRecord(h.plane, task, key)
    requires task.tenant == key.tenant && task.id != [] && key.key != []
    ensures Enabled(h, first) && Enabled(Apply(h, first, ttl), second) && h' == Apply(Apply(h, first, ttl), second, ttl)
    ensures |h'.attempts| == 1 && Writes(h'.attempts[0], task, key) && h'.attempts[0].callback.Saved?
    ensures !CommittedForGood(h', key, task, ttl)
  {
    h', first, second := CommitNow(h, Actor(key.tenant, key.human, AdminRole()), Input(task.id, Accept, key.key, None, None), ttl);
    StepKeepsInv(h, first, ttl);
    StepKeepsInv(Apply(h, first, ttl), second, ttl);
    NotCompletedCommitsAgain(h', 0, ttl);
  }

  // ---- what an ok reply reports

  predicate WrittenBy(c: Commit, key: ActionKey, outcome: Outcome) {
    !c.callback.NotWritten? && c.key == key && c.outcome == outcome
  }

  function RecordedAt(p: Plane, task: TaskKey, key: ActionKey): Outcome
    requires HasRecord(p, task, key)
  {
    p.tasks[task].actions[key.key].done.outcome
  }

  ghost predicate InMetadata(p: Plane, key: ActionKey, outcome: Outcome) {
    exists task :: HasRecord(p, task, key) && RecordedAt(p, task, key) == outcome
  }

  /** The outcome of an attempt of this key whose callback wrote it, or of a record that was there at the start. */
  ghost predicate Reported(h0: History, h: History, key: ActionKey, outcome: Outcome) {
    (exists c :: c in h.attempts && WrittenBy(c, key, outcome)) || InMetadata(h0.plane, key, outcome)
  }

  ghost predicate SourcesInv(h0: History, h: History) {
    && (forall key :: key in h.plane.completed ==> Reported(h0, h, key, h.plane.completed[key].outcome))
    && (forall task, key :: HasRecord(h.plane, task, key) ==> Reported(h0, h, key, RecordedAt(h.plane, task, key)))
    && (forall i :: 0 <= i < |h.oks| ==> Reported(h0, h, h.oks[i].0, h.oks[i].1))
    && (forall i :: i in h.waiting ==> i < |h.attempts| && h.attempts[i].callback.Saved?)
  }

  lemma ReportedGrows(h0: History, h: History, h': History, key: ActionKey, outcome: Outcome)
    requires Reported(h0, h, key, outcome) && forall c :: c in h.attempts ==> c in h'.attempts
    ensures Reported(h0, h', key, outcome)
  {
  }

  /** A replay answers from what is completed or recorded. */
  lemma HandleAnswers(p: Plane, r: Request, ttl: int)
    ensures var (p', reply) := Handle(p, r.actor, r.input, r.token, r.now, ttl, r.nonce, r.callback);
      && (reply.Ok? ==>
            if KeyIn(r) in p.completed then
              reply.outcome == p.completed[KeyIn(r)].outcome && p'.completed == p.completed
            else
              && HasRecord(p, TaskIn(r), KeyIn(r)) && reply.outcome == RecordedAt(p, TaskIn(r), KeyIn(r))
              && p'.completed.Keys == p.completed.Keys + {KeyIn(r)} && p'.completed[KeyIn(r)].outcome == reply.outcome)
      && (!reply.Ok? ==> p'.completed == p.completed)
  {
  }

  lemma BeginKeepsSources(h0: History, h: History, r: Request, ttl: int)
    requires SourcesInv(h0, h)
    ensures SourcesInv(h0, Begun(h, r, ttl))
  {
    var h' := Begun(h, r, ttl);
    HandleAnswers(h.plane, r, ttl);
    HandleFrame(h.plane, r, ttl);
    HandleWrites(h.plane, r, ttl);
    forall key, outcome | Reported(h0, h, key, outcome) ensures Reported(h0, h', key, outcome) {
      ReportedGrows(h0, h, h', key, outcome);
    }
    forall task, key | HasRecord(h'.plane, task, key) ensures Reported(h0, h', key, RecordedAt(h'.plane, task, key)) {
      if HasRecord(h.plane, task, key) && RecordedAt(h'.plane, task, key) == RecordedAt(h.plane, task, key) {
      } else {
        assert WrittenBy(h'.attempts[|h.attempts|], key, RecordedAt(h'.plane, task, key));
      }
    }
  }

  lemma FinishKeepsSources(h0: History, h: History, i: nat, ttl: int)
    requires SourcesInv(h0, h) && Enabled(h, Finish(i))
    ensures SourcesInv(h0, Apply(h, Finish(i), ttl))
  {
    var h', c := Apply(h, Finish(i), ttl), h.attempts[i];
    assert c in h.attempts && WrittenBy(c, c.key, c.outcome);
    forall key, outcome | Reported(h0, h, key, outcome) ensures Reported(h0, h', key, outcome) {
      ReportedGrows(h0, h, h', key, outcome);
    }
    assert forall task, key :: HasRecord(h'.plane, task, key) <==> HasRecord(h.plane, task, key);
  }

  lemma {:induction false} SourcesAlong(h: History, histories: seq<History>, steps: seq<Step>, ttl: int, n: nat)
    requires Start(h) && RunFrom(h, histories, steps, ttl) && n < |histories|
    ensures SourcesInv(h, histories[n])
  {
    if n > 0 {
      SourcesAlong(h, histories, steps, ttl, n - 1);
      match steps[n - 1] {
        case Begin(r) => BeginKeepsSources(h, histories[n - 1], r, ttl);
        case Finish(i) => FinishKeepsSources(h, histories[n - 1], i, ttl);
      }
    }
  }

  /**
   In every interleaving an ok reply reports an action that was written under its key: by an attempt whose
   callback saved it or threw only afterwards, or before the process started.
   */
  lemma OkRepliesWereWritten(h: History, histories: seq<History>, steps: seq<Step>, ttl: int, n: nat)
    requires Start(h) && RunFrom(h, histories, steps, ttl) && n < |histories|
    ensures forall i :: 0 <= i < |histories[n].oks| ==> Reported(h, histories[n], histories[n].oks[i].0, histories[n].oks[i].1)
  {
    SourcesAlong(h, histories, steps, ttl, n);
  }

  /** The tenant uses the idempotency key for one human and one work item. */
  ghost predicate ServesOnce(h0: History, h: History, key: ActionKey, task: TaskKey) {
    && (forall c :: c in h.attempts && c.key.tenant == key.tenant && c.key.key == key.key ==> c.key == key && c.task == task)
    && (forall t :: HasRecord(h0.plane, t, key) ==> t == task)
  }

  /** Such a key is written by one attempt at most, and all its ok replies are the same. */
  lemma OneCommitPerKey(h: History, histories: seq<History>, steps: seq<Step>, ttl: int, n: nat, key: ActionKey, task: TaskKey)
    requires Start(h) && RunFrom(h, histories, steps, ttl) && n < |histories|
    requires task.tenant == key.tenant && ServesOnce(h, histories[n], key, task)
    ensures var h' := histories[n];
      && (forall i, j :: 0 <= i < j < |h'.attempts| && h'.attempts[i].key == key && h'.attempts[j].key == key ==>
            h'.attempts[i].callback.NotWritten? || h'.attempts[j].callback.NotWritten?)
      && (forall i, j :: 0 <= i < |h'.oks| && 0 <= j < |h'.oks| && h'.oks[i].0 == key && h'.oks[j].0 == key ==> h'.oks[i].1 == h'.oks[j].1)
  {
    var h' := histories[n];
    RecordsAlong(h, histories, steps, ttl, n);
    SourcesAlong(h, histories, steps, ttl, n);
    InvAlong(h, histories, steps, ttl, n);
    NeverDisplaced(h, h', key, task);
    forall i, j | 0 <= i < |h'.oks| && 0 <= j < |h'.oks| && h'.oks[i].0 == key && h'.oks[j].0 == key ensures h'.oks[i].1 == h'.oks[j].1 {
      OneReport(h, h', key, task, h'.oks[i].1, h'.oks[j].1);
    }
  }

  lemma NeverDisplaced(h0: History, h: History, key: ActionKey, task: TaskKey)
    requires Inv(h) && RecordsInv(h0, h) && task.tenant == key.tenant && ServesOnce(h0, h, key, task)
    ensures forall i :: 0 <= i < |h.attempts| ==> !Displaces(h.attempts[i], task, key)
    ensures forall i, j :: 0 <= i < j < |h.attempts| ==> !(Writes(h.attempts[i], task, key) && Writes(h.attempts[j], task, key))
    ensures forall j :: 0 <= j < |h.attempts| && Writes(h.attempts[j], task, key) ==> !HasRecord(h0.plane, task, key)
    ensures forall j :: 0 <= j < |h.attempts| && h.attempts[j].key == key ==> h.attempts[j].task == task
  {
    forall i | 0 <= i < |h.attempts| ensures !Displaces(h.attempts[i], task, key) {
      assert AttemptInv(h, i);
    }
  }

  lemma OneReport(h0: History, h: History, key: ActionKey, task: TaskKey, a: Outcome, b: Outcome)
    requires Inv(h) && RecordsInv(h0, h) && task.tenant == key.tenant && ServesOnce(h0, h, key, task)
    requires Reported(h0, h, key, a) && Reported(h0, h, key, b)
    ensures a == b
  {
    NeverDisplaced(h0, h, key, task);
    if c :| c in h.attempts && WrittenBy(c, key, a) {
      var i :| 0 <= i < |h.attempts| && h.attempts[i] == c;
      assert Writes(h.attempts[i], task, key);
    }
    if d :| d in h.attempts && WrittenBy(d, key, b) {
      var j :| 0 <= j < |h.attempts| && h.attempts[j] == d;
      assert Writes(h.attempts[j], task, key);
    }
  }

  // ---- keys that are not used while they wait

  /** No request begins while a commit under its own key waits. */
  ghost predicate Apart(h: History, step: Step) {
    step.Begin? ==> forall i :: i in h.waiting && i < |h.attempts| ==> h.attempts[i].key != KeyIn(step.request)
  }

  ghost predicate SavedOnce(attempts: seq<Commit>) {
    forall i, j :: 0 <= i < j < |attempts| && attempts[i].callback.Saved? && attempts[j].callback.Saved? ==> attempts[i].key != attempts[j].key
  }

  /** A waiting key is not completed yet, and an ok reply is what its key is completed with. */
  ghost predicate ApartInv(h: History) {
    && SavedOnce(h.attempts)
    && (forall i :: i in h.waiting ==> i < |h.attempts| && h.attempts[i].key !in h.plane.completed)
    && OksCompleted(h)
  }

  ghost predicate OksCompleted(h: History) {
    forall i :: 0 <= i < |h.oks| ==> h.oks[i].0 in h.plane.completed && h.plane.completed[h.oks[i].0].outcome == h.oks[i].1
  }

  lemma NewKeyIsNew(h: History, r: Request)
    requires Inv(h) && Enabled(h, Begin(r)) && Apart(h, Begin(r)) && AttemptsIn(h.plane, r)
    ensures forall i :: 0 <= i < |h.attempts| && h.attempts[i].callback.Saved? ==> h.attempts[i].key != KeyIn(r)
  {
    forall i | 0 <= i < |h.attempts| && h.attempts[i].callback.Saved? ensures h.attempts[i].key != KeyIn(r) {
      assert AttemptInv(h, i);
    }
  }

  lemma BeginKeepsOks(h: History, r: Request, ttl: int)
    requires OksCompleted(h)
    ensures OksCompleted(Begun(h, r, ttl))
  {
    HandleAnswers(h.plane, r, ttl);
    HandleFrame(h.plane, r, ttl);
  }

  lemma BeginKeepsWaiting(h: History, r: Request, ttl: int)
    requires ApartInv(h) && Apart(h, Begin(r))
    ensures var h' := Begun(h, r, ttl); forall i :: i in h'.waiting ==> i < |h'.attempts| && h'.attempts[i].key !in h'.plane.completed
  {
    HandleAnswers(h.plane, r, ttl);
    HandleWrites(h.plane, r, ttl);
  }

  lemma BeginKeepsApart(h: History, r: Request, ttl: int)
    requires Inv(h) && ApartInv(h) && Enabled(h, Begin(r)) && Apart(h, Begin(r))
    ensures ApartInv(Begun(h, r, ttl))
  {
    BeginKeepsOks(h, r, ttl);
    BeginKeepsWaiting(h, r, ttl);
    if AttemptsIn(h.plane, r) {
      NewKeyIsNew(h, r);
    }
  }

  lemma FinishKeepsApart(h: History, i: nat, ttl: int)
    requires Inv(h) && ApartInv(h) && Enabled(h, Finish(i))
    ensures ApartInv(Apply(h, Finish(i), ttl))
  {
    forall j | j in h.waiting && j != i ensures h.attempts[j].key != h.attempts[i].key {
      assert h.attempts[i].callback.Saved? && h.attempts[j].callback.Saved?;
    }
  }

  lemma {:induction false} ApartAlong(h: History, histories: seq<History>, steps: seq<Step>, ttl: int, n: nat)
    requires Start(h) && RunFrom(h, histories, steps, ttl) && n < |histories|
    requires forall i :: 0 <= i < |steps| ==> Apart(histories[i], steps[i])
    ensures Inv(histories[n]) && ApartInv(histories[n])
  {
    if n > 0 {
      ApartAlong(h, histories, steps, ttl, n - 1);
      StepKeepsInv(histories[n - 1], steps[n - 1], ttl);
      match steps[n - 1] {
        case Begin(r) => BeginKeepsApart(histories[n - 1], r, ttl);
        case Finish(i) => FinishKeepsApart(histories[n - 1], i, ttl);
      }
    }
  }

  /**
   Where no request begins while a commit under its own key waits, in particular where requests run one
   after the other, each key is committed at most once and all ok replies to a key are the same.
   */
  lemma KeysApartCommitOnce(h: History, histories: seq<History>, steps: seq<Step>, ttl: int, n: nat)
    requires Start(h) && RunFrom(h, histories, steps, ttl) && n < |histories|
    requires forall i :: 0 <= i < |steps| ==> Apart(histories[i], steps[i])
    ensures var h' := histories[n];
      && SavedOnce(h'.attempts)
      && (forall i, j :: 0 <= i < |h'.oks| && 0 <= j < |h'.oks| && h'.oks[i].0 == h'.oks[j].0 ==> h'.oks[i].1 == h'.oks[j].1)
  {
    ApartAlong(h, histories, steps, ttl, n);
  }

  // ---- failures

  /** A failed commit leaves every task's effective assignment as it was. */
  lemma FailedCommitChangesNoAssignment(p: Plane, r: Request, ttl: int, task: TaskKey)
    requires Handle(p, r.actor, r.input, r.token, r.now, ttl, r.nonce, r.callback).1.CommitFailed? && task in p.tasks
    ensures var p' := Handle(p, r.actor, r.input, r.token, r.now, ttl, r.nonce, r.callback).0;
            task in p'.tasks && (task != TaskIn(r) || r.callback.NotWritten? ==> p'.tasks[task] == p.tasks[task])
            && Effective(p', task) == Effective(p, task)
  {
  }

  /**
   After a failed commit the same human repeats the request, at any later time: it is answered ok exactly if
   the callback had written the metadata before it threw, and must be confirmed again otherwise. Either way
   nothing was committed: the assignment is still the old one.
   */
  lemma RepeatedAfterFailure(p: Plane, r: Request, again: Request, ttl: int)
    requires AttemptsIn(p, r) && !r.callback.Saved?
    requires again.actor == r.actor && again.input == r.input && again.token.None?
    ensures var (p1, first) := Handle(p, r.actor, r.input, r.token, r.now, ttl, r.nonce, r.callback);
            var (p2, second) := Handle(p1, again.actor, again.input, None, again.now, ttl, again.nonce, again.callback);
            && first == CommitFailed
            && (second.Ok? <==> r.callback == WrittenNotSaved)
            && (second.ConfirmationRequired? <==> r.callback == NotWritten)
            && (second.Ok? ==> second.outcome == CommitOf(p, r).outcome && second.replayed)
            && Effective(p2, TaskIn(r)) == Effective(p, TaskIn(r))
  {
    var (p1, first) := Handle(p, r.actor, r.input, r.token, r.now, ttl, r.nonce, r.callback);
    HandleWrites(p, r, ttl);
    FailedCommitChangesNoAssignment(p, r, ttl, TaskIn(r));
  }

  /** A key that has been completed answers any other payload with an error, and the same payload with its outcome. */
  lemma ReusedKeyIsDetected(p: Plane, actor: Actor, first: Input, second: Input, token: Option<Token>, now: int, ttl: int, nonce: nat, callback: Callback)
    requires second.key == first.key && WellFormed(second) && TaskOf(actor, second) in p.tasks && CanAct(p, actor, second)
    requires KeyOf(actor, first) in p.completed && p.completed[KeyOf(actor, first)].fingerprint == Fingerprint(first)
    ensures Handle(p, actor, second, token, now, ttl, nonce, callback)
         == (p, if second == first then Ok(p.completed[KeyOf(actor, first)].outcome, true) else KeyReused)
  {
    FingerprintInjective(first, second);
  }
}
