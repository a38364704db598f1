/**
 Advanced SLA profiles of one tenant: drafts, publication, retirement, the runtime kill switch, and
 CSV imports that are previewed against one draft version and applied to it.
 */
module SlaLifecycle {
  import opened Basics

  datatype Status = Draft | Live | Retired

  datatype Profile = Profile(status: Status, version: nat, schema: nat, sections: string)

  datatype Control = Control(profileVersion: nat, paused: bool, version: nat)

  /** `candidate` stands for the parsed sections and, with them, for their hash. */
  datatype Batch = Batch(profile: string, profileVersion: nat, version: nat, schema: nat, failed: bool, validRows: nat, applied: bool, candidate: string)

  datatype Tables = Tables(profiles: map<string, Profile>, controls: map<string, Control>, batches: map<string, Batch>)

  datatype Outcome = Done | Replayed | NotFound | WrongState | VersionMismatch | NeedsV2 | Conflict | NotReady

  function Create(t: Tables, id: string, schema: nat, sections: string): Tables {
    if id in t.profiles then t else t.(profiles := t.profiles[id := Profile(Draft, 1, schema, sections)])
  }

  function Patch(t: Tables, id: string, expected: nat, sections: string): (Tables, Outcome) {
    if id !in t.profiles then (t, NotFound)
    else
      var p := t.profiles[id];
      if p.status != Draft then (t, WrongState)
      else if p.version != expected then (t, VersionMismatch)
      else (t.(profiles := t.profiles[id := p.(version := p.version + 1, sections := sections)]), Done)
  }

  predicate IsLive(t: Tables, id: string) { id in t.profiles && t.profiles[id].status == Live }

  /** The profile published before is retired in the same transaction. */
  function RetirePrevious(profiles: map<string, Profile>): map<string, Profile> {
    map id | id in profiles ::
      if profiles[id].status == Live then profiles[id].(status := Retired, version := profiles[id].version + 1) else profiles[id]
  }

  /** `activated` are the draft's sections with its rules activated; `ready` is the auto-send readiness. */
  function Publish(t: Tables, id: string, expected: nat, activated: string, ready: bool): (Tables, Outcome) {
    if id !in t.profiles then (t, NotFound)
    else
      var p := t.profiles[id];
      if p.status != Draft then (t, WrongState)
      else if p.version != expected then (t, VersionMismatch)
      else if p.schema != 2 then (t, NeedsV2)
      else if !ready then (t, NotReady)
      else if id in t.controls then (t, Conflict)
      else (t.(profiles := RetirePrevious(t.profiles)[id := p.(status := Live, version := expected + 1, sections := activated)],
               controls := t.controls[id := Control(expected + 1, false, 1)]), Done)
  }

  function Retire(t: Tables, id: string, expected: nat): (Tables, Outcome) {
    if id !in t.profiles then (t, NotFound)
    else
      var p := t.profiles[id];
      if p.status != Live then (t, WrongState)
      else if p.version != expected then (t, VersionMismatch)
      else (t.(profiles := t.profiles[id := p.(status := Retired, version := p.version + 1)]), Done)
  }

  function SetControl(t: Tables, id: string, profileVersion: nat, expected: nat, paused: bool): (Tables, Outcome) {
    if !exists p :: p in t.profiles && IsLive(t, p) then (t, WrongState)
    else if !IsLive(t, id) || t.profiles[id].version != profileVersion then (t, VersionMismatch)
    else if id !in t.controls || t.controls[id].profileVersion != profileVersion || t.controls[id].version != expected then (t, VersionMismatch)
    else (t.(controls := t.controls[id := t.controls[id].(paused := paused, version := expected + 1)]), Done)
  }

  function Preview(t: Tables, batch: string, id: string, expected: nat, schema: nat, failed: bool, validRows: nat, candidate: string): (Tables, Outcome) {
    if id !in t.profiles then (t, NotFound)
    else
      var p := t.profiles[id];
      if p.status != Draft then (t, WrongState)
      else if p.version != expected then (t, VersionMismatch)
      else if batch in t.batches then (t, Conflict)
      else (t.(batches := t.batches[batch := Batch(id, expected, 1, schema, failed, validRows, false, candidate)]), Done)
  }

  function Apply(t: Tables, batch: string, batchExpected: nat, profileExpected: nat, candidate: Option<string>): (Tables, Outcome) {
    if batch !in t.batches then (t, NotFound)
    else
      var b := t.batches[batch];
      if b.profile !in t.profiles then (t, NotFound)
      else
        var p := t.profiles[b.profile];
        if b.schema != 2 || p.schema != 2 then (t, NeedsV2)
        else if candidate != Some(b.candidate) then (t, Conflict)
        else if b.profileVersion != profileExpected then (t, VersionMismatch)
        else if b.failed || b.validRows < 1 then (t, WrongState)
        else if b.applied then
          (t, if batchExpected == b.version - 1 && p.status == Draft && p.version == profileExpected + 1 then Replayed else Conflict)
        else if b.version != batchExpected then (t, VersionMismatch)
        else if p.status != Draft || p.version != profileExpected then (t, VersionMismatch)
        else (t.(profiles := t.profiles[b.profile := p.(version := p.version + 1, sections := b.candidate)],
                 batches := t.batches[batch := b.(applied := true, version := b.version + 1)]), Done)
  }

  /** The tables as the handlers update them, each in one transaction. */
  class SlaTables {
    var profiles: map<string, Profile>
    var controls: map<string, Control>
    var batches: map<string, Batch>

    function State(): Tables
      reads this
    {
      Tables(profiles, controls, batches)
    }

    constructor (t: Tables)
      ensures State() == t
    {
      profiles, controls, batches := t.profiles, t.controls, t.batches;
    }

    method PublishProfile(id: string, expected: nat, activated: string, ready: bool) returns (r: Outcome)
      modifies this`profiles, this`controls
      ensures (State(), r) == Publish(old(State()), id, expected, activated, ready)
    {
      if id !in profiles {
        return NotFound;
      }
      var row := profiles[id];
      if row.status != Draft {
        return WrongState;
      }
      if row.version != expected {
        return VersionMismatch;
      }
      if row.schema != 2 {
        return NeedsV2;
      }
      if !ready {
        return NotReady;
      }
      if id in controls {
        return Conflict;
      }
      profiles := RetirePrevious(profiles);
      profiles := profiles[id := row.(status := Live, version := expected + 1, sections := activated)];
      controls := controls[id := Control(expected + 1, false, 1)];
      return Done;
    }

    method RetireProfile(id: string, expected: nat) returns (r: Outcome)
      modifies this`profiles
      ensures (State(), r) == Retire(old(State()), id, expected)
    {
      if id !in profiles {
        return NotFound;
      }
      var row := profiles[id];
      if row.status != Live {
        return WrongState;
      }
      if row.version != expected {
        return VersionMismatch;
      }
      profiles := profiles[id := row.(status := Retired, version := row.version + 1)];
      return Done;
    }

    method ApplyImport(batch: string, batchExpected: nat, profileExpected: nat, candidate: Option<string>) returns (r: Outcome)
      modifies this`profiles, this`batches
      ensures (State(), r) == Apply(old(State()), batch, batchExpected, profileExpected, candidate)
    {
      if batch !in batches || batches[batch].profile !in profiles {
        return NotFound;
      }
      var b, target := batches[batch], profiles[batches[batch].profile];
      if b.schema != 2 || target.schema != 2 {
        return NeedsV2;
      }
      if candidate != Some(b.candidate) {
        return Conflict;
      }
      if b.profileVersion != profileExpected {
        return VersionMismatch;
      }
      if b.failed || b.validRows < 1 {
        return WrongState;
      }
      if b.applied {
        return if batchExpected == b.version - 1 && target.status == Draft && target.version == profileExpected + 1 then Replayed else Conflict;
      }
      if b.version != batchExpected || target.status != Draft || target.version != profileExpected {
        return VersionMismatch;
      }
      profiles := profiles[b.profile := target.(version := target.version + 1, sections := b.candidate)];
      batches := batches[batch := b.(applied := true, version := b.version + 1)];
      return Done;
    }
  }

  // ---- runs

  datatype Op =
    | CreateOp(id: string, schema: nat, sections: string)
    | PatchOp(id: string, expected: nat, sections: string)
    | PublishOp(id: string, expected: nat, sections: string, ready: bool)
    | RetireOp(id: string, expected: nat)
    | ControlOp(id: string, profileVersion: nat, expected: nat, paused: bool)
    | PreviewOp(batch: string, id: string, expected: nat, schema: nat, failed: bool, validRows: nat, candidate: string)
    | ApplyOp(batch: string, batchExpected: nat, profileExpected: nat, hash: Option<string>)

  function Step(t: Tables, op: Op): Tables {
    match op
    case CreateOp(id, schema, sections) => Create(t, id, schema, sections)
    case PatchOp(id, expected, sections) => Patch(t, id, expected, sections).0
    case PublishOp(id, expected, sections, ready) => Publish(t, id, expected, sections, ready).0
    case RetireOp(id, expected) => Retire(t, id, expected).0
    case ControlOp(id, profileVersion, expected, paused) => SetControl(t, id, profileVersion, expected, paused).0
    case PreviewOp(batch, id, expected, schema, failed, validRows, candidate) =>
      Preview(t, batch, id, expected, schema, failed, validRows, candidate).0
    case ApplyOp(batch, batchExpected, profileExpected, hash) => Apply(t, batch, batchExpected, profileExpected, hash).0
  }

  function Run(t: Tables, ops: seq<Op>): Tables {
    if ops == [] then t else Step(Run(t, ops[..|ops| - 1]), ops[|ops| - 1])
  }

  /** A live profile has a control for exactly its version; a control never belongs to a draft. */
  ghost predicate ControlFits(t: Tables, id: string) {
    && (IsLive(t, id) ==> id in t.controls && t.controls[id].profileVersion == t.profiles[id].version)
    && (id in t.controls ==> id in t.profiles && t.profiles[id].status != Draft)
  }

  /** An applied batch has moved its profile past the version it was previewed against. */
  ghost predicate BatchFits(t: Tables, batch: string) {
    batch in t.batches ==>
      && t.batches[batch].profile in t.profiles
      && (t.batches[batch].applied ==> t.batches[batch].profileVersion < t.profiles[t.batches[batch].profile].version)
  }

  ghost predicate AppliedApart(t: Tables, a: string, b: string) {
    (a in t.batches && b in t.batches && t.batches[a].applied && t.batches[b].applied
     && t.batches[a].profile == t.batches[b].profile && t.batches[a].profileVersion == t.batches[b].profileVersion) ==> a == b
  }

  ghost predicate Inv(t: Tables) {
    && (forall a, b {:trigger IsLive(t, a), IsLive(t, b)} :: IsLive(t, a) && IsLive(t, b) ==> a == b)
    && (forall id {:trigger ControlFits(t, id)} :: ControlFits(t, id))
    && (forall batch {:trigger BatchFits(t, batch)} :: BatchFits(t, batch))
    && (forall a, b {:trigger AppliedApart(t, a, b)} :: AppliedApart(t, a, b))
  }

  predicate SameSubject(b: Batch, b': Batch) {
    b'.profile == b.profile && b'.profileVersion == b.profileVersion && (b.applied ==> b' == b)
  }

  /** Versions only grow, applied batches stay applied, and a batch never changes what it is about. */
  ghost predicate Later(t: Tables, t': Tables) {
    && (forall id :: id in t.profiles ==> id in t'.profiles && t.profiles[id].version <= t'.profiles[id].version)
    && (forall b {:trigger b in t.batches} :: b in t.batches ==> b in t'.batches && SameSubject(t.batches[b], t'.batches[b]))
  }

  lemma StepIsLater(t: Tables, op: Op)
    ensures Later(t, Step(t, op))
  {
  }

  lemma LiveAfterStep(t: Tables, op: Op)
    requires Inv(t)
    ensures var t' := Step(t, op); forall a, b {:trigger IsLive(t', a), IsLive(t', b)} :: IsLive(t', a) && IsLive(t', b) ==> a == b
  {
    var t' := Step(t, op);
    forall id | IsLive(t', id) && !IsLive(t, id) ensures op.PublishOp? && id == op.id && forall other :: IsLive(t', other) ==> other == id {
    }
  }

  lemma ControlsAfterStep(t: Tables, op: Op, id: string)
    requires Inv(t)
    ensures ControlFits(Step(t, op), id)
  {
    assert ControlFits(t, id);
  }

  lemma BatchesAfterStep(t: Tables, op: Op, a: string, b: string)
    requires Inv(t)
    ensures BatchFits(Step(t, op), a) && AppliedApart(Step(t, op), a, b)
  {
    assert BatchFits(t, a) && BatchFits(t, b) && AppliedApart(t, a, b);
    StepIsLater(t, op);
  }

  lemma StepKeepsInv(t: Tables, op: Op)
    requires Inv(t)
    ensures Inv(Step(t, op))
  {
    LiveAfterStep(t, op);
    forall id ensures ControlFits(Step(t, op), id) {
      ControlsAfterStep(t, op, id);
    }
    forall a ensures BatchFits(Step(t, op), a) {
      BatchesAfterStep(t, op, a, a);
    }
    forall a, b ensures AppliedApart(Step(t, op), a, b) {
      BatchesAfterStep(t, op, a, b);
    }
  }

  lemma {:induction false} RunKeepsInv(ops: seq<Op>)
    ensures Inv(Run(Tables(map[], map[], map[]), ops))
  {
    if ops != [] {
      RunKeepsInv(ops[..|ops| - 1]);
      StepKeepsInv(Run(Tables(map[], map[], map[]), ops[..|ops| - 1]), ops[|ops| - 1]);
    }
  }

  lemma LaterChains(a: Tables, b: Tables, c: Tables)
    requires Later(a, b) && Later(b, c)
    ensures Later(a, c)
  {
    forall x | x in a.batches ensures x in c.batches && SameSubject(a.batches[x], c.batches[x]) {
      assert x in b.batches;
    }
    forall id | id in a.profiles ensures id in c.profiles && a.profiles[id].version <= c.profiles[id].version {
      assert id in b.profiles;
    }
  }

  lemma {:induction false} RunIsLater(t: Tables, ops: seq<Op>)
    ensures Later(t, Run(t, ops))
  {
    if ops != [] {
      RunIsLater(t, ops[..|ops| - 1]);
      StepIsLater(Run(t, ops[..|ops| - 1]), ops[|ops| - 1]);
      LaterChains(t, Run(t, ops[..|ops| - 1]), Run(t, ops));
    }
  }

  /**
   A batch changes its draft at most once: once applied, it stays as it is over every run, and applying
   it again, with whatever expectations, changes nothing.
   */
  lemma AppliedOnce(t: Tables, ops: seq<Op>, batch: string, batchExpected: nat, profileExpected: nat, hash: Option<string>)
    requires batch in t.batches && t.batches[batch].applied
    ensures var later := Run(t, ops);
            && batch in later.batches && later.batches[batch] == t.batches[batch]
            && Apply(later, batch, batchExpected, profileExpected, hash).0 == later
  {
    RunIsLater(t, ops);
    var later := Run(t, ops);
    assert later.batches[batch] == t.batches[batch];
  }

  /** Over every run: one live profile, with its control; and one applied batch a draft version. */
  lemma OneLiveOneApplied(ops: seq<Op>)
    ensures var t := Run(Tables(map[], map[], map[]), ops);
            && (forall a, b :: IsLive(t, a) && IsLive(t, b) ==> a == b)
            && (forall id :: IsLive(t, id) ==> id in t.controls && t.controls[id].profileVersion == t.profiles[id].version)
            && (forall a, b :: AppliedApart(t, a, b))
  {
    RunKeepsInv(ops);
    var t := Run(Tables(map[], map[], map[]), ops);
    forall id | IsLive(t, id) ensures id in t.controls && t.controls[id].profileVersion == t.profiles[id].version {
      assert ControlFits(t, id);
    }
  }

  // ---- the kill switch

  datatype Decision = NotPublished | Paused | NotAllowed | Allowed

  /** `permitted` stands for the policy's lists and the connected channel. */
  function AutoSend(t: Tables, id: string, permitted: bool): Decision
    requires IsLive(t, id)
  {
    var p := t.profiles[id];
    if p.schema != 2 then NotPublished
    else if id !in t.controls || t.controls[id].profileVersion != p.version || t.controls[id].paused then Paused
    else if !permitted then NotAllowed
    else Allowed
  }

  /** Over every run the switch refuses a message of the live profile exactly while it is paused. */
  lemma PausedExactly(ops: seq<Op>, id: string, permitted: bool)
    requires IsLive(Run(Tables(map[], map[], map[]), ops), id)
    ensures var t := Run(Tables(map[], map[], map[]), ops);
            && id in t.controls
            && (AutoSend(t, id, permitted) == Paused <==> t.profiles[id].schema == 2 && t.controls[id].paused)
  {
    OneLiveOneApplied(ops);
  }

  // ---- the preview's counters

  datatype Rule = Rule(id: string, text: string)

  function ByIdOf(rules: seq<Rule>): map<string, string> {
    if rules == [] then map[] else ByIdOf(rules[..|rules| - 1])[rules[|rules| - 1].id := rules[|rules| - 1].text]
  }

  function IdsOf(rules: seq<Rule>): seq<string> {
    seq(|rules|, i requires 0 <= i < |rules| => rules[i].id)
  }

  lemma {:induction false} KeysAreIds(rules: seq<Rule>)
    ensures ByIdOf(rules).Keys == Elements(IdsOf(rules))
  {
    if rules != [] {
      var front := rules[..|rules| - 1];
      KeysAreIds(front);
      InFrontOrLast(IdsOf(rules));
      assert IdsOf(rules)[..|rules| - 1] == IdsOf(front);
    }
  }

  /** The ids of the rules in `x` that are not in `y`. */
  function OnlyIn(x: map<string, string>, y: map<string, string>): set<string> {
    set id | id in x && id !in y
  }

  function Agreeing(x: map<string, string>, y: map<string, string>): set<string> {
    set id | id in y && id in x && x[id] == y[id]
  }

  function Differing(x: map<string, string>, y: map<string, string>): set<string> {
    set id | id in y && id in x && x[id] != y[id]
  }

  lemma {:induction false} OneMore(now: set<string>, before: set<string>, id: string)
    requires id !in before && forall x :: x in now <==> x in before || x == id
    ensures |now| == |before| + 1
  {
    assert now == before + {id};
  }

  lemma {:induction false} NoMore(now: set<string>, before: set<string>)
    requires forall x :: x in now <==> x in before
    ensures |now| == |before|
  {
    assert now == before;
  }

  /** The rules gone through so far. */
  function Part(m: map<string, string>, done: set<string>): map<string, string> {
    map id | id in m && id in done :: m[id]
  }

  /** One more rule gone through raises just the counter it belongs to. */
  lemma {:induction false} Counted(x: map<string, string>, y: map<string, string>, done: set<string>, id: string)
    requires id in y && id !in done
    ensures var now, was := Part(y, done + {id}), Part(y, done);
            && |OnlyIn(now, x)| == |OnlyIn(was, x)| + (if id !in x then 1 else 0)
            && |Agreeing(x, now)| == |Agreeing(x, was)| + (if id in x && x[id] == y[id] then 1 else 0)
            && |Differing(x, now)| == |Differing(x, was)| + (if id in x && x[id] != y[id] then 1 else 0)
  {
    var now, was := Part(y, done + {id}), Part(y, done);
    if id !in x {
      OneMore(OnlyIn(now, x), OnlyIn(was, x), id);
      NoMore(Agreeing(x, now), Agreeing(x, was));
      NoMore(Differing(x, now), Differing(x, was));
    } else {
      NoMore(OnlyIn(now, x), OnlyIn(was, x));
      if x[id] == y[id] {
        OneMore(Agreeing(x, now), Agreeing(x, was), id);
        NoMore(Differing(x, now), Differing(x, was));
      } else {
        NoMore(Agreeing(x, now), Agreeing(x, was));
        OneMore(Differing(x, now), Differing(x, was), id);
      }
    }
  }

  /** The counters after the rules in `done`. */
  ghost predicate Tallied(x: map<string, string>, y: map<string, string>, done: set<string>, added: nat, changed: nat, same: nat) {
    var part := Part(y, done);
    added == |OnlyIn(part, x)| && changed == |Differing(x, part)| && same == |Agreeing(x, part)|
  }

  lemma {:induction false} NothingCounted(x: map<string, string>, y: map<string, string>)
    ensures Tallied(x, y, {}, 0, 0, 0)
  {
    NoMore(OnlyIn(Part(y, {}), x), {});
    NoMore(Agreeing(x, Part(y, {})), {});
    NoMore(Differing(x, Part(y, {})), {});
  }

  lemma {:induction false} TalliedNext(x: map<string, string>, y: map<string, string>, done: set<string>, added: nat, changed: nat, same: nat, id: string)
    requires Tallied(x, y, done, added, changed, same) && id in y && id !in done
    ensures Tallied(x, y, done + {id}, added + (if id !in x then 1 else 0), changed + (if id in x && x[id] != y[id] then 1 else 0),
                    same + (if id in x && x[id] == y[id] then 1 else 0))
  {
    Counted(x, y, done, id);
  }

  lemma {:induction false} AllTallied(x: map<string, string>, y: map<string, string>, added: nat, changed: nat, same: nat)
    requires Tallied(x, y, y.Keys, added, changed, same)
    ensures added == |OnlyIn(y, x)| && changed == |Differing(x, y)| && same == |Agreeing(x, y)|
  {
    assert Part(y, y.Keys) == y;
  }

  /** The counters as the loop over the new rules and the filter over the old ones leave them. */
  method Diff(before: map<string, string>, after: map<string, string>) returns (added: nat, changed: nat, removed: nat, same: nat)
    ensures added == |OnlyIn(after, before)| && removed == |OnlyIn(before, after)|
    ensures same == |Agreeing(before, after)| && changed == |Differing(before, after)|
  {
    added, changed, same := 0, 0, 0;
    var rest := after.Keys;
    NothingCounted(before, after);
    ghost var done: set<string> := {};
    while rest != {}
      invariant rest <= after.Keys && done == after.Keys - rest
      invariant Tallied(before, after, done, added, changed, same)
      decreases |rest|
    {
      var id :| id in rest;
      TalliedNext(before, after, done, added, changed, same, id);
      if id !in before {
        added := added + 1;
      } else if before[id] == after[id] {
        same := same + 1;
      } else {
        changed := changed + 1;
      }
      rest, done := rest - {id}, done + {id};
    }
    assert done == after.Keys;
    AllTallied(before, after, added, changed, same);
    removed := |OnlyIn(before, after)|;
  }

  lemma {:induction false} ThreeParts(all: set<string>, a: set<string>, b: set<string>, c: set<string>)
    requires all == a + b + c && a !! b && (a + b) !! c
    ensures |all| == |a| + |b| + |c|
  {
    assert |a + b| == |a| + |b|;
    assert |(a + b) + c| == |a + b| + |c|;
  }

  lemma {:induction false} NewRules(x: map<string, string>, y: map<string, string>)
    ensures |OnlyIn(y, x)| + |Differing(x, y)| + |Agreeing(x, y)| == |y.Keys|
  {
    var o, d, a := OnlyIn(y, x), Differing(x, y), Agreeing(x, y);
    assert o !! d && (o + d) !! a && y.Keys == o + d + a;
    ThreeParts(y.Keys, o, d, a);
  }

  lemma {:induction false} OldRules(x: map<string, string>, y: map<string, string>)
    ensures |OnlyIn(x, y)| + |Differing(x, y)| + |Agreeing(x, y)| == |x.Keys|
  {
    var o, d, a := OnlyIn(x, y), Differing(x, y), Agreeing(x, y);
    assert o !! d && (o + d) !! a && x.Keys == o + d + a;
    ThreeParts(x.Keys, o, d, a);
  }

  /**
   Added, changed and unchanged count the new rules, and removed, changed and unchanged the old ones,
   exactly if on that side no rule id repeats.
   */
  lemma CountersCountRules(before: seq<Rule>, after: seq<Rule>)
    ensures var x, y := ByIdOf(before), ByIdOf(after);
            && (|OnlyIn(y, x)| + |Differing(x, y)| + |Agreeing(x, y)| == |after| <==> Distinct(IdsOf(after)))
            && (|OnlyIn(x, y)| + |Differing(x, y)| + |Agreeing(x, y)| == |before| <==> Distinct(IdsOf(before)))
  {
    NewRules(ByIdOf(before), ByIdOf(after));
    OldRules(ByIdOf(before), ByIdOf(after));
    KeysAreIds(before);
    KeysAreIds(after);
    DistinctCount(IdsOf(before));
    DistinctCount(IdsOf(after));
  }
}
