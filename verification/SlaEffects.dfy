/**
 What the operations of SlaLifecycle write, field by field, and where a profile's sections come from over
 every run.
 */
module SlaEffects {
  import opened Basics
  import opened SlaLifecycle

  ghost predicate IsDraft(t: Tables, id: string, version: nat) {
    id in t.profiles && t.profiles[id].status == Draft && t.profiles[id].version == version
  }

  ghost predicate OthersStay(t: Tables, t': Tables, id: string) {
    forall other :: other != id ==>
      (other in t'.profiles <==> other in t.profiles) && (other in t.profiles ==> t'.profiles[other] == t.profiles[other])
  }

  /**
   Publishing succeeds exactly for a ready version-2 draft at the version its caller named, which never was
   published. It goes live with the activated sections and an unpaused control, and of the other profiles
   exactly the live one is retired.
   */
  lemma PublishExactly(t: Tables, id: string, expected: nat, activated: string, ready: bool)
    ensures var (t', r) := Publish(t, id, expected, activated, ready);
            && (r == Done <==> IsDraft(t, id, expected) && t.profiles[id].schema == 2 && ready && id !in t.controls)
            && (r != Done ==> t' == t)
            && (r == Done ==>
                  && t'.profiles.Keys == t.profiles.Keys && t'.profiles[id] == Profile(Live, expected + 1, 2, activated)
                  && t'.controls == t.controls[id := Control(expected + 1, false, 1)] && t'.batches == t.batches
                  && forall other :: other in t.profiles && other != id ==>
                       if t.profiles[other].status == Live
                       then t'.profiles[other] == Profile(Retired, t.profiles[other].version + 1, t.profiles[other].schema, t.profiles[other].sections)
                       else t'.profiles[other] == t.profiles[other])
  {
  }

  /** A patch writes the sections of the draft its caller named, and nothing else. */
  lemma PatchExactly(t: Tables, id: string, expected: nat, sections: string)
    ensures var (t', r) := Patch(t, id, expected, sections);
            && (r == Done <==> IsDraft(t, id, expected)) && (r != Done ==> t' == t)
            && (r == Done ==>
                  && id in t'.profiles && t'.profiles[id] == Profile(Draft, expected + 1, t.profiles[id].schema, sections)
                  && OthersStay(t, t', id) && t'.controls == t.controls && t'.batches == t.batches)
  {
  }

  /** Retiring takes the live profile out of service and keeps what it says. */
  lemma RetireExactly(t: Tables, id: string, expected: nat)
    ensures var (t', r) := Retire(t, id, expected);
            && (r == Done <==> IsLive(t, id) && t.profiles[id].version == expected) && (r != Done ==> t' == t)
            && (r == Done ==>
                  && id in t'.profiles && !IsLive(t', id) && t'.profiles[id].status == Retired
                  && t'.profiles[id].sections == t.profiles[id].sections && t'.profiles[id].version == expected + 1
                  && OthersStay(t, t', id) && t'.controls == t.controls && t'.batches == t.batches)
  {
  }

  /** The kill switch moves exactly for the live profile at the versions its caller named, to what it was asked. */
  lemma ControlExactly(t: Tables, id: string, profileVersion: nat, expected: nat, paused: bool)
    ensures var (t', r) := SetControl(t, id, profileVersion, expected, paused);
            && (r == Done <==>
                  && IsLive(t, id) && t.profiles[id].version == profileVersion
                  && id in t.controls && t.controls[id].profileVersion == profileVersion && t.controls[id].version == expected)
            && (r != Done ==> t' == t)
            && (r == Done ==> t' == t.(controls := t.controls[id := Control(profileVersion, paused, expected + 1)]))
  {
    if IsLive(t, id) {
      assert exists p :: p in t.profiles && IsLive(t, p);
    }
  }

  ghost predicate Applicable(t: Tables, batch: string, batchExpected: nat, profileExpected: nat, candidate: Option<string>) {
    && batch in t.batches && IsDraft(t, t.batches[batch].profile, profileExpected) && t.profiles[t.batches[batch].profile].schema == 2
    && var b := t.batches[batch];
       && b.schema == 2 && candidate == Some(b.candidate) && b.profileVersion == profileExpected && b.version == batchExpected
       && !b.failed && b.validRows >= 1 && !b.applied
  }

  /** Applying a batch writes the previewed sections into its draft, exactly if every check holds, and marks it applied. */
  lemma ApplyExactly(t: Tables, batch: string, batchExpected: nat, profileExpected: nat, candidate: Option<string>)
    ensures var (t', r) := Apply(t, batch, batchExpected, profileExpected, candidate);
            && (r == Done <==> Applicable(t, batch, batchExpected, profileExpected, candidate)) && (r != Done ==> t' == t)
            && (r == Done ==>
                  var b := t.batches[batch];
                  && b.profile in t'.profiles && t'.profiles[b.profile] == Profile(Draft, profileExpected + 1, 2, b.candidate)
                  && OthersStay(t, t', b.profile) && t'.controls == t.controls
                  && t'.batches == t.batches[batch := b.(applied := true, version := batchExpected + 1)])
  {
  }

  /** A preview keeps the candidate it showed, for the draft version it was made against. */
  lemma PreviewExactly(t: Tables, batch: string, id: string, expected: nat, schema: nat, failed: bool, validRows: nat, candidate: string)
    ensures var (t', r) := Preview(t, batch, id, expected, schema, failed, validRows, candidate);
            && (r == Done <==> IsDraft(t, id, expected) && batch !in t.batches) && (r != Done ==> t' == t)
            && (r == Done ==>
                  t' == t.(batches := t.batches[batch := Batch(id, expected, 1, schema, failed, validRows, false, candidate)]))
  {
  }

  // ---- previewed, then applied

  /**
   A sound preview is applied with its own version numbers if and only if its draft is still the version it
   was previewed against and nobody has applied it; then the draft says what the preview showed, and doing
   it again is a replay that changes nothing.
   */
  lemma PreviewedThenApplied(t: Tables, ops: seq<Op>, batch: string, id: string, expected: nat, validRows: nat, candidate: string)
    requires Preview(t, batch, id, expected, 2, false, validRows, candidate).1 == Done && validRows >= 1
    ensures var previewed := Preview(t, batch, id, expected, 2, false, validRows, candidate).0;
            var later := Run(previewed, ops);
            var (t', r) := Apply(later, batch, 1, expected, Some(candidate));
            && batch in later.batches && id in later.profiles
            && (r == Done <==> IsDraft(later, id, expected) && later.profiles[id].schema == 2 && !later.batches[batch].applied)
            && (r == Done ==>
                  && t'.profiles[id].sections == candidate && IsDraft(t', id, expected + 1)
                  && Apply(t', batch, 1, expected, Some(candidate)) == (t', Replayed))
  {
    var previewed := Preview(t, batch, id, expected, 2, false, validRows, candidate).0;
    RunKeepsBatch(previewed, ops, batch);
    RunIsLater(previewed, ops);
    ApplyExactly(Run(previewed, ops), batch, 1, expected, Some(candidate));
  }

  /** What an applied mark apart, a batch says stays. */
  predicate SameBatch(b: Batch, b': Batch) {
    && b'.profile == b.profile && b'.profileVersion == b.profileVersion && b'.schema == b.schema && b'.failed == b.failed
    && b'.validRows == b.validRows && b'.candidate == b.candidate && (!b'.applied ==> b' == b)
  }

  lemma StepKeepsBatch(t: Tables, op: Op, batch: string)
    requires batch in t.batches
    ensures batch in Step(t, op).batches && SameBatch(t.batches[batch], Step(t, op).batches[batch])
  {
  }

  lemma {:induction false} RunKeepsBatch(t: Tables, ops: seq<Op>, batch: string)
    requires batch in t.batches
    ensures batch in Run(t, ops).batches && SameBatch(t.batches[batch], Run(t, ops).batches[batch])
  {
    if ops != [] {
      RunKeepsBatch(t, ops[..|ops| - 1], batch);
      StepKeepsBatch(Run(t, ops[..|ops| - 1]), ops[|ops| - 1], batch);
    }
  }

  // ---- where sections come from

  /** The operation wrote these sections into the profile, if it did anything to it. */
  ghost predicate Brings(t: Tables, op: Op, id: string, sections: string) {
    || (op.CreateOp? && op.id == id && op.sections == sections)
    || (op.PatchOp? && op.id == id && op.sections == sections)
    || (op.PublishOp? && op.id == id && op.sections == sections)
    || (op.ApplyOp? && op.hash == Some(sections) && op.batch in t.batches && t.batches[op.batch].profile == id
        && t.batches[op.batch].candidate == sections)
  }

  /** A step changes sections only to what it brings, and never those of a live or retired profile. */
  lemma StepBrings(t: Tables, op: Op, id: string)
    requires id in Step(t, op).profiles
    ensures id !in t.profiles || Step(t, op).profiles[id].sections != t.profiles[id].sections ==>
              Brings(t, op, id, Step(t, op).profiles[id].sections)
    ensures id in t.profiles && t.profiles[id].status != Draft ==> Step(t, op).profiles[id].sections == t.profiles[id].sections
  {
  }

  ghost predicate BroughtBefore(t: Tables, ops: seq<Op>, id: string, sections: string) {
    exists j :: 0 <= j < |ops| && Brings(Run(t, ops[..j]), ops[j], id, sections)
  }

  /** Over every run a profile says what some earlier operation brought: its creation, a patch, an applied preview, or its activation. */
  lemma {:induction false} SectionsWereBrought(t: Tables, ops: seq<Op>, id: string)
    requires id in Run(t, ops).profiles
    ensures (id in t.profiles && Run(t, ops).profiles[id].sections == t.profiles[id].sections)
         || BroughtBefore(t, ops, id, Run(t, ops).profiles[id].sections)
  {
    if ops != [] {
      var n := |ops| - 1;
      var front, last := ops[..n], ops[n];
      var before, sections := Run(t, front), Run(t, ops).profiles[id].sections;
      StepBrings(before, last, id);
      if id in before.profiles && before.profiles[id].sections == sections {
        SectionsWereBrought(t, front, id);
        if BroughtBefore(t, front, id, sections) {
          var j :| 0 <= j < n && Brings(Run(t, front[..j]), front[j], id, sections);
          assert front[..j] == ops[..j];
          assert Brings(Run(t, ops[..j]), ops[j], id, sections);
        }
      } else {
        assert Brings(Run(t, ops[..n]), ops[n], id, sections);
      }
    }
  }

  /** What went live stays what it says, over every run. */
  lemma {:induction false} PublishedSaysTheSame(t: Tables, ops: seq<Op>, id: string)
    requires id in t.profiles && t.profiles[id].status != Draft
    ensures var later := Run(t, ops);
            id in later.profiles && later.profiles[id].status != Draft && later.profiles[id].sections == t.profiles[id].sections
  {
    if ops != [] {
      PublishedSaysTheSame(t, ops[..|ops| - 1], id);
      StepBrings(Run(t, ops[..|ops| - 1]), ops[|ops| - 1], id);
    }
  }
}
