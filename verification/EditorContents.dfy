/**
 What the operations of EditorStore do to the content of drafts and versions: a published draft comes
 back from a rollback whatever was done in between, an import brings in the blueprint, and a save
 takes each field from the patch or leaves it.
 */
module EditorContents {
  import opened Basics
  import opened Graph
  import opened Decimals
  import opened WorkflowValidation
  import opened Texts
  import opened EditorStore

  /** All of a draft but its revisions. */
  predicate SameContent(a: Workflow, b: Workflow) {
    a.id == b.id && a.name == b.name && a.desc == b.desc && a.nodes == b.nodes && a.edges == b.edges
  }

  ghost predicate HasContent(ws: seq<Workflow>, w: Workflow) {
    exists v :: v in ws && SameContent(v, w)
  }

  predicate PublishedAs(w: Workflow, name: string) {
    w.publishedRevision == w.draftRevision && w.publishedVersion == name
  }

  /** No id stands for two different drafts. */
  ghost predicate OneEach(ws: seq<Workflow>) {
    forall v, w :: v in ws && w in ws && v.id == w.id ==> v == w
  }

  lemma PutOneEach(drafts: map<string, Workflow>, ws: seq<Workflow>)
    requires OneEach(ws)
    ensures var after := PutAll(drafts, ws);
            && (forall w :: w in ws ==> w.id in after && after[w.id] == w)
            && (forall id :: id !in Ids(ws) ==> (id in after <==> id in drafts) && (id in drafts ==> after[id] == drafts[id]))
  {
    PutAllEffect(drafts, ws);
  }

  // ---- versions

  /** The stored versions keep their names and contents; a later one may be current. */
  ghost predicate KeepsVersions(versions: seq<Version>, after: seq<Version>) {
    && |versions| <= |after|
    && forall i {:trigger versions[i]} {:trigger after[i]} :: 0 <= i < |versions| ==>
         after[i].name == versions[i].name && after[i].snapshot == versions[i].snapshot
  }

  /** One more version, the current one, which holds the drafts as they are now stored. */
  ghost predicate AddsVersion(s: Store, after: Store) {
    && |after.versions| == |s.versions| + 1 && KeepsVersions(s.versions, after.versions)
    && (forall i :: 0 <= i < |after.versions| ==> (after.versions[i].current <==> i == |s.versions|))
    && forall w :: w in after.versions[|s.versions|].snapshot ==>
         w.id in after.drafts && after.drafts[w.id] == w && PublishedAs(w, after.versions[|s.versions|].name)
  }

  /** A draft as a rollback stores it: the version's content, one revision on from the stored draft or else from the version. */
  predicate BackFrom(drafts: map<string, Workflow>, w: Workflow, r: Workflow, name: string) {
    && SameContent(w, r) && PublishedAs(r, name)
    && r.draftRevision == (if w.id in drafts then drafts[w.id].draftRevision else w.draftRevision) + 1
  }

  ghost predicate CameBack(drafts: map<string, Workflow>, snapshot: seq<Workflow>, r: Workflow, name: string) {
    exists w :: w in snapshot && BackFrom(drafts, w, r, name)
  }

  lemma {:induction false} RestoredHolds(active: seq<string>, drafts: map<string, Workflow>, snapshot: seq<Workflow>, name: string)
    ensures forall w :: w in snapshot && w.id in active ==> HasContent(Restored(active, drafts, snapshot, name), w)
  {
    if snapshot != [] {
      var front, w := snapshot[..|snapshot| - 1], snapshot[|snapshot| - 1];
      RestoredHolds(active, drafts, front, name);
      InFrontOrLast(snapshot);
      if w.id in active {
        RestoredLast(active, drafts, snapshot, name);
      }
      forall v | v in snapshot && v.id in active ensures HasContent(Restored(active, drafts, snapshot, name), v) {
        if v in front {
          var r :| r in Restored(active, drafts, front, name) && SameContent(r, v);
        } else {
          var restored := Restored(active, drafts, snapshot, name);
          assert SameContent(restored[|restored| - 1], w);
        }
      }
    }
  }

  lemma RestoredLast(active: seq<string>, drafts: map<string, Workflow>, snapshot: seq<Workflow>, name: string)
    requires snapshot != [] && snapshot[|snapshot| - 1].id in active
    ensures var restored, front := Restored(active, drafts, snapshot, name), Restored(active, drafts, snapshot[..|snapshot| - 1], name);
            && restored != [] && restored[..|restored| - 1] == front
            && (forall r :: r in restored <==> r in front || r == restored[|restored| - 1])
            && BackFrom(drafts, snapshot[|snapshot| - 1], restored[|restored| - 1], name)
  {
    var restored := Restored(active, drafts, snapshot, name);
    InFrontOrLast(restored);
    assert restored[..|restored| - 1] == Restored(active, drafts, snapshot[..|snapshot| - 1], name);
  }

  lemma {:induction false} RestoredCameBack(active: seq<string>, drafts: map<string, Workflow>, snapshot: seq<Workflow>, name: string)
    ensures forall r :: r in Restored(active, drafts, snapshot, name) ==> r.id in active && CameBack(drafts, snapshot, r, name)
  {
    if snapshot != [] {
      var front, w := snapshot[..|snapshot| - 1], snapshot[|snapshot| - 1];
      RestoredCameBack(active, drafts, front, name);
      InFrontOrLast(snapshot);
      if w.id in active {
        RestoredLast(active, drafts, snapshot, name);
      }
      forall r | r in Restored(active, drafts, snapshot, name) ensures CameBack(drafts, snapshot, r, name) {
        if r in Restored(active, drafts, front, name) {
          var v :| v in front && BackFrom(drafts, v, r, name);
        } else {
          assert BackFrom(drafts, w, r, name);
        }
      }
    }
  }

  lemma RestoredOneEach(active: seq<string>, drafts: map<string, Workflow>, snapshot: seq<Workflow>, name: string)
    requires OneEach(snapshot)
    ensures OneEach(Restored(active, drafts, snapshot, name))
  {
    var restored := Restored(active, drafts, snapshot, name);
    RestoredCameBack(active, drafts, snapshot, name);
    forall v, w | v in restored && w in restored && v.id == w.id ensures v == w {
      assert CameBack(drafts, snapshot, v, name) && CameBack(drafts, snapshot, w, name);
    }
  }

  /**
   After a rollback each declared draft of the version is stored with the version's content, a new
   current version holds just these drafts, and drafts that are not declared are untouched.
   */
  lemma RollbackBringsBack(pack: Pack, s: Store, i: nat)
    requires DistinctNames(s.versions) && i < |s.versions| && OneEach(s.versions[i].snapshot)
    ensures var (after, r) := Rollback(pack, s, s.versions[i].name);
            var snapshot := s.versions[i].snapshot;
            && r == Done && AddsVersion(s, after) && after.imports == s.imports
            && OneEach(after.versions[|s.versions|].snapshot)
            && (forall w :: w in snapshot && w.id in pack.active ==>
                  w.id in after.drafts && SameContent(after.drafts[w.id], w) && after.drafts[w.id] in after.versions[|s.versions|].snapshot)
            && (forall w :: w in after.versions[|s.versions|].snapshot ==> w.id in pack.active && CameBack(s.drafts, snapshot, w, w.publishedVersion))
            && (forall id :: id !in pack.active ==>
                  (id in after.drafts <==> id in s.drafts) && (id in s.drafts ==> after.drafts[id] == s.drafts[id]))
  {
    var snapshot, name := s.versions[i].snapshot, NextVersion(pack, s.versions);
    SnapshotOf(s.versions, i);
    var restored := Restored(pack.active, s.drafts, snapshot, name);
    RestoredHolds(pack.active, s.drafts, snapshot, name);
    RestoredCameBack(pack.active, s.drafts, snapshot, name);
    RestoredOneEach(pack.active, s.drafts, snapshot, name);
    PutOneEach(Without(s.drafts, pack.active), restored);
    var after := Rollback(pack, s, s.versions[i].name).0;
    assert after.versions[|s.versions|] == Version(name, true, restored);
    forall w | w in snapshot && w.id in pack.active
      ensures w.id in after.drafts && SameContent(after.drafts[w.id], w) && after.drafts[w.id] in restored
    {
      var r :| r in restored && SameContent(r, w);
    }
  }

  /** The published form of a draft: its own content and revision, stamped with the version. */
  predicate Stamped(drafts: map<string, Workflow>, w: Workflow, name: string) {
    && w.id in drafts && SameContent(w, drafts[w.id]) && w.draftRevision == drafts[w.id].draftRevision
    && PublishedAs(w, name)
  }

  lemma PublishedAreStamped(active: seq<string>, s: Store, name: string)
    requires Keyed(s)
    ensures var ws := Published(Listed(active, s.drafts), name);
            && OneEach(ws)
            && (forall w :: w in ws ==> w.id in active && Stamped(s.drafts, w, name))
            && (forall id :: id in active && id in s.drafts ==> id in Ids(ws))
  {
    var listed := Listed(active, s.drafts);
    var ws := Published(listed, name);
    ListedElements(active, s.drafts);
    PublishedElements(active, s, name);
    forall w | w in ws ensures w.id in active && Stamped(s.drafts, w, name) {
      var k :| 0 <= k < |ws| && ws[k] == w;
      assert listed[k] in listed;
    }
    forall v, w | v in ws && w in ws && v.id == w.id ensures v == w {
      assert Stamped(s.drafts, v, name) && Stamped(s.drafts, w, name);
    }
  }

  lemma PutStamped(active: seq<string>, s: Store, name: string)
    requires Keyed(s)
    ensures var ws := Published(Listed(active, s.drafts), name);
            var after := PutAll(s.drafts, ws);
            && after.Keys == s.drafts.Keys
            && (forall w :: w in ws ==> w.id in after && after[w.id] == w)
            && (forall id :: id in s.drafts && id in active ==> Stamped(s.drafts, after[id], name) && after[id].id == id && after[id] in ws)
            && (forall id :: id in s.drafts && id !in active ==> after[id] == s.drafts[id])
  {
    var ws := Published(Listed(active, s.drafts), name);
    PublishedAreStamped(active, s, name);
    PutOneEach(s.drafts, ws);
    var after := PutAll(s.drafts, ws);
    forall id | id in s.drafts && id in active ensures Stamped(s.drafts, after[id], name) && after[id].id == id && after[id] in ws {
      var w :| w in ws && w.id == id;
    }
    forall id ensures id in after <==> id in s.drafts {
      if id in Ids(ws) {
        var w :| w in ws && w.id == id;
        assert Stamped(s.drafts, w, name);
      }
    }
  }

  /** Publishing changes no content: it stamps each declared draft with its own revision and the new version, which holds just these. */
  lemma PublishStamps(pack: Pack, s: Store)
    requires Keyed(s)
    ensures var after := Publish(pack, s);
            && AddsVersion(s, after) && after.imports == s.imports && after.drafts.Keys == s.drafts.Keys
            && OneEach(after.versions[|s.versions|].snapshot)
            && (forall id :: id in s.drafts && id in pack.active ==>
                  && Stamped(s.drafts, after.drafts[id], after.versions[|s.versions|].name)
                  && after.drafts[id].id == id && after.drafts[id] in after.versions[|s.versions|].snapshot)
            && (forall w :: w in after.versions[|s.versions|].snapshot ==> w.id in pack.active)
            && (forall id :: id in s.drafts && id !in pack.active ==> after.drafts[id] == s.drafts[id])
  {
    var name := NextVersion(pack, s.versions);
    PublishedAreStamped(pack.active, s, name);
    PutStamped(pack.active, s, name);
    assert Publish(pack, s).versions[|s.versions|] == Version(name, true, Published(Listed(pack.active, s.drafts), name));
  }

  // ---- over every run

  lemma OtherStepsKeepVersions(pack: Pack, s: Store, op: Op)
    requires s.versions != [] && !op.PublishOp? && !op.RollbackOp?
    ensures Apply(pack, s, op).versions == s.versions
  {
    if op.ImportOp? {
      ImportWritesWhatItNamed(pack, s, op.key, op.revisions);
    }
  }

  lemma StepKeepsVersions(pack: Pack, s: Store, op: Op)
    requires s.versions != []
    ensures KeepsVersions(s.versions, Apply(pack, s, op).versions)
  {
    if !op.PublishOp? && !op.RollbackOp? {
      OtherStepsKeepVersions(pack, s, op);
    }
  }

  lemma {:induction false} RunKeepsVersions(pack: Pack, s: Store, ops: seq<Op>)
    requires s.versions != []
    ensures KeepsVersions(s.versions, Run(pack, s, ops).versions)
  {
    if ops != [] {
      RunKeepsVersions(pack, s, ops[..|ops| - 1]);
      StepKeepsVersions(pack, Run(pack, s, ops[..|ops| - 1]), ops[|ops| - 1]);
    }
  }

  /** Whatever is done after a version was made, rolling back to it stores its declared drafts with its content. */
  lemma VersionComesBack(pack: Pack, s: Store, i: nat, ops: seq<Op>, w: Workflow)
    requires Inv(s) && i < |s.versions| && OneEach(s.versions[i].snapshot)
    requires SeedOp in ops ==> SoundSnapshot(pack.defaults)
    requires w in s.versions[i].snapshot && w.id in pack.active
    ensures var (after, r) := Rollback(pack, Run(pack, s, ops), s.versions[i].name);
            r == Done && w.id in after.drafts && SameContent(after.drafts[w.id], w)
  {
    RunKeepsInv(pack, s, ops);
    RunKeepsVersions(pack, s, ops);
    RollbackBringsBack(pack, Run(pack, s, ops), i);
  }

  /** Publish, do anything, roll back to what was published: each declared draft is as it was when it was published. */
  lemma PublishedComesBack(pack: Pack, s: Store, ops: seq<Op>, id: string)
    requires Inv(s) && id in s.drafts && id in pack.active
    requires SeedOp in ops ==> SoundSnapshot(pack.defaults)
    ensures var published := Publish(pack, s);
            var (after, r) := Rollback(pack, Run(pack, published, ops), published.versions[|s.versions|].name);
            r == Done && id in after.drafts && SameContent(after.drafts[id], s.drafts[id])
  {
    var published := Publish(pack, s);
    PublishStamps(pack, s);
    PublishKeeps(pack, s);
    VersionComesBack(pack, published, |s.versions|, ops, published.drafts[id]);
  }

  ghost predicate OneEachInVersions(versions: seq<Version>) {
    forall i {:trigger versions[i]} :: 0 <= i < |versions| ==> OneEach(versions[i].snapshot)
  }

  /** No operation makes a version in which one id stands for two drafts, so every version of a run can come back. */
  lemma StepKeepsOneEach(pack: Pack, s: Store, op: Op)
    requires Inv(s) && OneEachInVersions(s.versions)
    ensures OneEachInVersions(Apply(pack, s, op).versions)
  {
    match op {
      case PublishOp => PublishStamps(pack, s);
      case RollbackOp(version) =>
        if Snapshot(s.versions, version).Some? {
          SnapshotIsStored(s.versions, version);
          var i :| 0 <= i < |s.versions| && s.versions[i].name == version;
          RollbackBringsBack(pack, s, i);
        }
      case _ => OtherStepsKeepVersions(pack, s, op);
    }
  }

  lemma {:induction false} RunKeepsOneEach(pack: Pack, s: Store, ops: seq<Op>)
    requires Inv(s) && OneEachInVersions(s.versions) && (SeedOp in ops ==> SoundSnapshot(pack.defaults))
    ensures OneEachInVersions(Run(pack, s, ops).versions)
  {
    if ops != [] {
      RunKeepsInv(pack, s, ops[..|ops| - 1]);
      RunKeepsOneEach(pack, s, ops[..|ops| - 1]);
      StepKeepsOneEach(pack, Run(pack, s, ops[..|ops| - 1]), ops[|ops| - 1]);
    }
  }

  // ---- starting up

  /** A start stores each missing default as it is and keeps every draft; a first version holds the declared drafts, unpublished ones too. */
  lemma SeedStoresDefaults(pack: Pack, s: Store)
    requires OneEach(pack.defaults)
    ensures var after := Seed(pack, s);
            && (forall id :: id in s.drafts ==> id in after.drafts && after.drafts[id] == s.drafts[id])
            && (forall w :: w in pack.defaults && w.id !in s.drafts ==> w.id in after.drafts && after.drafts[w.id] == w)
            && (forall id :: id in after.drafts && id !in s.drafts ==> after.drafts[id] in pack.defaults)
            && (s.versions != [] ==> after.versions == s.versions)
            && (s.versions == [] ==>
                  && |after.versions| == 1 && after.versions[0].current
                  && (forall w :: w in after.versions[0].snapshot <==>
                        exists id :: id in pack.active && id in after.drafts && after.drafts[id] == w))
  {
    var missing := Chosen(pack.defaults, s.drafts.Keys, false);
    ChosenElements(pack.defaults, s.drafts.Keys, false);
    PutOneEach(s.drafts, missing);
    PutAllEffect(s.drafts, missing);
    ListedElements(pack.active, Seed(pack, s).drafts);
  }

  // ---- saving

  /** Each field comes from the patch where it gives one, otherwise from the draft; only the two texts are trimmed. */
  lemma SaveTakesThePatch(s: Store, id: string, expected: Option<int>, p: Patch)
    ensures var (after, r) := Save(s, id, expected, p);
            r == Done ==>
              && id in s.drafts && id in after.drafts
              && var w, saved := s.drafts[id], after.drafts[id];
              && saved.id == w.id
              && (p.name.Some? ==> saved.name == Trim(p.name.value)) && (p.name.None? ==> saved.name == Trim(w.name))
              && (p.desc.Some? ==> saved.desc == Trim(p.desc.value)) && (p.desc.None? ==> saved.desc == Trim(w.desc))
              && (p.nodes.Some? ==> saved.nodes == p.nodes.value) && (p.nodes.None? ==> saved.nodes == w.nodes)
              && (p.edges.Some? ==> saved.edges == p.edges.value) && (p.edges.None? ==> saved.edges == w.edges)
              && saved.publishedVersion == w.publishedVersion
              && after.versions == s.versions && after.imports == s.imports
  {
  }

  /** A saved draft can be saved again without a patch: only the revision moves, so trimming twice is trimming once. */
  lemma SavingAgainKeepsContent(s: Store, id: string, expected: Option<int>, p: Patch)
    requires Save(s, id, expected, p).1 == Done
    ensures var after := Save(s, id, expected, p).0;
            var (again, r) := Save(after, id, Some(expected.value + 1), Patch(None, None, None, None));
            r == Done && id in again.drafts && SameContent(again.drafts[id], after.drafts[id])
  {
    var w := s.drafts[id];
    TrimIsTrimmed(p.name.GetOr(w.name));
    TrimIsTrimmed(p.desc.GetOr(w.desc));
    var saved := Save(s, id, expected, p).0.drafts[id];
    SameWorkflow(saved, Patched(saved, Patch(None, None, None, None)));
  }

  // ---- importing blueprints

  /** A default that the pack declares. */
  predicate Declared(pack: Pack, b: Workflow) {
    b in pack.defaults && b.id in pack.active
  }

  /** A stored draft with the content of a blueprint, one revision on. */
  predicate TakenFrom(drafts: map<string, Workflow>, b: Workflow, w: Workflow) {
    SameContent(w, b) && b.id in drafts && w.draftRevision == drafts[b.id].draftRevision + 1
  }

  lemma UpgradedAreTaken(drafts: map<string, Workflow>, blueprints: seq<Workflow>)
    requires AllStored(drafts, blueprints) && OneEach(blueprints)
    ensures var ws := AllUpgraded(drafts, blueprints);
            && OneEach(ws)
            && (forall w :: w in ws ==> exists b :: b in blueprints && TakenFrom(drafts, b, w))
            && (forall b :: b in blueprints ==> exists w :: w in ws && TakenFrom(drafts, b, w))
  {
    var ws := AllUpgraded(drafts, blueprints);
    forall w | w in ws ensures exists b :: b in blueprints && TakenFrom(drafts, b, w) && w == Upgraded(drafts[b.id], b) {
      var k :| 0 <= k < |ws| && ws[k] == w;
      assert TakenFrom(drafts, blueprints[k], w);
    }
    forall b | b in blueprints ensures exists w :: w in ws && TakenFrom(drafts, b, w) {
      var k :| 0 <= k < |blueprints| && blueprints[k] == b;
      assert ws[k] in ws && TakenFrom(drafts, b, ws[k]);
    }
  }

  lemma PutUpgraded(drafts: map<string, Workflow>, blueprints: seq<Workflow>)
    requires AllStored(drafts, blueprints) && OneEach(blueprints)
    ensures var after := PutAll(drafts, AllUpgraded(drafts, blueprints));
            && (forall b :: b in blueprints ==> b.id in after && TakenFrom(drafts, b, after[b.id]))
            && (forall id :: id in drafts && id !in Ids(blueprints) ==> id in after && after[id] == drafts[id])
  {
    var ws := AllUpgraded(drafts, blueprints);
    UpgradedAreTaken(drafts, blueprints);
    PutOneEach(drafts, ws);
    forall b | b in blueprints ensures b.id in PutAll(drafts, ws) && TakenFrom(drafts, b, PutAll(drafts, ws)[b.id]) {
      var w :| w in ws && TakenFrom(drafts, b, w);
    }
    forall id | id in Ids(ws) ensures id in Ids(blueprints) {
      var w :| w in ws && w.id == id;
      var b :| b in blueprints && TakenFrom(drafts, b, w);
    }
  }

  lemma BlueprintsAreDeclared(pack: Pack)
    ensures forall b :: b in Blueprints(pack) <==> Declared(pack, b)
  {
    ChosenElements(pack.defaults, set id | id in pack.active, true);
  }

  /** A successful import stores every declared default with its content, and leaves all other drafts alone. */
  lemma ImportTakesTheBlueprints(pack: Pack, s: Store, rawKey: string, expected: map<string, int>)
    requires OneEach(pack.defaults) && Import(pack, s, rawKey, expected).1 == Done
    ensures var after := Import(pack, s, rawKey, expected).0;
            && after.drafts.Keys == s.drafts.Keys
            && (forall b :: Declared(pack, b) ==> b.id in after.drafts && TakenFrom(s.drafts, b, after.drafts[b.id]))
            && (forall id :: id in s.drafts && (forall b :: Declared(pack, b) ==> b.id != id) ==> after.drafts[id] == s.drafts[id])
  {
    ImportWritesWhatItNamed(pack, s, rawKey, expected);
    BlueprintsAreDeclared(pack);
    ImportedDrafts(pack, s, rawKey, expected);
    PutUpgraded(s.drafts, Blueprints(pack));
  }

  lemma ImportedDrafts(pack: Pack, s: Store, rawKey: string, expected: map<string, int>)
    requires Import(pack, s, rawKey, expected).1 == Done
    ensures AllStored(s.drafts, Blueprints(pack))
    ensures Import(pack, s, rawKey, expected).0.drafts == PutAll(s.drafts, AllUpgraded(s.drafts, Blueprints(pack)))
  {
    EndedIsNotDone(pack, s, Trim(rawKey), expected);
  }

  // ---- what an import answers

  /** The caller named every declared default's draft at its present revision. */
  ghost predicate AllNamed(pack: Pack, s: Store, expected: map<string, int>) {
    forall b :: Declared(pack, b) && b.id in s.drafts ==> b.id in expected && expected[b.id] == s.drafts[b.id].draftRevision
  }

  lemma {:induction false} ExpectationHolds(drafts: map<string, Workflow>, blueprints: seq<Workflow>, expected: map<string, int>)
    requires AllStored(drafts, blueprints)
    ensures Expectation(drafts, blueprints, expected) in {Done, RevisionRequired, RevisionConflict}
    ensures Expectation(drafts, blueprints, expected) == Done <==>
              forall b :: b in blueprints ==> b.id in expected && expected[b.id] == drafts[b.id].draftRevision
  {
    if blueprints != [] {
      ExpectationHolds(drafts, blueprints[1..], expected);
      assert blueprints == [blueprints[0]] + blueprints[1..];
    }
  }

  /** Each answer of an import, by what is wrong with the request; a key is looked up trimmed, before anything else. */
  lemma ImportAnswers(pack: Pack, s: Store, rawKey: string, expected: map<string, int>)
    ensures var r, key := Import(pack, s, rawKey, expected).1, Trim(rawKey);
            && (r == BadKey <==> |key| < 1 || 200 < |key|)
            && (r in {Replayed, KeyReused} <==> 1 <= |key| <= 200 && key in s.imports)
            && (r == Replayed ==> s.imports[key] == expected) && (r == KeyReused ==> s.imports[key] != expected)
            && (1 <= |key| <= 200 && key !in s.imports ==>
                  && (r == NotFound <==> exists b :: Declared(pack, b) && b.id !in s.drafts)
                  && (r in {Done, Result.AlreadyCurrent, Invalid} <==>
                        AllNamed(pack, s, expected) && forall b :: Declared(pack, b) ==> b.id in s.drafts))
  {
    BlueprintsAreDeclared(pack);
    if AllStored(s.drafts, Blueprints(pack)) {
      ExpectationHolds(s.drafts, Blueprints(pack), expected);
    }
  }

  /** Ids of all edges and nodes are present. */
  predicate AllHaveIds(w: Workflow) {
    (forall n :: n in w.nodes ==> n.id != "") && (forall e :: e in w.edges ==> e.id != "")
  }

  lemma {:induction false} NodesUnderIds(nodes: seq<Node>, p: string, q: string)
    requires forall n :: n in nodes ==> n.id != ""
    ensures NodesById(nodes, p) == NodesById(nodes, q)
    ensures forall id :: id in NodesById(nodes, p) ==> NodesById(nodes, p)[id] in nodes && NodesById(nodes, p)[id].id == id
    ensures forall n :: n in nodes ==> n.id in NodesById(nodes, p)
  {
    if nodes != [] {
      InFrontOrLast(nodes);
      NodesUnderIds(nodes[..|nodes| - 1], p, q);
    }
  }

  lemma {:induction false} EdgesUnderIds(edges: seq<Edge>, p: string, q: string)
    requires forall e :: e in edges ==> e.id != ""
    ensures EdgesById(edges, p) == EdgesById(edges, q)
    ensures forall id :: id in EdgesById(edges, p) ==> EdgesById(edges, p)[id] in edges && EdgesById(edges, p)[id].id == id
    ensures forall e :: e in edges ==> e.id in EdgesById(edges, p)
  {
    if edges != [] {
      InFrontOrLast(edges);
      EdgesUnderIds(edges[..|edges| - 1], p, q);
    }
  }

  /** No id stands for two nodes or for two edges. */
  ghost predicate IdsTell(w: Workflow) {
    && (forall m, n :: m in w.nodes && n in w.nodes && m.id == n.id ==> m == n)
    && (forall d, e :: d in w.edges && e in w.edges && d.id == e.id ==> d == e)
  }

  lemma SameNodes(a: seq<Node>, b: seq<Node>, p: string, q: string)
    requires (forall n :: n in a ==> n.id != "") && forall n :: n in b ==> n.id != ""
    requires forall m, n :: m in a && n in a && m.id == n.id ==> m == n
    requires forall m, n :: m in b && n in b && m.id == n.id ==> m == n
    ensures NodesById(a, p) == NodesById(b, q) <==> forall n :: n in a <==> n in b
  {
    NodesUnderIds(a, p, q);
    NodesUnderIds(b, q, p);
    forall n | n in a ensures n.id in NodesById(a, p) && NodesById(a, p)[n.id] == n { }
    forall n | n in b ensures n.id in NodesById(b, q) && NodesById(b, q)[n.id] == n { }
  }

  lemma SameEdges(a: seq<Edge>, b: seq<Edge>, p: string, q: string)
    requires (forall e :: e in a ==> e.id != "") && forall e :: e in b ==> e.id != ""
    requires forall d, e :: d in a && e in a && d.id == e.id ==> d == e
    requires forall d, e :: d in b && e in b && d.id == e.id ==> d == e
    ensures EdgesById(a, p) == EdgesById(b, q) <==> forall e :: e in a <==> e in b
  {
    EdgesUnderIds(a, p, q);
    EdgesUnderIds(b, q, p);
    forall e | e in a ensures e.id in EdgesById(a, p) && EdgesById(a, p)[e.id] == e { }
    forall e | e in b ensures e.id in EdgesById(b, q) && EdgesById(b, q)[e.id] == e { }
  }

  /** The comparison of an import sees every difference but the order. */
  lemma SameMeansSame(w: Workflow, b: Workflow)
    requires AllHaveIds(w) && AllHaveIds(b) && IdsTell(w) && IdsTell(b)
    ensures SameAsBlueprint(w, b) <==>
              && w.name == b.name && w.desc == b.desc
              && (forall n :: n in w.nodes <==> n in b.nodes) && (forall e :: e in w.edges <==> e in b.edges)
  {
    SameNodes(w.nodes, b.nodes, "current-node:", "blueprint-node:");
    SameEdges(w.edges, b.edges, "current-edge:", "blueprint-edge:");
  }

  lemma TakenIsSame(w: Workflow, b: Workflow)
    requires SameContent(w, b) && AllHaveIds(b)
    ensures SameAsBlueprint(w, b)
  {
    NodesUnderIds(b.nodes, "current-node:", "blueprint-node:");
    EdgesUnderIds(b.edges, "current-edge:", "blueprint-edge:");
  }

  lemma ImportedAreSame(pack: Pack, s: Store, rawKey: string, expected: map<string, int>)
    requires OneEach(pack.defaults) && forall b :: Declared(pack, b) ==> AllHaveIds(b)
    requires Import(pack, s, rawKey, expected).1 == Done
    ensures var drafts := Import(pack, s, rawKey, expected).0.drafts;
            AllStored(drafts, Blueprints(pack)) && AllSame(drafts, Blueprints(pack))
  {
    var drafts := Import(pack, s, rawKey, expected).0.drafts;
    ImportTakesTheBlueprints(pack, s, rawKey, expected);
    BlueprintsAreDeclared(pack);
    forall b | b in Blueprints(pack) ensures b.id in drafts && SameAsBlueprint(drafts[b.id], b) {
      assert Declared(pack, b) && TakenFrom(s.drafts, b, drafts[b.id]);
      TakenIsSame(drafts[b.id], b);
    }
  }

  /** After a successful import there is nothing left to import: the next one under a fresh key is already current. */
  lemma ImportSettles(pack: Pack, s: Store, rawKey: string, expected: map<string, int>, nextKey: string, next: map<string, int>)
    requires OneEach(pack.defaults) && forall b :: Declared(pack, b) ==> AllHaveIds(b)
    requires Import(pack, s, rawKey, expected).1 == Done
    ensures var after, key := Import(pack, s, rawKey, expected).0, Trim(nextKey);
            1 <= |key| <= 200 && key !in after.imports && AllNamed(pack, after, next) ==>
              Import(pack, after, nextKey, next) == (after, Result.AlreadyCurrent)
  {
    var after := Import(pack, s, rawKey, expected).0;
    ImportedAreSame(pack, s, rawKey, expected);
    BlueprintsAreDeclared(pack);
    ExpectationHolds(after.drafts, Blueprints(pack), next);
  }

  /** The same request again is a replay, whatever happened to the drafts. */
  lemma ImportReplays(pack: Pack, s: Store, rawKey: string, expected: map<string, int>, later: Store)
    requires Import(pack, s, rawKey, expected).1 == Done
    requires later.imports == Import(pack, s, rawKey, expected).0.imports
    ensures Import(pack, later, rawKey, expected) == (later, Replayed)
  {
    ImportWritesWhatItNamed(pack, s, rawKey, expected);
    ImportAnswers(pack, s, rawKey, expected);
  }

  // ---- version names

  /** A version of the pack's line with this patch number; a numeral may have leading zeros. */
  predicate HasPatch(pack: Pack, v: Version, n: nat) {
    var prefix := "v" + Decimal(pack.major) + "." + Decimal(pack.minor) + ".";
    prefix <= v.name && Digits(v.name[|prefix|..]) && Value(v.name[|prefix|..]) == n
  }

  ghost predicate HighestIs(pack: Pack, versions: seq<Version>, n: nat) {
    && pack.patch <= n && (n == pack.patch || exists v :: v in versions && HasPatch(pack, v, n))
    && forall v, m: nat :: v in versions && HasPatch(pack, v, m) ==> m <= n
  }

  lemma {:induction false} HighestIsReached(pack: Pack, versions: seq<Version>)
    ensures HighestIs(pack, versions, HighestPatch(Prefix(pack), pack.patch, versions))
  {
    if versions != [] {
      var front, last := versions[..|versions| - 1], versions[|versions| - 1];
      HighestIsReached(pack, front);
      InFrontOrLast(versions);
      var n := HighestPatch(Prefix(pack), pack.patch, front);
      if n != pack.patch {
        var v :| v in front && HasPatch(pack, v, n);
        assert v in versions;
      }
      assert last in versions;
    }
  }

  /** The next version is the one after the highest patch number of the pack's line, its own first one included. */
  lemma NextVersionIsNext(pack: Pack, versions: seq<Version>) returns (n: nat)
    ensures HighestIs(pack, versions, n)
    ensures NextVersion(pack, versions) == "v" + Decimal(pack.major) + "." + Decimal(pack.minor) + "." + Decimal(n + 1)
  {
    n := HighestPatch(Prefix(pack), pack.patch, versions);
    HighestIsReached(pack, versions);
  }
}
