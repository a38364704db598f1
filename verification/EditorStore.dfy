/** The store of workflow drafts and published versions of one employee. */
module EditorStore {
  // It saves with an expected revision, publishes, rolls back, imports the pack's blueprints, and
  // upgrades invoice matching.

  import opened Basics
  import opened Graph
  import opened Decimals
  import opened WorkflowValidation
  import opened InvoiceMatchUpgrade
  import opened Texts

  datatype Version = Version(name: string, current: bool, snapshot: seq<Workflow>)

  /** The workflows a pack declares, its default drafts with complete metadata, and its first version. */
  datatype Pack = Pack(active: seq<string>, defaults: seq<Workflow>, major: nat, minor: nat, patch: nat)

  datatype Store = Store(drafts: map<string, Workflow>, versions: seq<Version>, imports: map<string, map<string, int>>)

  datatype Result =
    | Done
    | Replayed
    | AlreadyCurrent
    | RevisionRequired
    | NotFound
    | RevisionConflict
    | Invalid
    | BadKey
    | KeyReused

  // ---- lists of drafts

  /** The declared drafts that are stored, in the pack's order. */
  function Listed(active: seq<string>, drafts: map<string, Workflow>): seq<Workflow> {
    if active == [] then []
    else
      var front, id := Listed(active[..|active| - 1], drafts), active[|active| - 1];
      if id in drafts then front + [drafts[id]] else front
  }

  /** The defaults a filter on their ids leaves: the declared ones, or those not stored. */
  function Chosen(ws: seq<Workflow>, ids: set<string>, inside: bool): seq<Workflow> {
    if ws == [] then []
    else
      var front, w := Chosen(ws[..|ws| - 1], ids, inside), ws[|ws| - 1];
      if (w.id in ids) == inside then front + [w] else front
  }

  function Blueprints(pack: Pack): seq<Workflow> {
    Chosen(pack.defaults, set id | id in pack.active, true)
  }

  function PutAll(drafts: map<string, Workflow>, ws: seq<Workflow>): map<string, Workflow> {
    if ws == [] then drafts else PutAll(drafts, ws[..|ws| - 1])[ws[|ws| - 1].id := ws[|ws| - 1]]
  }

  // ---- saving

  /** The parts of a draft that a save may replace. */
  datatype Patch = Patch(name: Option<string>, desc: Option<string>, nodes: Option<seq<Node>>, edges: Option<seq<Edge>>)

  function WholeOf(w: Workflow): Patch {
    Patch(Some(w.name), Some(w.desc), Some(w.nodes), Some(w.edges))
  }

  function Patched(w: Workflow, p: Patch): Workflow {
    w.(name := Trim(p.name.GetOr(w.name)), desc := Trim(p.desc.GetOr(w.desc)), nodes := p.nodes.GetOr(w.nodes), edges := p.edges.GetOr(w.edges),
       draftRevision := w.draftRevision + 1)
  }

  /** An absent expectation stands for anything that is not a safe integer. */
  ghost function Save(s: Store, id: string, expected: Option<int>, p: Patch): (Store, Result) {
    if expected.None? || expected.value < 0 then (s, RevisionRequired)
    else if id !in s.drafts then (s, NotFound)
    else if s.drafts[id].draftRevision != expected.value then (s, RevisionConflict)
    else if !ValidWorkflow(Patched(s.drafts[id], p)) then (s, Invalid)
    else (s.(drafts := s.drafts[id := Patched(s.drafts[id], p)]), Done)
  }

  // ---- version names

  function Prefix(pack: Pack): string { "v" + Decimal(pack.major) + "." + Decimal(pack.minor) + "." }

  predicate Digits(s: string) {
    s != "" && forall i :: 0 <= i < |s| ==> '0' <= s[i] <= '9'
  }

  function HighestPatch(prefix: string, initial: nat, versions: seq<Version>): nat {
    if versions == [] then initial
    else
      var front, name := HighestPatch(prefix, initial, versions[..|versions| - 1]), versions[|versions| - 1].name;
      if prefix <= name && Digits(name[|prefix|..]) && front < Value(name[|prefix|..]) then Value(name[|prefix|..]) else front
  }

  function NextVersion(pack: Pack, versions: seq<Version>): string {
    Prefix(pack) + Decimal(HighestPatch(Prefix(pack), pack.patch, versions) + 1)
  }

  lemma {:induction false} HighestIsHighest(prefix: string, initial: nat, versions: seq<Version>)
    ensures forall v :: v in versions && prefix <= v.name && Digits(v.name[|prefix|..]) ==>
              Value(v.name[|prefix|..]) <= HighestPatch(prefix, initial, versions)
  {
    if versions != [] {
      HighestIsHighest(prefix, initial, versions[..|versions| - 1]);
      InFrontOrLast(versions);
    }
  }

  /** The next version's name is not in use, whatever names are. */
  lemma NextVersionIsUnused(pack: Pack, versions: seq<Version>)
    ensures forall v :: v in versions ==> v.name != NextVersion(pack, versions)
  {
    var prefix := Prefix(pack);
    var n := HighestPatch(prefix, pack.patch, versions) + 1;
    HighestIsHighest(prefix, pack.patch, versions);
    ValueDecimal(n);
    DecimalIsDigits(n);
    var name := prefix + Decimal(n);
    assert prefix <= name && name[|prefix|..] == Decimal(n);
  }

  function Cleared(versions: seq<Version>): (r: seq<Version>)
    ensures |r| == |versions| && forall i :: 0 <= i < |r| ==> r[i] == versions[i].(current := false)
  {
    if versions == [] then [] else Cleared(versions[..|versions| - 1]) + [versions[|versions| - 1].(current := false)]
  }

  // ---- publishing and rolling back

  function Published(ws: seq<Workflow>, name: string): (r: seq<Workflow>)
    ensures |r| == |ws|
    ensures forall i :: 0 <= i < |r| ==> r[i] == ws[i].(publishedRevision := ws[i].draftRevision, publishedVersion := name)
  {
    if ws == [] then []
    else
      var w := ws[|ws| - 1];
      Published(ws[..|ws| - 1], name) + [w.(publishedRevision := w.draftRevision, publishedVersion := name)]
  }

  function Publish(pack: Pack, s: Store): Store {
    var name := NextVersion(pack, s.versions);
    var ws := Published(Listed(pack.active, s.drafts), name);
    s.(drafts := PutAll(s.drafts, ws), versions := Cleared(s.versions) + [Version(name, true, ws)])
  }

  function Snapshot(versions: seq<Version>, name: string): Option<seq<Workflow>> {
    if versions == [] then None
    else if versions[0].name == name then Some(versions[0].snapshot) else Snapshot(versions[1..], name)
  }

  function Restored(active: seq<string>, drafts: map<string, Workflow>, snapshot: seq<Workflow>, name: string): seq<Workflow> {
    if snapshot == [] then []
    else
      var front, w := Restored(active, drafts, snapshot[..|snapshot| - 1], name), snapshot[|snapshot| - 1];
      var revision := (if w.id in active && w.id in drafts then drafts[w.id].draftRevision else w.draftRevision) + 1;
      if w.id in active then front + [w.(draftRevision := revision, publishedRevision := revision, publishedVersion := name)] else front
  }

  function Without(drafts: map<string, Workflow>, active: seq<string>): map<string, Workflow> {
    map id | id in drafts && id !in active :: drafts[id]
  }

  function Rollback(pack: Pack, s: Store, version: string): (Store, Result) {
    var snapshot := Snapshot(s.versions, version);
    if snapshot.None? then (s, NotFound)
    else
      var name := NextVersion(pack, s.versions);
      var ws := Restored(pack.active, s.drafts, snapshot.value, name);
      (s.(drafts := PutAll(Without(s.drafts, pack.active), ws), versions := Cleared(s.versions) + [Version(name, true, ws)]), Done)
  }

  // ---- starting up

  /** `seed`: stores the default drafts that are missing, and the pack's first version where there is none. */
  function Seed(pack: Pack, s: Store): Store {
    var drafts := PutAll(s.drafts, Chosen(pack.defaults, s.drafts.Keys, false));
    if s.versions != [] then s.(drafts := drafts)
    else s.(drafts := drafts, versions := [Version(Prefix(pack) + Decimal(pack.patch), true, Listed(pack.active, drafts))])
  }

  // ---- importing blueprints

  /** An item without an id is named after its place, differently on the two sides of the comparison. */
  function NodesById(nodes: seq<Node>, prefix: string): map<string, Node> {
    if nodes == [] then map[]
    else
      var last := nodes[|nodes| - 1];
      NodesById(nodes[..|nodes| - 1], prefix)[(if last.id != "" then last.id else prefix + Decimal(|nodes|)) := last]
  }

  function EdgesById(edges: seq<Edge>, prefix: string): map<string, Edge> {
    if edges == [] then map[]
    else
      var last := edges[|edges| - 1];
      EdgesById(edges[..|edges| - 1], prefix)[(if last.id != "" then last.id else prefix + Decimal(|edges|)) := last]
  }

  predicate SameAsBlueprint(w: Workflow, blueprint: Workflow) {
    && w.name == blueprint.name && w.desc == blueprint.desc
    && NodesById(w.nodes, "current-node:") == NodesById(blueprint.nodes, "blueprint-node:")
    && EdgesById(w.edges, "current-edge:") == EdgesById(blueprint.edges, "blueprint-edge:")
  }

  function Upgraded(w: Workflow, blueprint: Workflow): Workflow {
    blueprint.(draftRevision := w.draftRevision + 1, publishedRevision := w.publishedRevision, publishedVersion := w.publishedVersion)
  }

  /** The first reason to refuse an expectation, in the order of the blueprints. */
  function Expectation(drafts: map<string, Workflow>, blueprints: seq<Workflow>, expected: map<string, int>): Result {
    if blueprints == [] then Done
    else
      var id := blueprints[0].id;
      if id !in expected || expected[id] < 0 then RevisionRequired
      else if id in drafts && drafts[id].draftRevision != expected[id] then RevisionConflict
      else Expectation(drafts, blueprints[1..], expected)
  }

  predicate AllStored(drafts: map<string, Workflow>, blueprints: seq<Workflow>) {
    forall b :: b in blueprints ==> b.id in drafts
  }

  predicate AllSame(drafts: map<string, Workflow>, blueprints: seq<Workflow>)
    requires AllStored(drafts, blueprints)
  {
    forall b :: b in blueprints ==> SameAsBlueprint(drafts[b.id], b)
  }

  function AllUpgraded(drafts: map<string, Workflow>, blueprints: seq<Workflow>): (r: seq<Workflow>)
    requires AllStored(drafts, blueprints)
    ensures |r| == |blueprints| && forall i :: 0 <= i < |r| ==> r[i] == Upgraded(drafts[blueprints[i].id], blueprints[i])
  {
    if blueprints == [] then []
    else
      var b := blueprints[|blueprints| - 1];
      AllUpgraded(drafts, blueprints[..|blueprints| - 1]) + [Upgraded(drafts[b.id], b)]
  }

  /** What ends an import before anything is validated or written. */
  function Ended(pack: Pack, s: Store, key: string, expected: map<string, int>): Option<Result> {
    if key == "" || |key| > 200 then Some(BadKey)
    else if key in s.imports then Some(if s.imports[key] == expected then Replayed else KeyReused)
    else if !AllStored(s.drafts, Blueprints(pack)) then Some(NotFound)
    else
      var refusal := Expectation(s.drafts, Blueprints(pack), expected);
      if refusal != Done then Some(refusal)
      else if AllSame(s.drafts, Blueprints(pack)) then Some(Result.AlreadyCurrent)
      else None
  }

  /** The key is trimmed before anything looks at it. */
  ghost function Import(pack: Pack, s: Store, rawKey: string, expected: map<string, int>): (Store, Result) {
    var key := Trim(rawKey);
    var ended := Ended(pack, s, key, expected);
    if ended.Some? then (s, ended.value)
    else
      var ws := AllUpgraded(s.drafts, Blueprints(pack));
      if exists w :: w in ws && !ValidWorkflow(w) then (s, Invalid)
      else (s.(drafts := PutAll(s.drafts, ws), imports := s.imports[key := expected]), Done)
  }

  /** Writing an eligible upgrade is a save of its nodes and edges. */
  ghost function UpgradeInvoiceMatch(s: Store, id: string, expected: Option<int>): (Store, Result) {
    if id !in s.drafts then (s, NotFound)
    else
      match UpgradePlan(s.drafts[id])
      case Eligible(_, w) => Save(s, id, expected, WholeOf(w))
      case _ => (s, Result.AlreadyCurrent)
  }

  // ---- the store as an object

  class EditorStore {
    const pack: Pack
    var drafts: map<string, Workflow>
    var versions: seq<Version>
    var imports: map<string, map<string, int>>

    function State(): Store
      reads this
    {
      Store(drafts, versions, imports)
    }

    constructor (pack: Pack, s: Store)
      ensures State() == Seed(pack, s) && this.pack == pack
    {
      this.pack, drafts, versions, imports := pack, s.drafts, s.versions, s.imports;
      new;
      StoreAll(Chosen(pack.defaults, drafts.Keys, false));
      if versions == [] {
        versions := [Version(Prefix(pack) + Decimal(pack.patch), true, Listed(pack.active, drafts))];
      }
    }

    method SaveWorkflow(id: string, expected: Option<int>, p: Patch) returns (r: Result)
      modifies this`drafts
      ensures (State(), r) == Save(old(State()), id, expected, p)
    {
      if expected.None? || expected.value < 0 {
        return RevisionRequired;
      }
      if id !in drafts {
        return NotFound;
      }
      var current := drafts[id];
      if current.draftRevision != expected.value {
        return RevisionConflict;
      }
      var candidate := Patched(current, p);
      var problem := ValidateWorkflow(candidate);
      if problem.Some? {
        return Invalid;
      }
      drafts := drafts[id := candidate];
      return Done;
    }

    method StoreAll(ws: seq<Workflow>)
      modifies this`drafts
      ensures drafts == PutAll(old(drafts), ws)
    {
      for i := 0 to |ws|
        invariant drafts == PutAll(old(drafts), ws[..i])
      {
        assert ws[..i + 1][..i] == ws[..i];
        drafts := drafts[ws[i].id := ws[i]];
      }
      assert ws[..|ws|] == ws;
    }

    method PublishAll() returns (name: string)
      modifies this`drafts, this`versions
      ensures State() == Publish(pack, old(State())) && name == NextVersion(pack, old(versions))
    {
      name := NextVersion(pack, versions);
      var ws := Published(Listed(pack.active, drafts), name);
      StoreAll(ws);
      versions := Cleared(versions) + [Version(name, true, ws)];
    }

    method RollBack(version: string) returns (r: Result)
      modifies this`drafts, this`versions
      ensures (State(), r) == Rollback(pack, old(State()), version)
    {
      var snapshot := Snapshot(versions, version);
      if snapshot.None? {
        return NotFound;
      }
      var name := NextVersion(pack, versions);
      var ws := Restored(pack.active, drafts, snapshot.value, name);
      drafts := Without(drafts, pack.active);
      StoreAll(ws);
      versions := Cleared(versions) + [Version(name, true, ws)];
      return Done;
    }

    method ImportBlueprint(rawKey: string, expected: map<string, int>) returns (r: Result)
      modifies this`drafts, this`imports
      ensures (State(), r) == Import(pack, old(State()), rawKey, expected)
    {
      var key := Trim(rawKey);
      var ended := Ended(pack, State(), key, expected);
      if ended.Some? {
        return ended.value;
      }
      var ws := AllUpgraded(drafts, Blueprints(pack));
      var ok := AllValid(ws);
      if !ok {
        return Invalid;
      }
      StoreAll(ws);
      imports := imports[key := expected];
      return Done;
    }
  }

  method AllValid(ws: seq<Workflow>) returns (ok: bool)
    ensures ok <==> forall w :: w in ws ==> ValidWorkflow(w)
  {
    for i := 0 to |ws|
      invariant forall j :: 0 <= j < i ==> ValidWorkflow(ws[j])
    {
      var problem := ValidateWorkflow(ws[i]);
      if problem.Some? {
        assert ws[i] in ws;
        return false;
      }
    }
    return true;
  }

  // ---- what every operation keeps

  ghost predicate Sound(w: Workflow) {
    ValidWorkflow(w) && w.publishedRevision <= w.draftRevision
  }

  ghost predicate OnlyCurrent(versions: seq<Version>, i: nat) {
    i < |versions| && forall j :: 0 <= j < |versions| ==> (versions[j].current <==> j == i)
  }

  ghost predicate OneCurrent(versions: seq<Version>) {
    exists i :: OnlyCurrent(versions, i)
  }

  ghost predicate DistinctNames(versions: seq<Version>) {
    forall i, j :: 0 <= i < j < |versions| ==> versions[i].name != versions[j].name
  }

  ghost predicate SoundDrafts(drafts: map<string, Workflow>) {
    forall id {:trigger drafts[id]} :: id in drafts ==> drafts[id].id == id && Sound(drafts[id])
  }

  ghost predicate SoundSnapshot(ws: seq<Workflow>) {
    forall w {:trigger Sound(w)} :: w in ws ==> Sound(w)
  }

  ghost predicate SoundVersions(versions: seq<Version>) {
    forall i {:trigger versions[i]} :: 0 <= i < |versions| ==> SoundSnapshot(versions[i].snapshot)
  }

  ghost predicate Inv(s: Store) {
    SoundDrafts(s.drafts) && SoundVersions(s.versions) && OneCurrent(s.versions) && DistinctNames(s.versions)
  }

  lemma {:induction false} ListedElements(active: seq<string>, drafts: map<string, Workflow>)
    ensures forall w :: w in Listed(active, drafts) ==> exists id :: id in active && id in drafts && drafts[id] == w
    ensures forall id :: id in active && id in drafts ==> drafts[id] in Listed(active, drafts)
  {
    if active != [] {
      ListedElements(active[..|active| - 1], drafts);
      InFrontOrLast(active);
    }
  }

  lemma {:induction false} PutAllEffect(drafts: map<string, Workflow>, ws: seq<Workflow>)
    ensures var after := PutAll(drafts, ws);
            && (forall id :: id in after ==> (id in drafts && after[id] == drafts[id]) || (after[id] in ws && after[id].id == id))
            && (forall id :: id in drafts ==> id in after)
            && (forall w :: w in ws ==> w.id in after && after[w.id] in ws)
            && forall id :: id in drafts && (forall w :: w in ws ==> w.id != id) ==> after[id] == drafts[id]
  {
    if ws != [] {
      PutAllEffect(drafts, ws[..|ws| - 1]);
      InFrontOrLast(ws);
    }
  }

  lemma PutAllSound(drafts: map<string, Workflow>, ws: seq<Workflow>)
    requires SoundDrafts(drafts) && SoundSnapshot(ws)
    ensures SoundDrafts(PutAll(drafts, ws))
  {
    PutAllEffect(drafts, ws);
    var after := PutAll(drafts, ws);
    forall id | id in after ensures after[id].id == id && Sound(after[id]) {
      if id in drafts && after[id] == drafts[id] {
      }
    }
  }

  lemma NewVersionSound(pack: Pack, versions: seq<Version>, ws: seq<Workflow>)
    requires SoundVersions(versions) && DistinctNames(versions) && SoundSnapshot(ws)
    ensures var after := Cleared(versions) + [Version(NextVersion(pack, versions), true, ws)];
            SoundVersions(after) && DistinctNames(after) && OneCurrent(after)
  {
    NextVersionIsUnused(pack, versions);
    var after := Cleared(versions) + [Version(NextVersion(pack, versions), true, ws)];
    forall i | 0 <= i < |versions| ensures after[i].name == versions[i].name && after[i].name != NextVersion(pack, versions) {
      assert versions[i] in versions;
    }
    assert OnlyCurrent(after, |versions|);
  }

  lemma PublishKeeps(pack: Pack, s: Store)
    requires Inv(s)
    ensures Inv(Publish(pack, s))
  {
    var ws := Published(Listed(pack.active, s.drafts), NextVersion(pack, s.versions));
    ListedElements(pack.active, s.drafts);
    forall w | w in ws ensures Sound(w) {
      var i :| 0 <= i < |ws| && ws[i] == w;
      var before := Listed(pack.active, s.drafts)[i];
      assert before in Listed(pack.active, s.drafts);
      assert Sound(before);
      SameWorkflow(before, w);
    }
    PutAllSound(s.drafts, ws);
    NewVersionSound(pack, s.versions, ws);
  }

  /** Validity does not look at revisions, and of the name it reads the length. */
  lemma SameWorkflow(a: Workflow, b: Workflow)
    requires ValidWorkflow(a) && 1 <= |b.name| <= 80 && b.nodes == a.nodes && b.edges == a.edges
    ensures ValidWorkflow(b)
  {
  }

  lemma {:induction false} RestoredElements(active: seq<string>, drafts: map<string, Workflow>, snapshot: seq<Workflow>, name: string)
    ensures SoundSnapshot(snapshot) ==> SoundSnapshot(Restored(active, drafts, snapshot, name))
    ensures forall w :: w in Restored(active, drafts, snapshot, name) ==>
              w.id in active && (w.id in drafts ==> w.draftRevision == drafts[w.id].draftRevision + 1)
  {
    if snapshot != [] {
      var front, w := snapshot[..|snapshot| - 1], snapshot[|snapshot| - 1];
      InFrontOrLast(snapshot);
      RestoredElements(active, drafts, front, name);
      if w.id in active {
        var after := Restored(active, drafts, snapshot, name);
        InFrontOrLast(after);
        assert after[..|after| - 1] == Restored(active, drafts, front, name);
        if Sound(w) {
          SameWorkflow(w, after[|after| - 1]);
        }
      }
    }
  }

  function Ids(ws: seq<Workflow>): set<string> { set w | w in ws :: w.id }

  lemma {:induction false} RestoredIds(active: seq<string>, drafts: map<string, Workflow>, snapshot: seq<Workflow>, name: string)
    ensures forall id :: id in Ids(Restored(active, drafts, snapshot, name)) <==> id in Ids(snapshot) && id in active
  {
    if snapshot != [] {
      var front, w := snapshot[..|snapshot| - 1], snapshot[|snapshot| - 1];
      InFrontOrLast(snapshot);
      RestoredIds(active, drafts, front, name);
      assert Ids(snapshot) == Ids(front) + {w.id};
      if w.id in active {
        var before, after := Restored(active, drafts, front, name), Restored(active, drafts, snapshot, name);
        InFrontOrLast(after);
        assert after[..|after| - 1] == before;
        assert Ids(after) == Ids(before) + {w.id};
      }
    }
  }

  lemma {:induction false} SnapshotIsStored(versions: seq<Version>, name: string)
    ensures Snapshot(versions, name).Some? ==> exists i :: 0 <= i < |versions| && versions[i].name == name && versions[i].snapshot == Snapshot(versions, name).value
  {
    if versions != [] && versions[0].name != name {
      SnapshotIsStored(versions[1..], name);
      if Snapshot(versions, name).Some? {
        var i :| 0 <= i < |versions[1..]| && versions[1..][i].name == name && versions[1..][i].snapshot == Snapshot(versions, name).value;
        assert versions[i + 1] == versions[1..][i];
      }
    }
  }

  lemma RollbackKeeps(pack: Pack, s: Store, version: string)
    requires Inv(s)
    ensures Inv(Rollback(pack, s, version).0)
  {
    var snapshot := Snapshot(s.versions, version);
    if snapshot.Some? {
      SnapshotIsStored(s.versions, version);
      var ws := Restored(pack.active, s.drafts, snapshot.value, NextVersion(pack, s.versions));
      RestoredElements(pack.active, s.drafts, snapshot.value, NextVersion(pack, s.versions));
      PutAllSound(Without(s.drafts, pack.active), ws);
      NewVersionSound(pack, s.versions, ws);
    }
  }

  lemma {:induction false} ChosenElements(ws: seq<Workflow>, ids: set<string>, inside: bool)
    ensures forall w :: w in Chosen(ws, ids, inside) <==> w in ws && (w.id in ids) == inside
  {
    if ws != [] {
      ChosenElements(ws[..|ws| - 1], ids, inside);
      InFrontOrLast(ws);
    }
  }

  /** Starting up on sound drafts gives a sound store, and only a store without versions gets one. */
  lemma SeedKeeps(pack: Pack, s: Store)
    requires SoundDrafts(s.drafts) && SoundSnapshot(pack.defaults)
    requires s.versions == [] || Inv(s)
    ensures Inv(Seed(pack, s))
  {
    var missing := Chosen(pack.defaults, s.drafts.Keys, false);
    ChosenElements(pack.defaults, s.drafts.Keys, false);
    PutAllSound(s.drafts, missing);
    var after := Seed(pack, s);
    ListedElements(pack.active, after.drafts);
    if s.versions == [] {
      assert OnlyCurrent(after.versions, 0);
    }
  }

  lemma SaveKeeps(s: Store, id: string, expected: Option<int>, p: Patch)
    requires Inv(s)
    ensures Inv(Save(s, id, expected, p).0)
  {
  }

  lemma ImportKeeps(pack: Pack, s: Store, key: string, expected: map<string, int>)
    requires Inv(s)
    ensures Inv(Import(pack, s, key, expected).0)
  {
    if Import(pack, s, key, expected).1 == Done {
      var ws := AllUpgraded(s.drafts, Blueprints(pack));
      forall w | w in ws ensures Sound(w) {
        var i :| 0 <= i < |ws| && ws[i] == w;
        assert Blueprints(pack)[i] in Blueprints(pack);
      }
      PutAllSound(s.drafts, ws);
    }
  }

  // ---- runs

  datatype Op =
    | SeedOp
    | SaveOp(id: string, expected: Option<int>, patch: Patch)
    | UpgradeOp(id: string, expected: Option<int>)
    | PublishOp
    | RollbackOp(version: string)
    | ImportOp(key: string, revisions: map<string, int>)

  ghost function Apply(pack: Pack, s: Store, op: Op): Store {
    match op
    case SeedOp => Seed(pack, s)
    case SaveOp(id, expected, patch) => Save(s, id, expected, patch).0
    case UpgradeOp(id, expected) => UpgradeInvoiceMatch(s, id, expected).0
    case PublishOp => Publish(pack, s)
    case RollbackOp(version) => Rollback(pack, s, version).0
    case ImportOp(key, revisions) => Import(pack, s, key, revisions).0
  }

  ghost function Run(pack: Pack, s: Store, ops: seq<Op>): Store {
    if ops == [] then s else Apply(pack, Run(pack, s, ops[..|ops| - 1]), ops[|ops| - 1])
  }

  /**
   Every operation keeps: drafts and snapshots valid, no published revision above its draft revision,
   version names distinct, and exactly one version current. Only a start stores drafts it does not check,
   the pack's own.
   */
  lemma StepKeepsInv(pack: Pack, s: Store, op: Op)
    requires Inv(s) && (op.SeedOp? ==> SoundSnapshot(pack.defaults))
    ensures Inv(Apply(pack, s, op))
  {
    match op {
      case SeedOp => SeedKeeps(pack, s);
      case SaveOp(id, expected, patch) => SaveKeeps(s, id, expected, patch);
      case UpgradeOp(id, expected) =>
        if id in s.drafts && UpgradePlan(s.drafts[id]).Eligible? {
          var w := UpgradePlan(s.drafts[id]).upgraded;
          SaveKeeps(s, id, expected, WholeOf(w));
        }
      case PublishOp => PublishKeeps(pack, s);
      case RollbackOp(version) => RollbackKeeps(pack, s, version);
      case ImportOp(key, revisions) => ImportKeeps(pack, s, key, revisions);
    }
  }

  lemma {:induction false} RunKeepsInv(pack: Pack, s: Store, ops: seq<Op>)
    requires Inv(s) && (SeedOp in ops ==> SoundSnapshot(pack.defaults))
    ensures Inv(Run(pack, s, ops))
  {
    if ops != [] {
      RunKeepsInv(pack, s, ops[..|ops| - 1]);
      StepKeepsInv(pack, Run(pack, s, ops[..|ops| - 1]), ops[|ops| - 1]);
    }
  }

  // ---- no blind overwrite

  /** A save writes one draft, from the revision its caller named to the next, or nothing at all. */
  lemma SaveWritesWhatItNamed(s: Store, id: string, expected: Option<int>, p: Patch)
    ensures var (after, r) := Save(s, id, expected, p);
            if r == Done then
              && id in s.drafts && expected == Some(s.drafts[id].draftRevision)
              && after == s.(drafts := s.drafts[id := after.drafts[id]]) && after.drafts[id].draftRevision == s.drafts[id].draftRevision + 1
              && after.drafts[id].publishedRevision == s.drafts[id].publishedRevision
            else after == s
  {
  }

  lemma {:induction false} ExpectationNamesAll(drafts: map<string, Workflow>, blueprints: seq<Workflow>, expected: map<string, int>)
    requires Expectation(drafts, blueprints, expected) == Done
    ensures forall b :: b in blueprints && b.id in drafts ==> b.id in expected && expected[b.id] == drafts[b.id].draftRevision
  {
    if blueprints != [] {
      ExpectationNamesAll(drafts, blueprints[1..], expected);
    }
  }

  /** The next revision of a draft the caller named, with what is published left as it was. */
  predicate FollowsNamed(drafts: map<string, Workflow>, expected: map<string, int>, id: string, w: Workflow) {
    && id in drafts && id in expected && expected[id] == drafts[id].draftRevision
    && w.draftRevision == expected[id] + 1
    && w.publishedRevision == drafts[id].publishedRevision && w.publishedVersion == drafts[id].publishedVersion
  }

  lemma UpgradedAreNamed(drafts: map<string, Workflow>, blueprints: seq<Workflow>, expected: map<string, int>)
    requires AllStored(drafts, blueprints) && Expectation(drafts, blueprints, expected) == Done
    ensures forall w {:trigger w.id} :: w in AllUpgraded(drafts, blueprints) ==> FollowsNamed(drafts, expected, w.id, w)
  {
    var ws := AllUpgraded(drafts, blueprints);
    ExpectationNamesAll(drafts, blueprints, expected);
    forall w | w in ws ensures FollowsNamed(drafts, expected, w.id, w) {
      var i :| 0 <= i < |ws| && ws[i] == w;
      assert blueprints[i] in blueprints;
    }
  }

  /** Every draft is the same or follows the one its caller named; none is new and none is gone. */
  ghost predicate OnlyNamed(drafts: map<string, Workflow>, after: map<string, Workflow>, expected: map<string, int>) {
    && after.Keys == drafts.Keys
    && forall id {:trigger id in after} :: id in after && after[id] != drafts[id] ==> FollowsNamed(drafts, expected, id, after[id])
  }

  lemma PutNamed(drafts: map<string, Workflow>, blueprints: seq<Workflow>, expected: map<string, int>)
    requires AllStored(drafts, blueprints) && Expectation(drafts, blueprints, expected) == Done
    ensures OnlyNamed(drafts, PutAll(drafts, AllUpgraded(drafts, blueprints)), expected)
  {
    var ws := AllUpgraded(drafts, blueprints);
    UpgradedAreNamed(drafts, blueprints, expected);
    PutAllEffect(drafts, ws);
    var after := PutAll(drafts, ws);
    forall id | id in after ensures id in drafts && (after[id] != drafts[id] ==> FollowsNamed(drafts, expected, id, after[id])) {
    }
  }

  /**
   An import writes only drafts its caller named at their present revision, each to the next revision
   and without touching what is published; a refused or repeated import changes nothing.
   */
  lemma ImportWritesWhatItNamed(pack: Pack, s: Store, rawKey: string, expected: map<string, int>)
    ensures Import(pack, s, rawKey, expected).1 == Done ==>
              var after, key := Import(pack, s, rawKey, expected).0, Trim(rawKey);
              && after.versions == s.versions && key !in s.imports && after.imports == s.imports[key := expected]
              && OnlyNamed(s.drafts, after.drafts, expected)
    ensures Import(pack, s, rawKey, expected).1 != Done ==> Import(pack, s, rawKey, expected).0 == s
  {
    var key := Trim(rawKey);
    var ended := Ended(pack, s, key, expected);
    EndedIsNotDone(pack, s, key, expected);
    if ended.None? {
      PutNamed(s.drafts, Blueprints(pack), expected);
    }
  }

  lemma EndedIsNotDone(pack: Pack, s: Store, key: string, expected: map<string, int>)
    ensures Ended(pack, s, key, expected) != Some(Done)
  {
  }

  // ---- revisions

  /** Every draft is still there, at no lower revision. */
  ghost predicate NotFallen(s: Store, after: Store) {
    forall id {:trigger id in s.drafts} :: id in s.drafts ==> id in after.drafts && s.drafts[id].draftRevision <= after.drafts[id].draftRevision
  }

  /** The snapshot holds every declared draft that is stored. */
  ghost predicate CoversDrafts(pack: Pack, s: Store, snapshot: seq<Workflow>) {
    forall id :: id in pack.active && id in s.drafts ==> id in Ids(snapshot)
  }

  /** What rolling back does to one stored draft: a declared one survives exactly in a version that holds it. */
  lemma RollbackOfDraft(pack: Pack, s: Store, version: string, id: string)
    requires Snapshot(s.versions, version).Some? && id in s.drafts
    ensures var after := Rollback(pack, s, version).0.drafts;
      && (id in after <==> id !in pack.active || id in Ids(Snapshot(s.versions, version).value))
      && (id in after ==> after[id].draftRevision == s.drafts[id].draftRevision + (if id in pack.active then 1 else 0))
  {
    var snapshot, name := Snapshot(s.versions, version).value, NextVersion(pack, s.versions);
    var ws := Restored(pack.active, s.drafts, snapshot, name);
    RestoredElements(pack.active, s.drafts, snapshot, name);
    RestoredIds(pack.active, s.drafts, snapshot, name);
    PutAllEffect(Without(s.drafts, pack.active), ws);
    if id in pack.active && id in Ids(ws) {
      var w :| w in ws && w.id == id;
    }
  }

  /** Rolling back loses no draft and lowers no revision exactly if the version covers the drafts. */
  lemma RollbackFallsUnlessCovered(pack: Pack, s: Store, version: string)
    requires Snapshot(s.versions, version).Some?
    ensures NotFallen(s, Rollback(pack, s, version).0) <==> CoversDrafts(pack, s, Snapshot(s.versions, version).value)
  {
    forall id | id in s.drafts
      ensures var after := Rollback(pack, s, version).0.drafts;
        && (id in after <==> id !in pack.active || id in Ids(Snapshot(s.versions, version).value))
        && (id in after ==> after[id].draftRevision >= s.drafts[id].draftRevision)
    {
      RollbackOfDraft(pack, s, version, id);
    }
  }

  /** Drafts are stored under their ids. */
  ghost predicate Keyed(s: Store) {
    forall id {:trigger s.drafts[id]} :: id in s.drafts ==> s.drafts[id].id == id
  }

  /** All the drafts of `s0` are in `s` and in every version of it that a rollback could restore. */
  ghost predicate Holds(pack: Pack, s0: Store, s: Store) {
    && Keyed(s) && NotFallen(s0, s)
    && forall i {:trigger s.versions[i]} :: 0 <= i < |s.versions| ==> CoversDrafts(pack, s0, s.versions[i].snapshot)
  }

  lemma NewVersionHolds(pack: Pack, s0: Store, s: Store, after: Store, snapshot: seq<Workflow>)
    requires Holds(pack, s0, s) && Keyed(after) && NotFallen(s0, after) && CoversDrafts(pack, s0, snapshot)
    requires exists name :: after.versions == Cleared(s.versions) + [Version(name, true, snapshot)]
    ensures Holds(pack, s0, after)
  {
    forall i | 0 <= i < |after.versions| ensures CoversDrafts(pack, s0, after.versions[i].snapshot) {
      if i < |s.versions| {
        assert after.versions[i].snapshot == s.versions[i].snapshot;
      }
    }
  }

  lemma PublishedElements(active: seq<string>, s: Store, name: string)
    requires Keyed(s)
    ensures var ws := Published(Listed(active, s.drafts), name);
      && (forall w :: w in ws ==> w.id in s.drafts && w.draftRevision == s.drafts[w.id].draftRevision)
      && (forall id :: id in active && id in s.drafts ==> id in Ids(ws))
  {
    var listed := Listed(active, s.drafts);
    var ws := Published(listed, name);
    ListedElements(active, s.drafts);
    forall w | w in ws ensures w.id in s.drafts && w.draftRevision == s.drafts[w.id].draftRevision {
      var i :| 0 <= i < |ws| && ws[i] == w;
      assert listed[i] in listed;
    }
    forall id | id in active && id in s.drafts ensures id in Ids(ws) {
      var i :| 0 <= i < |listed| && listed[i] == s.drafts[id];
      assert ws[i] in ws && ws[i].id == id;
    }
  }

  lemma PublishHolds(pack: Pack, s0: Store, s: Store)
    requires Holds(pack, s0, s)
    ensures Holds(pack, s0, Publish(pack, s))
  {
    var listed, name := Listed(pack.active, s.drafts), NextVersion(pack, s.versions);
    var ws, after := Published(listed, name), Publish(pack, s);
    PutAllEffect(s.drafts, ws);
    PublishedElements(pack.active, s, name);
    assert after.versions == Cleared(s.versions) + [Version(name, true, ws)];
    NewVersionHolds(pack, s0, s, after, ws);
  }

  lemma RollbackHolds(pack: Pack, s0: Store, s: Store, version: string)
    requires Holds(pack, s0, s)
    ensures Holds(pack, s0, Rollback(pack, s, version).0)
  {
    if Snapshot(s.versions, version).Some? {
      var snapshot, name := Snapshot(s.versions, version).value, NextVersion(pack, s.versions);
      var ws, after := Restored(pack.active, s.drafts, snapshot, name), Rollback(pack, s, version).0;
      SnapshotIsStored(s.versions, version);
      RestoredIds(pack.active, s.drafts, snapshot, name);
      PutAllEffect(Without(s.drafts, pack.active), ws);
      forall id | id in s0.drafts ensures id in after.drafts && s0.drafts[id].draftRevision <= after.drafts[id].draftRevision {
        assert id in s.drafts;
        RollbackOfDraft(pack, s, version, id);
      }
      assert after.versions == Cleared(s.versions) + [Version(name, true, ws)];
      NewVersionHolds(pack, s0, s, after, ws);
    }
  }

  lemma SeedHolds(pack: Pack, s0: Store, s: Store)
    requires Holds(pack, s0, s) && s.versions != []
    ensures Holds(pack, s0, Seed(pack, s))
  {
    var missing := Chosen(pack.defaults, s.drafts.Keys, false);
    ChosenElements(pack.defaults, s.drafts.Keys, false);
    PutAllEffect(s.drafts, missing);
  }

  lemma ImportHolds(pack: Pack, s0: Store, s: Store, key: string, revisions: map<string, int>)
    requires Holds(pack, s0, s)
    ensures Holds(pack, s0, Import(pack, s, key, revisions).0)
  {
    ImportWritesWhatItNamed(pack, s, key, revisions);
    if Import(pack, s, key, revisions).1 == Done {
      PutAllEffect(s.drafts, AllUpgraded(s.drafts, Blueprints(pack)));
    }
  }

  lemma SaveHolds(pack: Pack, s0: Store, s: Store, id: string, expected: Option<int>, p: Patch)
    requires Holds(pack, s0, s)
    ensures Holds(pack, s0, Save(s, id, expected, p).0)
  {
  }

  lemma UpgradeIsASave(s: Store, id: string, expected: Option<int>)
    ensures UpgradeInvoiceMatch(s, id, expected).0 == s
         || exists p :: UpgradeInvoiceMatch(s, id, expected) == Save(s, id, expected, p)
  {
    if id in s.drafts && UpgradePlan(s.drafts[id]).Eligible? {
      var w := UpgradePlan(s.drafts[id]).upgraded;
      assert UpgradeInvoiceMatch(s, id, expected) == Save(s, id, expected, WholeOf(w));
    }
  }

  lemma StepHolds(pack: Pack, s0: Store, s: Store, op: Op)
    requires Holds(pack, s0, s) && s.versions != []
    ensures Holds(pack, s0, Apply(pack, s, op)) && Apply(pack, s, op).versions != []
  {
    match op {
      case SeedOp => SeedHolds(pack, s0, s);
      case SaveOp(id, expected, patch) => SaveHolds(pack, s0, s, id, expected, patch);
      case UpgradeOp(id, expected) =>
        UpgradeIsASave(s, id, expected);
        if UpgradeInvoiceMatch(s, id, expected).0 != s {
          var p :| UpgradeInvoiceMatch(s, id, expected) == Save(s, id, expected, p);
          SaveHolds(pack, s0, s, id, expected, p);
        }
      case PublishOp => PublishHolds(pack, s0, s);
      case RollbackOp(version) => RollbackHolds(pack, s0, s, version);
      case ImportOp(key, revisions) =>
        ImportHolds(pack, s0, s, key, revisions);
        ImportWritesWhatItNamed(pack, s, key, revisions);
    }
  }

  lemma {:induction false} RunHolds(pack: Pack, s: Store, ops: seq<Op>)
    requires Holds(pack, s, s) && s.versions != []
    ensures Holds(pack, s, Run(pack, s, ops)) && Run(pack, s, ops).versions != []
  {
    if ops != [] {
      RunHolds(pack, s, ops[..|ops| - 1]);
      StepHolds(pack, s, Run(pack, s, ops[..|ops| - 1]), ops[|ops| - 1]);
    }
  }

  lemma {:induction false} SnapshotOf(versions: seq<Version>, i: nat)
    requires DistinctNames(versions) && i < |versions|
    ensures Snapshot(versions, versions[i].name) == Some(versions[i].snapshot)
  {
    if i > 0 {
      assert versions[0].name != versions[i].name;
      SnapshotOf(versions[1..], i - 1);
    }
  }

  /** Over every run no draft of `s` is lost and none falls to a lower revision. */
  ghost predicate NeverFalls(pack: Pack, s: Store) {
    forall ops :: NotFallen(s, Run(pack, s, ops))
  }

  /** This holds exactly if every stored version has all the declared drafts that are stored. */
  lemma RevisionsNeverFall(pack: Pack, s: Store)
    requires Inv(s)
    ensures NeverFalls(pack, s) <==> forall i :: 0 <= i < |s.versions| ==> CoversDrafts(pack, s, s.versions[i].snapshot)
  {
    if forall i :: 0 <= i < |s.versions| ==> CoversDrafts(pack, s, s.versions[i].snapshot) {
      forall ops ensures NotFallen(s, Run(pack, s, ops)) {
        RunHolds(pack, s, ops);
      }
    } else {
      var i :| 0 <= i < |s.versions| && !CoversDrafts(pack, s, s.versions[i].snapshot);
      UncoveredFalls(pack, s, i);
    }
  }

  lemma UncoveredFalls(pack: Pack, s: Store, i: nat)
    requires DistinctNames(s.versions) && i < |s.versions| && !CoversDrafts(pack, s, s.versions[i].snapshot)
    ensures !NeverFalls(pack, s)
  {
    var back := RollbackOp(s.versions[i].name);
    SnapshotOf(s.versions, i);
    RollbackFallsUnlessCovered(pack, s, s.versions[i].name);
    RunOne(pack, s, back);
    assert !NotFallen(s, Run(pack, s, [back]));
  }

  lemma RunOne(pack: Pack, s: Store, op: Op)
    ensures Run(pack, s, [op]) == Apply(pack, s, op)
  {
    assert [op][..0] == [];
    assert Run(pack, s, []) == s;
  }

  // ---- the upgrade through the store

  lemma TrimShortens(s: string)
    ensures |Trim(s)| <= |s|
  {
    TrimLeftShortens(s);
    TrimRightShortens(TrimLeft(s));
  }

  lemma TrimLeftShortens(s: string)
    ensures |TrimLeft(s)| <= |s|
  {
  }

  lemma TrimRightShortens(s: string)
    ensures |TrimRight(s)| <= |s|
  {
  }

  /** A save trims the name, so it can only refuse a name of blanks; nothing else of a whole draft changes. */
  lemma SavedWholeIsValid(w: Workflow, up: Workflow)
    requires 1 <= |up.name| <= 80
    ensures ValidWorkflow(Patched(w, WholeOf(up))) <==> ValidWorkflow(up) && Trim(up.name) != ""
  {
    TrimShortens(up.name);
    var saved := Patched(w, WholeOf(up));
    if ValidWorkflow(saved) {
      SameWorkflow(saved, up);
    }
    if ValidWorkflow(up) && Trim(up.name) != "" {
      SameWorkflow(up, saved);
    }
  }

  /**
   Upgrading an eligible stored draft succeeds exactly for the present revision, a draft with room for
   five more nodes and a name that is not blank, and then there is nothing left to upgrade.
   */
  lemma UpgradeThroughStore(s: Store, id: string, expected: Option<int>)
    requires Inv(s) && id in s.drafts && UpgradePlan(s.drafts[id]).Eligible?
    ensures var (after, r) := UpgradeInvoiceMatch(s, id, expected);
            && (r == Done <==> expected == Some(s.drafts[id].draftRevision) && |s.drafts[id].nodes| <= 195 && Trim(s.drafts[id].name) != "")
            && (r == Done ==> id in after.drafts && UpgradePlan(after.drafts[id]) == Plan.AlreadyCurrent)
  {
    var w := s.drafts[id];
    var up := UpgradePlan(w).upgraded;
    assert Sound(w);
    SavedUpgrade(w);
  }

  lemma SavedUpgrade(w: Workflow)
    requires ValidWorkflow(w) && UpgradePlan(w).Eligible?
    ensures var saved := Patched(w, WholeOf(UpgradePlan(w).upgraded));
      && (ValidWorkflow(saved) <==> |w.nodes| <= 195 && Trim(w.name) != "")
      && UpgradePlan(saved) == Plan.AlreadyCurrent
  {
    var up := UpgradePlan(w).upgraded;
    UpgradeKeepsValid(w);
    UpgradeIsDone(w);
    assert up.name == w.name && up.id == w.id by {
      UpgradeLeavesTheRest(w);
    }
    SavedWholeIsValid(w, up);
    PlanReadsNodes(up, Patched(w, WholeOf(up)));
  }

  lemma PlanReadsNodes(a: Workflow, b: Workflow)
    requires a.id == b.id && a.nodes == b.nodes
    ensures UpgradePlan(a) == Plan.AlreadyCurrent <==> UpgradePlan(b) == Plan.AlreadyCurrent
  {
  }

  // ---- a rollback that loses a draft

  /** A default draft as `seed` stores it, and the same one published under a version. */
  function Small(id: string, version: string): Workflow {
    Workflow(id, "w", "", [Node("n", "trigger", "start", "", None)], [], 1, 1, version)
  }

  lemma SmallIsValid(id: string, version: string)
    ensures Sound(Small(id, version))
  {
    assert KINDS == {"trigger", "router", "ai", "logic", "tool", "approval", "action"};
    RankedIsAcyclic([], (x: string) => 0);
    assert NodeIds(Small(id, version).nodes) == ["n"];
  }

  /** A pack that declares one workflow, and the same pack once it has gained a second one. */
  const ONE := Pack(["a"], [Small("a", "v")], 1, 0, 0)
  const TWO := Pack(["a", "b"], [Small("a", "v"), Small("b", "v")], 1, 0, 0)

  function FirstStart(): Store {
    Seed(ONE, Store(map[], [], map[]))
  }

  lemma FirstStartIs(name: string)
    requires name == Prefix(ONE) + Decimal(ONE.patch)
    ensures FirstStart() == Store(map["a" := Small("a", "v")], [Version(name, true, [Small("a", "v")])], map[])
  {
    var a := Small("a", "v");
    assert Chosen([a], {}, false) == [a];
    assert PutAll(map[], [a]) == map["a" := a];
    assert Listed(["a"], map["a" := a]) == [a];
  }

  lemma RunTwo(pack: Pack, s: Store, first: Op, second: Op)
    ensures Run(pack, s, [first, second]) == Apply(pack, Apply(pack, s, first), second)
  {
    RunOne(pack, s, first);
    assert [first, second][..1] == [first];
  }

  /** The store after the second workflow was added and published. */
  function BothPublished(v1: string, v2: string): Store {
    Store(map["a" := Small("a", v2), "b" := Small("b", v2)],
          [Version(v1, false, [Small("a", "v")]), Version(v2, true, [Small("a", v2), Small("b", v2)])], map[])
  }

  /** The store after the second start, before anything is published. */
  function BothStarted(v1: string): Store {
    Store(map["a" := Small("a", "v"), "b" := Small("b", "v")], [Version(v1, true, [Small("a", "v")])], map[])
  }

  lemma BothStartedIs(v1: string)
    requires v1 == Prefix(ONE) + Decimal(ONE.patch)
    ensures Seed(TWO, FirstStart()) == BothStarted(v1)
  {
    FirstStartIs(v1);
    var a, b := Small("a", "v"), Small("b", "v");
    var s0 := FirstStart();
    assert s0.drafts.Keys == {"a"};
    assert Chosen([a, b], {"a"}, false) == [b] by {
      assert [a, b][..1] == [a];
      assert Chosen([a], {"a"}, false) == [];
    }
    assert PutAll(s0.drafts, [b]) == map["a" := a, "b" := b];
  }

  lemma BothPublishedIs(v1: string, v2: string)
    requires v2 == NextVersion(TWO, BothStarted(v1).versions)
    ensures Publish(TWO, BothStarted(v1)) == BothPublished(v1, v2)
  {
    var s, a, b := BothStarted(v1), Small("a", "v"), Small("b", "v");
    assert Listed(["a", "b"], s.drafts) == [a, b] by {
      assert ["a", "b"][..1] == ["a"];
      assert Listed(["a"], s.drafts) == [a];
    }
    var ws := Published([a, b], v2);
    assert ws == [Small("a", v2), Small("b", v2)];
    assert PutAll(s.drafts, ws) == map["a" := Small("a", v2), "b" := Small("b", v2)] by {
      assert ws[..1] == [Small("a", v2)];
      assert PutAll(s.drafts, ws[..1]) == map["a" := Small("a", v2), "b" := b];
    }
  }

  lemma StartAndPublish(v1: string, v2: string)
    requires v1 == Prefix(ONE) + Decimal(ONE.patch) && v2 == NextVersion(TWO, BothStarted(v1).versions)
    ensures Run(TWO, FirstStart(), [SeedOp, PublishOp]) == BothPublished(v1, v2)
  {
    BothStartedIs(v1);
    BothPublishedIs(v1, v2);
    RunTwo(TWO, FirstStart(), SeedOp, PublishOp);
  }

  /** Saves that change nothing but the revision. */
  lemma SavedTwice(s: Store, save1: Op, save2: Op)
    requires "b" in s.drafts && Sound(s.drafts["b"]) && s.drafts["b"].draftRevision == 1 && s.drafts["b"].name == "w"
    requires save1 == SaveOp("b", Some(1), Patch(None, None, None, None)) && save2 == SaveOp("b", Some(2), Patch(None, None, None, None))
    ensures var after := Run(TWO, s, [save1, save2]);
            after.versions == s.versions && after.drafts.Keys == s.drafts.Keys && after.drafts["b"].draftRevision == 3
  {
    var w := s.drafts["b"];
    TrimTrimmed("w");
    SameWorkflow(w, Patched(w, save1.patch));
    SameWorkflow(w, Patched(Patched(w, save1.patch), save2.patch));
    RunTwo(TWO, s, save1, save2);
  }

  lemma BroughtBack(s: Store, snapshot: seq<Workflow>, version: string)
    requires Snapshot(s.versions, version) == Some(snapshot) && "b" !in s.drafts
    requires snapshot != [] && snapshot[|snapshot| - 1] == Small("b", version)
    ensures var after := Rollback(TWO, s, version).0.drafts; "b" in after && after["b"].draftRevision == 2
  {
    var ws := Restored(TWO.active, s.drafts, snapshot, NextVersion(TWO, s.versions));
    assert ws[|ws| - 1].id == "b" && ws[|ws| - 1].draftRevision == 2;
  }

  /** A rollback to a version without the draft, then to one that has it: the draft is as that version had it, plus one. */
  lemma RolledBackTwice(s: Store, v1: string, v2: string)
    requires s.versions == BothPublished(v1, v2).versions && s.drafts.Keys == {"a", "b"} && v1 != v2
    ensures var after := Run(TWO, s, [RollbackOp(v1), RollbackOp(v2)]);
            "b" in after.drafts && after.drafts["b"].draftRevision == 2
  {
    var s1 := Rollback(TWO, s, v1).0;
    assert Snapshot(s.versions, v1) == Some([Small("a", "v")]);
    RollbackOfDraft(TWO, s, v1, "b");
    assert Ids([Small("a", "v")]) == {"a"};
    assert s1.versions[1] == Version(v2, false, [Small("a", v2), Small("b", v2)]);
    assert s1.versions[0].name == v1 && s1.versions[1..][0].name == v2;
    assert Snapshot(s1.versions, v2) == Some([Small("a", v2), Small("b", v2)]) by {
      assert Snapshot(s1.versions[1..], v2) == Some([Small("a", v2), Small("b", v2)]);
    }
    BroughtBack(s1, [Small("a", v2), Small("b", v2)], v2);
    RunTwo(TWO, s, RollbackOp(v1), RollbackOp(v2));
  }

  /**
   Publishing before and after a pack gains a workflow leaves a version without it. Rolling back to that
   version and then to the later one brings the draft back at revision 2, from revision 3.
   */
  lemma RevisionFallsWithoutCover() returns (before: seq<Op>, saves: seq<Op>, falls: seq<Op>)
    ensures Inv(FirstStart()) && SoundSnapshot(TWO.defaults)
    ensures var s := Run(TWO, Run(TWO, FirstStart(), before), saves);
            var after := Run(TWO, s, falls);
            && "b" in s.drafts && s.drafts["b"].draftRevision == 3
            && "b" in after.drafts && after.drafts["b"].draftRevision == 2
  {
    var v1 := Prefix(ONE) + Decimal(ONE.patch);
    var v2 := NextVersion(TWO, BothStarted(v1).versions);
    FirstStartIsSound();
    StartAndPublish(v1, v2);
    VersionsDiffer(v1, v2);
    SmallIsValid("b", v2);
    before, falls := [SeedOp, PublishOp], [RollbackOp(v1), RollbackOp(v2)];
    var save1, save2 := SaveOp("b", Some(1), Patch(None, None, None, None)), SaveOp("b", Some(2), Patch(None, None, None, None));
    saves := [save1, save2];
    SavedTwice(BothPublished(v1, v2), save1, save2);
    RolledBackTwice(Run(TWO, BothPublished(v1, v2), saves), v1, v2);
  }

  lemma FirstStartIsSound()
    ensures Inv(FirstStart()) && SoundSnapshot(TWO.defaults)
  {
    SmallIsValid("a", "v");
    SmallIsValid("b", "v");
    SeedKeeps(ONE, Store(map[], [], map[]));
  }

  lemma VersionsDiffer(v1: string, v2: string)
    requires v2 == NextVersion(TWO, BothStarted(v1).versions)
    ensures v1 != v2
  {
    NextVersionIsUnused(TWO, BothStarted(v1).versions);
    assert BothStarted(v1).versions[0] in BothStarted(v1).versions;
  }
}
