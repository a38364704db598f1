/** The upgrade of old invoice-match drafts. */
module InvoiceMatchUpgrade {
  // The one node that compared totals becomes a node that compares lines, and its outgoing edges are
  // replaced by approval, payable, ERP and exception branches.

  import opened Basics
  import opened Graph
  import opened Decimals
  import opened WorkflowValidation

  const LEGACY := "ai.three_way_match"
  const LINE_MATCH := "business.procurement_line_match"

  datatype Plan = NotApplicable | AlreadyCurrent | Eligible(legacy: Node, upgraded: Workflow)

  datatype Ids = Ids(lineMatch: string, approval: string, payable: string, erpWrite: string, exception: string, notification: string)

  function OfType(nodes: seq<Node>, nodeType: string): seq<Node> {
    if nodes == [] then []
    else
      var front, last := OfType(nodes[..|nodes| - 1], nodeType), nodes[|nodes| - 1];
      if last.nodeType == nodeType then front + [last] else front
  }

  /** `edges.filter(edge => edge.from !== id)` */
  function NotFrom(edges: seq<Edge>, id: string): seq<Edge> {
    if edges == [] then []
    else
      var front, last := NotFrom(edges[..|edges| - 1], id), edges[|edges| - 1];
      if last.from != id then front + [last] else front
  }

  ghost function NewIds(w: Workflow, legacy: Node): Ids {
    var used := set x | x in NodeIds(w.nodes);
    Ids(legacy.id,
        NextAvailable(used, "upgrade:finance-approval"),
        NextAvailable(used, "upgrade:payable"),
        NextAvailable(used, "upgrade:erp-pay"),
        NextAvailable(used, "upgrade:exception"),
        NextAvailable(used, "n:inv"))
  }

  /** The notification node is always added: its id has just been chosen because no node has it. */
  function AddedNodes(ids: Ids): seq<Node> {
    [ Node(ids.approval, "approval", "finance approval", "human.approval", None),
      Node(ids.payable, "action", "payable review", "business.action", None),
      Node(ids.erpWrite, "tool", "ERP payable write-back", "connector.erp.action", None),
      Node(ids.exception, "action", "match exception handling", "business.action", None),
      Node(ids.notification, "action", "result notification", "business.action", None) ]
  }

  function Links(ids: Ids): seq<(string, string, string)> {
    [ (ids.lineMatch, ids.payable, "exact match"),
      (ids.lineMatch, ids.payable, "within tolerance"),
      (ids.lineMatch, ids.approval, "approval required"),
      (ids.approval, ids.payable, "resume after approval"),
      (ids.lineMatch, ids.exception, "severe exception"),
      (ids.payable, ids.erpWrite, ""),
      (ids.erpWrite, ids.notification, ""),
      (ids.exception, ids.notification, "") ]
  }

  ghost function EdgeName(used: set<string>, i: nat): string {
    NextAvailable(used, "upgrade:edge:" + Decimal(i + 1))
  }

  ghost function AddedEdges(edges: seq<Edge>, ids: Ids): seq<Edge> {
    var used := set e: Edge | e in edges && e.id != "" :: e.id;
    seq(8, i requires 0 <= i < 8 => Edge(EdgeName(used, i), Links(ids)[i].0, Links(ids)[i].1, Links(ids)[i].2))
  }

  /** The replacement keeps the id and the position. */
  function LineMatchNode(legacy: Node): Node {
    Node(legacy.id, "action", "line-level three-way match", LINE_MATCH, legacy.position)
  }

  function ReplaceNode(nodes: seq<Node>, legacy: Node): seq<Node> {
    seq(|nodes|, i requires 0 <= i < |nodes| => if nodes[i].id == legacy.id then LineMatchNode(legacy) else nodes[i])
  }

  ghost function Upgrade(w: Workflow, legacy: Node): Workflow {
    w.(nodes := ReplaceNode(w.nodes, legacy) + AddedNodes(NewIds(w, legacy)),
       edges := NotFrom(w.edges, legacy.id) + AddedEdges(w.edges, NewIds(w, legacy)))
  }

  ghost function UpgradePlan(w: Workflow): Plan {
    var legacy, current := OfType(w.nodes, LEGACY), OfType(w.nodes, LINE_MATCH);
    if w.id != "invoice-match" then NotApplicable
    else if legacy == [] then (if current != [] then AlreadyCurrent else NotApplicable)
    else if |legacy| != 1 || current != [] then NotApplicable
    else Eligible(legacy[0], Upgrade(w, legacy[0]))
  }

  // ---- small facts about the pieces

  lemma OfTypeElements(nodes: seq<Node>, nodeType: string)
    ensures forall n :: n in OfType(nodes, nodeType) <==> n in nodes && n.nodeType == nodeType
  {
    if nodes != [] {
      OfTypeElements(nodes[..|nodes| - 1], nodeType);
      assert nodes == nodes[..|nodes| - 1] + [nodes[|nodes| - 1]];
    }
  }

  lemma NoneOfType(nodes: seq<Node>, nodeType: string)
    requires forall n :: n in nodes ==> n.nodeType != nodeType
    ensures OfType(nodes, nodeType) == []
  {
  }

  lemma NotFromElements(edges: seq<Edge>, id: string)
    ensures forall e :: e in NotFrom(edges, id) <==> e in edges && e.from != id
  {
    if edges != [] {
      NotFromElements(edges[..|edges| - 1], id);
      assert edges == edges[..|edges| - 1] + [edges[|edges| - 1]];
    }
  }

  lemma {:induction false} NotFromDistinct(edges: seq<Edge>, id: string)
    requires DistinctEdgeIds(edges)
    ensures DistinctEdgeIds(NotFrom(edges, id))
  {
    if edges != [] {
      var front, last := edges[..|edges| - 1], edges[|edges| - 1];
      NotFromDistinct(front, id);
      NotFromElements(front, id);
      var kept := NotFrom(front, id);
      forall k | 0 <= k < |kept| && kept[k].id != "" ensures kept[k].id != last.id {
        assert kept[k] in kept;
        var i :| 0 <= i < |front| && front[i] == kept[k];
        assert edges[i].id != edges[|front|].id;
      }
    }
  }

  /** Two names built on prefixes that differ at a place differ. */
  lemma PrefixesDiffer(a: string, b: string, x: string, y: string, k: nat)
    requires a <= x && b <= y && k < |a| && k < |b| && a[k] != b[k]
    ensures x != y
  {
    assert x[k] == a[k] && y[k] == b[k];
  }

  lemma NewIdsFresh(w: Workflow, legacy: Node)
    requires legacy in w.nodes
    ensures var ids := NewIds(w, legacy);
            && Distinct([ids.approval, ids.payable, ids.erpWrite, ids.exception, ids.notification])
            && forall x :: x in NodeIds(w.nodes) ==> x !in NewNames(ids)
  {
    var ids := NewIds(w, legacy);
    var a, p, e, x, n := "upgrade:finance-approval", "upgrade:payable", "upgrade:erp-pay", "upgrade:exception", "n:inv";
    PrefixesDiffer(a, p, ids.approval, ids.payable, 8);
    PrefixesDiffer(a, e, ids.approval, ids.erpWrite, 8);
    PrefixesDiffer(a, x, ids.approval, ids.exception, 8);
    PrefixesDiffer(a, n, ids.approval, ids.notification, 0);
    PrefixesDiffer(p, e, ids.payable, ids.erpWrite, 8);
    PrefixesDiffer(p, x, ids.payable, ids.exception, 8);
    PrefixesDiffer(p, n, ids.payable, ids.notification, 0);
    PrefixesDiffer(e, x, ids.erpWrite, ids.exception, 9);
    PrefixesDiffer(e, n, ids.erpWrite, ids.notification, 0);
    PrefixesDiffer(x, n, ids.exception, ids.notification, 0);
  }

  function NewNames(ids: Ids): set<string> {
    {ids.approval, ids.payable, ids.erpWrite, ids.exception, ids.notification}
  }

  lemma EdgeNamesDiffer(used: set<string>, i: nat, j: nat)
    requires i < j < 8
    ensures EdgeName(used, i) != EdgeName(used, j)
  {
    var a, b := "upgrade:edge:" + Decimal(i + 1), "upgrade:edge:" + Decimal(j + 1);
    assert a[13] == Digit(i + 1) && b[13] == Digit(j + 1);
    PrefixesDiffer(a, b, EdgeName(used, i), EdgeName(used, j), 13);
  }

  lemma EdgeNameUnused(used: set<string>, i: nat)
    ensures EdgeName(used, i) !in used && EdgeName(used, i) != ""
  {
    assert EdgeName(used, i)[0] == 'u';
  }

  // ---- the upgraded workflow

  lemma UpgradedNodes(w: Workflow, legacy: Node)
    requires ValidWorkflow(w) && legacy in w.nodes
    ensures var up := Upgrade(w, legacy);
            && |up.nodes| == |w.nodes| + 5
            && Distinct(NodeIds(up.nodes))
            && (forall n :: n in up.nodes ==> NodeOk(n) && PositionOk(n.position))
            && forall x :: x in NodeIds(up.nodes) <==> x in NodeIds(w.nodes) || x in NewNames(NewIds(w, legacy))
  {
    var up, ids := Upgrade(w, legacy), NewIds(w, legacy);
    var added := [ids.approval, ids.payable, ids.erpWrite, ids.exception, ids.notification];
    NewIdsFresh(w, legacy);
    assert NodeIds(up.nodes) == NodeIds(w.nodes) + added;
    assert forall x :: x in added <==> x in NewNames(ids);
    DistinctAppend(NodeIds(w.nodes), added);
  }

  lemma DistinctAppend(a: seq<string>, b: seq<string>)
    requires Distinct(a) && Distinct(b) && forall x :: x in a ==> x !in b
    ensures Distinct(a + b)
  {
    var c := a + b;
    forall i, j | 0 <= i < j < |c| ensures c[i] != c[j] {
      if i < |a| <= j {
        assert c[i] in a && c[j] in b;
      }
    }
  }

  lemma UpgradedEdgesAttached(w: Workflow, legacy: Node)
    requires ValidWorkflow(w) && legacy in w.nodes
    ensures EdgesAttached(Upgrade(w, legacy).nodes, Upgrade(w, legacy).edges)
  {
    var up, ids := Upgrade(w, legacy), NewIds(w, legacy);
    UpgradedNodes(w, legacy);
    NewIdsFresh(w, legacy);
    NotFromElements(w.edges, legacy.id);
    LegacyIsANode(w, legacy);
    forall e | e in up.edges ensures e.from in NodeIds(up.nodes) && e.to in NodeIds(up.nodes) && e.from != e.to {
      if e in AddedEdges(w.edges, ids) {
        AddedEdgeShape(w.edges, ids, e);
      } else {
        assert e in NotFrom(w.edges, legacy.id);
      }
    }
  }

  lemma LegacyIsANode(w: Workflow, legacy: Node)
    requires legacy in w.nodes
    ensures legacy.id in NodeIds(w.nodes)
  {
    var k :| 0 <= k < |w.nodes| && w.nodes[k] == legacy;
    assert NodeIds(w.nodes)[k] == legacy.id;
  }

  function Level(ids: Ids, x: string): int {
    if x == ids.approval then 0
    else if x == ids.payable || x == ids.exception then 1
    else if x == ids.erpWrite then 2
    else 3
  }

  /** An added edge leads into a new node, and from a new node only onward. */
  lemma AddedEdgeShape(edges: seq<Edge>, ids: Ids, e: Edge)
    requires e in AddedEdges(edges, ids)
    requires Distinct([ids.approval, ids.payable, ids.erpWrite, ids.exception, ids.notification])
    requires ids.lineMatch !in NewNames(ids)
    ensures e.to in NewNames(ids) && e.from != e.to
    ensures e.from == ids.lineMatch || (e.from in NewNames(ids) && Level(ids, e.from) < Level(ids, e.to))
  {
    var names := [ids.approval, ids.payable, ids.erpWrite, ids.exception, ids.notification];
    assert names[0] != names[1] && names[0] != names[2] && names[0] != names[3] && names[0] != names[4];
    assert names[1] != names[2] && names[1] != names[3] && names[1] != names[4];
    assert names[2] != names[3] && names[2] != names[4] && names[3] != names[4];
    var i :| 0 <= i < 8 && AddedEdges(edges, ids)[i] == e;
    assert e.from == Links(ids)[i].0 && e.to == Links(ids)[i].1;
  }

  lemma UpgradedEdgeIds(w: Workflow, legacy: Node)
    requires ValidWorkflow(w)
    ensures DistinctEdgeIds(Upgrade(w, legacy).edges)
  {
    var kept, added := NotFrom(w.edges, legacy.id), AddedEdges(w.edges, NewIds(w, legacy));
    var used := set e: Edge | e in w.edges && e.id != "" :: e.id;
    NotFromElements(w.edges, legacy.id);
    NotFromDistinct(w.edges, legacy.id);
    var all: seq<Edge> := kept + added;
    forall i, j | 0 <= i < j < |all| && all[i].id != "" ensures all[i].id != all[j].id {
      if |kept| <= i {
        EdgeNamesDiffer(used, i - |kept|, j - |kept|);
      } else if |kept| <= j {
        assert kept[i] in kept;
        EdgeNameUnused(used, j - |kept|);
      }
    }
  }

  // ---- still acyclic

  /** A step of the upgraded graph: into new nodes and onward among them, or an old step. */
  lemma UpgradedStep(w: Workflow, legacy: Node, u: string, v: string)
    requires ValidWorkflow(w) && legacy in w.nodes
    requires Connects(Upgrade(w, legacy).edges, u, v)
    ensures var ids := NewIds(w, legacy);
            && (u in NewNames(ids) ==> v in NewNames(ids) && Level(ids, u) < Level(ids, v))
            && (v !in NewNames(ids) ==> Connects(w.edges, u, v))
  {
    var up, ids := Upgrade(w, legacy), NewIds(w, legacy);
    NewIdsFresh(w, legacy);
    LegacyIsANode(w, legacy);
    NotFromElements(w.edges, legacy.id);
    var k :| 0 <= k < |up.edges| && up.edges[k].from == u && up.edges[k].to == v;
    var e := up.edges[k];
    if k < |NotFrom(w.edges, legacy.id)| {
      assert e in NotFrom(w.edges, legacy.id);
      var i :| 0 <= i < |w.edges| && w.edges[i] == e;
      assert w.edges[i].from == u && w.edges[i].to == v;
    } else {
      assert e in AddedEdges(w.edges, ids);
      AddedEdgeShape(w.edges, ids, e);
    }
  }

  lemma UpgradedAcyclic(w: Workflow, legacy: Node)
    requires ValidWorkflow(w) && legacy in w.nodes
    ensures Acyclic(Upgrade(w, legacy).edges)
  {
    var up, ids := Upgrade(w, legacy), NewIds(w, legacy);
    var level: string -> int := x => Level(ids, x);
    forall u, v | Connects(up.edges, u, v)
      ensures u in NewNames(ids) ==> v in NewNames(ids) && level(u) < level(v)
      ensures v !in NewNames(ids) ==> Connects(w.edges, u, v)
    {
      UpgradedStep(w, legacy, u, v);
    }
    AcyclicWithSink(w.edges, up.edges, NewNames(ids), level);
  }

  // ---- the promises

  /** Upgrading a valid draft gives a valid draft exactly when it has room for five more nodes. */
  lemma UpgradeKeepsValid(w: Workflow)
    requires ValidWorkflow(w) && UpgradePlan(w).Eligible?
    ensures ValidWorkflow(UpgradePlan(w).upgraded) <==> |w.nodes| <= 195
  {
    var legacy := UpgradePlan(w).legacy;
    OfTypeElements(w.nodes, LEGACY);
    assert legacy in OfType(w.nodes, LEGACY);
    UpgradedNodes(w, legacy);
    UpgradedEdgesAttached(w, legacy);
    UpgradedEdgeIds(w, legacy);
    UpgradedAcyclic(w, legacy);
  }

  lemma ReplacedNodes(w: Workflow, legacy: Node)
    requires Distinct(NodeIds(w.nodes)) && legacy in w.nodes
    ensures forall i :: 0 <= i < |w.nodes| ==>
              Upgrade(w, legacy).nodes[i] == if w.nodes[i] == legacy then LineMatchNode(legacy) else w.nodes[i]
  {
    var l :| 0 <= l < |w.nodes| && w.nodes[l] == legacy;
    forall i | 0 <= i < |w.nodes| ensures w.nodes[i].id == legacy.id <==> w.nodes[i] == legacy {
      assert NodeIds(w.nodes)[i] == w.nodes[i].id && NodeIds(w.nodes)[l] == legacy.id;
    }
  }

  lemma AddedEdgesAreNew(w: Workflow, legacy: Node, e: Edge)
    requires ValidWorkflow(w) && legacy in w.nodes && e in AddedEdges(w.edges, NewIds(w, legacy))
    ensures e.to !in NodeIds(w.nodes) && e !in w.edges
  {
    NewIdsFresh(w, legacy);
    LegacyIsANode(w, legacy);
    AddedEdgeShape(w.edges, NewIds(w, legacy), e);
  }

  /** Every other node stays where it is, and of the old edges exactly those leaving the legacy node go. */
  lemma UpgradeLeavesTheRest(w: Workflow)
    requires ValidWorkflow(w) && UpgradePlan(w).Eligible?
    ensures var up, legacy := UpgradePlan(w).upgraded, UpgradePlan(w).legacy;
            && (forall i :: 0 <= i < |w.nodes| ==>
                  if w.nodes[i] == legacy then
                    up.nodes[i].id == legacy.id && up.nodes[i].position == legacy.position
                    && up.nodes[i].nodeType == "business.procurement_line_match"
                  else up.nodes[i] == w.nodes[i])
            && (forall e :: e in w.edges ==> (e in up.edges <==> e.from != legacy.id))
            && (forall e :: e in up.edges && e !in w.edges ==> e.to !in NodeIds(w.nodes))
            && up.(nodes := w.nodes, edges := w.edges) == w
  {
    var up, legacy := UpgradePlan(w).upgraded, UpgradePlan(w).legacy;
    OfTypeElements(w.nodes, LEGACY);
    assert legacy in OfType(w.nodes, LEGACY);
    ReplacedNodes(w, legacy);
    NotFromElements(w.edges, legacy.id);
    var kept, added := NotFrom(w.edges, legacy.id), AddedEdges(w.edges, NewIds(w, legacy));
    forall e | e in added ensures e.to !in NodeIds(w.nodes) && e !in w.edges {
      AddedEdgesAreNew(w, legacy, e);
    }
    assert forall e :: e in up.edges <==> e in kept || e in added;
  }

  lemma LegacyIsGone(w: Workflow, legacy: Node)
    requires OfType(w.nodes, LEGACY) == [legacy]
    ensures OfType(Upgrade(w, legacy).nodes, LEGACY) == []
  {
    var up := Upgrade(w, legacy);
    OfTypeElements(w.nodes, LEGACY);
    forall k | 0 <= k < |up.nodes| ensures up.nodes[k].nodeType != LEGACY {
      if k < |w.nodes| && w.nodes[k].nodeType == LEGACY {
        assert w.nodes[k] in OfType(w.nodes, LEGACY);
      }
    }
    NoneOfType(up.nodes, LEGACY);
  }

  lemma LineMatchIsThere(w: Workflow, legacy: Node)
    requires legacy in w.nodes
    ensures OfType(Upgrade(w, legacy).nodes, LINE_MATCH) != []
  {
    var up := Upgrade(w, legacy);
    var l :| 0 <= l < |w.nodes| && w.nodes[l] == legacy;
    OfTypeElements(up.nodes, LINE_MATCH);
    assert up.nodes[l] == LineMatchNode(legacy);
    assert up.nodes[l] in OfType(up.nodes, LINE_MATCH);
  }

  /** Planning on the result finds nothing left to do. */
  lemma UpgradeIsDone(w: Workflow)
    requires UpgradePlan(w).Eligible?
    ensures UpgradePlan(UpgradePlan(w).upgraded) == AlreadyCurrent
  {
    var legacy := UpgradePlan(w).legacy;
    OfTypeElements(w.nodes, LEGACY);
    assert legacy in OfType(w.nodes, LEGACY);
    LegacyIsGone(w, legacy);
    LineMatchIsThere(w, legacy);
  }

  /** Exactly one node has the type. */
  ghost predicate OnlyOne(nodes: seq<Node>, nodeType: string, i: nat) {
    i < |nodes| && forall j :: 0 <= j < |nodes| ==> (nodes[j].nodeType == nodeType <==> j == i)
  }

  ghost predicate NoNode(nodes: seq<Node>, nodeType: string) {
    forall j :: 0 <= j < |nodes| ==> nodes[j].nodeType != nodeType
  }

  lemma {:induction false} OneOfType(nodes: seq<Node>, nodeType: string)
    ensures OfType(nodes, nodeType) == [] <==> NoNode(nodes, nodeType)
    ensures |OfType(nodes, nodeType)| == 1 <==> exists i :: OnlyOne(nodes, nodeType, i)
  {
    if nodes != [] {
      var front, n := nodes[..|nodes| - 1], |nodes| - 1;
      OneOfType(front, nodeType);
      if nodes[n].nodeType == nodeType {
        if NoNode(front, nodeType) {
          assert OnlyOne(nodes, nodeType, n);
        }
      } else {
        if i :| OnlyOne(front, nodeType, i) {
          assert OnlyOne(nodes, nodeType, i);
        }
        if i :| OnlyOne(nodes, nodeType, i) {
          assert OnlyOne(front, nodeType, i);
        }
      }
    }
  }

  /** Which drafts are upgraded, and which count as done. */
  lemma PlanExactly(w: Workflow)
    ensures UpgradePlan(w).Eligible? <==>
              && w.id == "invoice-match" && NoNode(w.nodes, "business.procurement_line_match")
              && exists i :: OnlyOne(w.nodes, "ai.three_way_match", i)
    ensures UpgradePlan(w).AlreadyCurrent? <==>
              && w.id == "invoice-match" && NoNode(w.nodes, "ai.three_way_match")
              && !NoNode(w.nodes, "business.procurement_line_match")
  {
    OneOfType(w.nodes, LEGACY);
    OneOfType(w.nodes, LINE_MATCH);
  }
}
