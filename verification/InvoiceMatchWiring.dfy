/**
 How the branches of an upgraded invoice-match draft are wired, over its own nodes and edges: what needs
 approval goes through the finance approval, a severe exception never becomes payable, and the ERP is
 written only for what is payable.
 */
module InvoiceMatchWiring {
  import opened Basics
  import opened Graph
  import opened WorkflowValidation
  import opened InvoiceMatchUpgrade

  /** The places of the branches: the line match, which keeps the old node's id, and the five added nodes. */
  datatype Places = Places(matching: string, approval: string, payable: string, erp: string, exception: string, notice: string)

  function Added(p: Places): set<string> {
    {p.approval, p.payable, p.erp, p.exception, p.notice}
  }

  /** A node with this id, kind, type and label. */
  ghost predicate Has(nodes: seq<Node>, id: string, kind: string, nodeType: string, text: string) {
    exists k :: 0 <= k < |nodes| && nodes[k].id == id && nodes[k].kind == kind && nodes[k].nodeType == nodeType && nodes[k].text == text
  }

  /** The ids are those of the nodes they are named after; the added ones are new and differ. */
  ghost predicate Placed(w: Workflow, up: Workflow, p: Places) {
    && p.matching in NodeIds(w.nodes)
    && (forall x :: x in NodeIds(up.nodes) <==> x in NodeIds(w.nodes) || x in Added(p))
    && (forall x :: x in Added(p) ==> x !in NodeIds(w.nodes))
    && Distinct([p.approval, p.payable, p.erp, p.exception, p.notice])
    && Has(up.nodes, p.matching, "action", "business.procurement_line_match", "line-level three-way match")
    && Has(up.nodes, p.approval, "approval", "human.approval", "finance approval")
    && Has(up.nodes, p.payable, "action", "business.action", "payable review")
    && Has(up.nodes, p.erp, "tool", "connector.erp.action", "ERP payable write-back")
    && Has(up.nodes, p.exception, "action", "business.action", "match exception handling")
    && Has(up.nodes, p.notice, "action", "business.action", "result notification")
  }

  ghost predicate Leads(edges: seq<Edge>, from: string, to: string, text: string) {
    exists i :: 0 <= i < |edges| && edges[i].from == from && edges[i].to == to && edges[i].text == text
  }

  /** Where an edge of a branch leads by its label, and the only ways on and in. */
  ghost predicate GoesRight(p: Places, e: Edge) {
    && (e.from == p.matching ==>
          && (e.text == "approval required" <==> e.to == p.approval) && (e.text == "severe exception" <==> e.to == p.exception)
          && (e.text == "exact match" || e.text == "within tolerance" <==> e.to == p.payable)
          && e.to in {p.approval, p.exception, p.payable})
    && (e.from == p.approval ==> e.to == p.payable) && (e.from == p.payable ==> e.to == p.erp)
    && (e.from == p.erp || e.from == p.exception ==> e.to == p.notice) && e.from != p.notice
    && (e.to == p.approval || e.to == p.exception ==> e.from == p.matching)
    && (e.to == p.payable ==> e.from == p.matching || e.from == p.approval) && (e.to == p.erp ==> e.from == p.payable)
  }

  ghost predicate Wired(edges: seq<Edge>, p: Places) {
    && Leads(edges, p.matching, p.payable, "exact match") && Leads(edges, p.matching, p.payable, "within tolerance")
    && Leads(edges, p.matching, p.approval, "approval required") && Leads(edges, p.matching, p.exception, "severe exception")
    && Leads(edges, p.approval, p.payable, "resume after approval")
    && Leads(edges, p.payable, p.erp, "") && Leads(edges, p.erp, p.notice, "") && Leads(edges, p.exception, p.notice, "")
    && forall e :: e in edges ==> GoesRight(p, e)
  }

  // ---- the wiring holds

  function PlacesOf(ids: Ids): Places {
    Places(ids.lineMatch, ids.approval, ids.payable, ids.erpWrite, ids.exception, ids.notification)
  }

  lemma EligibleHasLegacy(w: Workflow)
    requires UpgradePlan(w).Eligible?
    ensures var legacy := UpgradePlan(w).legacy;
            legacy in w.nodes && legacy.nodeType == "ai.three_way_match" && UpgradePlan(w).upgraded == Upgrade(w, legacy)
  {
    var legacy := UpgradePlan(w).legacy;
    OfTypeElements(w.nodes, LEGACY);
    assert legacy in OfType(w.nodes, LEGACY);
  }

  lemma UpgradedIsPlaced(w: Workflow, legacy: Node)
    requires ValidWorkflow(w) && legacy in w.nodes
    ensures Placed(w, Upgrade(w, legacy), PlacesOf(NewIds(w, legacy)))
  {
    var up, p, n := Upgrade(w, legacy), PlacesOf(NewIds(w, legacy)), |w.nodes|;
    NewIdsFresh(w, legacy);
    UpgradedNodes(w, legacy);
    LegacyIsANode(w, legacy);
    ReplacedNodes(w, legacy);
    var l :| 0 <= l < n && w.nodes[l] == legacy;
    assert up.nodes[l] == LineMatchNode(legacy);
    assert up.nodes[n].id == p.approval && up.nodes[n + 1].id == p.payable && up.nodes[n + 2].id == p.erp;
    assert up.nodes[n + 3].id == p.exception && up.nodes[n + 4].id == p.notice;
  }

  /** One of the eight links. */
  predicate ALink(p: Places, e: Edge) {
    || (e.from == p.matching && e.to == p.payable && (e.text == "exact match" || e.text == "within tolerance"))
    || (e.from == p.matching && e.to == p.approval && e.text == "approval required")
    || (e.from == p.matching && e.to == p.exception && e.text == "severe exception")
    || (e.from == p.approval && e.to == p.payable && e.text == "resume after approval")
    || (e.from == p.payable && e.to == p.erp && e.text == "")
    || ((e.from == p.erp || e.from == p.exception) && e.to == p.notice && e.text == "")
  }

  lemma AddedIsALink(edges: seq<Edge>, ids: Ids, e: Edge)
    requires e in AddedEdges(edges, ids)
    ensures ALink(PlacesOf(ids), e)
  {
    var i :| 0 <= i < 8 && AddedEdges(edges, ids)[i] == e;
    assert e.from == Links(ids)[i].0 && e.to == Links(ids)[i].1 && e.text == Links(ids)[i].2;
  }

  /** An edge of the upgraded draft is a link, or an old edge away from the branches. */
  lemma LinkOrOld(w: Workflow, legacy: Node, e: Edge)
    requires ValidWorkflow(w) && legacy in w.nodes && e in Upgrade(w, legacy).edges
    ensures var p := PlacesOf(NewIds(w, legacy));
            ALink(p, e) || (e.from != p.matching && e.from in NodeIds(w.nodes) && e.to in NodeIds(w.nodes))
  {
    NotFromElements(w.edges, legacy.id);
    if e in NotFrom(w.edges, legacy.id) {
      assert e in w.edges;
    } else {
      AddedIsALink(w.edges, NewIds(w, legacy), e);
    }
  }

  lemma LinkIsThere(w: Workflow, legacy: Node, i: nat)
    requires i < 8
    ensures var link := Links(NewIds(w, legacy))[i]; Leads(Upgrade(w, legacy).edges, link.0, link.1, link.2)
  {
    var k := |NotFrom(w.edges, legacy.id)| + i;
    var e, link := Upgrade(w, legacy).edges[k], Links(NewIds(w, legacy))[i];
    assert e.from == link.0 && e.to == link.1 && e.text == link.2;
  }

  lemma LabelsDiffer()
    ensures Distinct(["exact match", "within tolerance", "approval required", "severe exception"])
  {
    assert "exact match"[0] == 'e' && "within tolerance"[0] == 'w' && "approval required"[0] == 'a' && "severe exception"[0] == 's';
  }

  lemma LinkIsWired(w: Workflow, up: Workflow, p: Places, e: Edge)
    requires Placed(w, up, p)
    requires ALink(p, e) || (e.from != p.matching && e.from in NodeIds(w.nodes) && e.to in NodeIds(w.nodes))
    ensures GoesRight(p, e)
  {
    var names := [p.approval, p.payable, p.erp, p.exception, p.notice];
    assert names[0] != names[1] && names[0] != names[2] && names[0] != names[3] && names[0] != names[4];
    assert names[1] != names[2] && names[1] != names[3] && names[1] != names[4];
    assert names[2] != names[3] && names[2] != names[4] && names[3] != names[4];
    assert p.matching !in Added(p);
    LabelsDiffer();
    var labels := ["exact match", "within tolerance", "approval required", "severe exception"];
    assert labels[0] != labels[2] && labels[0] != labels[3] && labels[1] != labels[2] && labels[1] != labels[3] && labels[2] != labels[3];
  }

  lemma LinksAreThere(w: Workflow, legacy: Node)
    ensures var edges, p := Upgrade(w, legacy).edges, PlacesOf(NewIds(w, legacy));
            && Leads(edges, p.matching, p.payable, "exact match") && Leads(edges, p.matching, p.payable, "within tolerance")
            && Leads(edges, p.matching, p.approval, "approval required") && Leads(edges, p.matching, p.exception, "severe exception")
            && Leads(edges, p.approval, p.payable, "resume after approval")
            && Leads(edges, p.payable, p.erp, "") && Leads(edges, p.erp, p.notice, "") && Leads(edges, p.exception, p.notice, "")
  {
    LinkIsThere(w, legacy, 0);
    LinkIsThere(w, legacy, 1);
    LinkIsThere(w, legacy, 2);
    LinkIsThere(w, legacy, 3);
    LinkIsThere(w, legacy, 4);
    LinkIsThere(w, legacy, 5);
    LinkIsThere(w, legacy, 6);
    LinkIsThere(w, legacy, 7);
  }

  /** The branches of an upgraded draft, named by its nodes, are wired as the upgrade announces. */
  lemma UpgradeIsWired(w: Workflow) returns (p: Places)
    requires ValidWorkflow(w) && UpgradePlan(w).Eligible?
    ensures Placed(w, UpgradePlan(w).upgraded, p) && Wired(UpgradePlan(w).upgraded.edges, p)
    ensures p.matching == UpgradePlan(w).legacy.id
  {
    var legacy, up := UpgradePlan(w).legacy, UpgradePlan(w).upgraded;
    EligibleHasLegacy(w);
    p := PlacesOf(NewIds(w, legacy));
    UpgradedIsPlaced(w, legacy);
    LinksAreThere(w, legacy);
    forall e | e in up.edges ensures GoesRight(p, e) {
      LinkOrOld(w, legacy, e);
      LinkIsWired(w, up, p, e);
    }
  }

  // ---- paths

  lemma LeadsConnects(edges: seq<Edge>, from: string, to: string, text: string)
    requires Leads(edges, from, to, text)
    ensures Connects(edges, from, to)
  {
  }

  lemma StepGoesRight(edges: seq<Edge>, p: Places, q: seq<string>, i: nat) returns (e: Edge)
    requires Wired(edges, p) && Path(edges, q) && i + 1 < |q|
    ensures e in edges && e.from == q[i] && e.to == q[i + 1] && GoesRight(p, e)
  {
    assert Connects(edges, q[i], q[i + 1]);
    var k :| 0 <= k < |edges| && edges[k].from == q[i] && edges[k].to == q[i + 1];
    e := edges[k];
  }

  /** A severe exception ends in a notification: no way leads from it to the payable node or the ERP. */
  lemma {:induction false} ExceptionEnds(edges: seq<Edge>, p: Places, q: seq<string>)
    requires Wired(edges, p) && Path(edges, q) && q[0] in {p.exception, p.notice}
    ensures forall i :: 1 <= i < |q| ==> q[i] == p.notice
  {
    if |q| > 1 {
      var e := StepGoesRight(edges, p, q, 0);
      PathSlice(edges, q, 1, |q|);
      ExceptionEnds(edges, p, q[1..]);
    }
  }

  lemma SevereIsNeverPaid(w: Workflow, p: Places, q: seq<string>)
    requires UpgradePlan(w).Eligible? && Placed(w, UpgradePlan(w).upgraded, p) && Wired(UpgradePlan(w).upgraded.edges, p)
    requires Path(UpgradePlan(w).upgraded.edges, q) && q[0] == p.exception
    ensures p.payable !in q && p.erp !in q && p.approval !in q
  {
    ExceptionEnds(UpgradePlan(w).upgraded.edges, p, q);
    var names := [p.approval, p.payable, p.erp, p.exception, p.notice];
    forall x | x in q ensures x == p.exception || x == p.notice {
      var i :| 0 <= i < |q| && q[i] == x;
    }
    assert names[0] != names[3] && names[0] != names[4] && names[1] != names[3] && names[1] != names[4];
    assert names[2] != names[3] && names[2] != names[4];
  }

  /** A way from a node the draft had before to the ERP goes through the line match and the payable node, in this order. */
  lemma PaidOnlyAfterMatching(w: Workflow, p: Places, q: seq<string>)
    requires UpgradePlan(w).Eligible? && Placed(w, UpgradePlan(w).upgraded, p) && Wired(UpgradePlan(w).upgraded.edges, p)
    requires Path(UpgradePlan(w).upgraded.edges, q) && q[0] in NodeIds(w.nodes) && q[|q| - 1] == p.erp
    ensures |q| >= 3 && q[|q| - 2] == p.payable
    ensures q[|q| - 3] == p.matching || (|q| >= 4 && q[|q| - 3] == p.approval && q[|q| - 4] == p.matching)
  {
    var edges, n := UpgradePlan(w).upgraded.edges, |q|;
    assert q[0] !in Added(p);
    var last := StepGoesRight(edges, p, q, n - 2);
    var before := StepGoesRight(edges, p, q, n - 3);
    if q[n - 3] == p.approval {
      var first := StepGoesRight(edges, p, q, n - 4);
    }
  }

  /** Every added node is reached from the line match. */
  lemma AddedAreReached(edges: seq<Edge>, p: Places, x: string) returns (q: seq<string>)
    requires Wired(edges, p) && x in Added(p)
    ensures Path(edges, q) && q[0] == p.matching && q[|q| - 1] == x
  {
    if x == p.approval {
      LeadsConnects(edges, p.matching, p.approval, "approval required");
      q := [p.matching, p.approval];
    } else if x == p.exception {
      LeadsConnects(edges, p.matching, p.exception, "severe exception");
      q := [p.matching, p.exception];
    } else {
      LeadsConnects(edges, p.matching, p.payable, "exact match");
      LeadsConnects(edges, p.payable, p.erp, "");
      LeadsConnects(edges, p.erp, p.notice, "");
      q := if x == p.payable then [p.matching, p.payable]
           else if x == p.erp then [p.matching, p.payable, p.erp]
           else [p.matching, p.payable, p.erp, p.notice];
    }
  }
}
