/** The acceptance test every saved workflow passes: local checks, unique ids, and no directed cycle. */
module WorkflowValidation {
  import opened Basics
  import opened Graph

  datatype Coordinate = Finite(value: real) | NotFinite

  datatype Position = Position(x: Coordinate, y: Coordinate)

  /** An empty `id` stands for a missing one. */
  datatype Node = Node(id: string, kind: string, text: string, nodeType: string, position: Option<Position>)

  datatype Workflow = Workflow(
    id: string, name: string, desc: string, nodes: seq<Node>, edges: seq<Edge>,
    draftRevision: nat, publishedRevision: nat, publishedVersion: string)

  const KINDS: set<string> := {"trigger", "router", "ai", "logic", "tool", "approval", "action"}

  predicate PositionOk(position: Option<Position>) {
    position.Some? ==> position.value.x.Finite? && position.value.y.Finite?
  }

  predicate NodeOk(node: Node) {
    node.id != "" && node.text != "" && node.kind in KINDS
  }

  function NodeIds(nodes: seq<Node>): seq<string> {
    seq(|nodes|, i requires 0 <= i < |nodes| => nodes[i].id)
  }

  ghost predicate DistinctEdgeIds(edges: seq<Edge>) {
    forall i, j :: 0 <= i < j < |edges| && edges[i].id != "" ==> edges[i].id != edges[j].id
  }

  ghost predicate EdgesAttached(nodes: seq<Node>, edges: seq<Edge>) {
    forall e :: e in edges ==> e.from in NodeIds(nodes) && e.to in NodeIds(nodes) && e.from != e.to
  }

  ghost predicate ValidWorkflow(w: Workflow) {
    && 1 <= |w.name| <= 80
    && 1 <= |w.nodes| <= 200
    && (forall n :: n in w.nodes ==> NodeOk(n) && PositionOk(n.position))
    && Distinct(NodeIds(w.nodes))
    && EdgesAttached(w.nodes, w.edges)
    && DistinctEdgeIds(w.edges)
    && Acyclic(w.edges)
  }

  datatype Problem =
    | BadName
    | BadNodeCount
    | BadNode(node: Node)
    | DuplicateNode(id: string)
    | BadPosition(node: Node)
    | DanglingEdge(edge: Edge)
    | SelfEdge(edge: Edge)
    | DuplicateEdge(id: string)
    | HasCycle

  /** What a reported problem says about the workflow. */
  ghost predicate Confirmed(w: Workflow, problem: Problem) {
    match problem
    case BadName => w.name == "" || |w.name| > 80
    case BadNodeCount => w.nodes == [] || |w.nodes| > 200
    case BadNode(n) => n in w.nodes && !NodeOk(n)
    case DuplicateNode(id) => exists i, j :: 0 <= i < j < |w.nodes| && w.nodes[i].id == id && w.nodes[j].id == id
    case BadPosition(n) => n in w.nodes && !PositionOk(n.position)
    case DanglingEdge(e) => e in w.edges && !(e.from in NodeIds(w.nodes) && e.to in NodeIds(w.nodes))
    case SelfEdge(e) => e in w.edges && e.from == e.to
    case DuplicateEdge(id) => id != "" && exists i, j :: 0 <= i < j < |w.edges| && w.edges[i].id == id && w.edges[j].id == id
    case HasCycle => !Acyclic(w.edges)
  }

  lemma ConfirmedIsInvalid(w: Workflow, problem: Problem)
    requires Confirmed(w, problem)
    ensures !ValidWorkflow(w)
  {
    match problem {
      case DuplicateNode(id) =>
        var i, j :| 0 <= i < j < |w.nodes| && w.nodes[i].id == id && w.nodes[j].id == id;
        assert NodeIds(w.nodes)[i] == NodeIds(w.nodes)[j];
      case _ =>
    }
  }

  /** In finishing order every edge leads back to a node that finished earlier. */
  ghost predicate PostOrder(edges: seq<Edge>, finished: seq<string>) {
    && Distinct(finished)
    && forall i {:trigger LeadsBack(edges, finished, i)} :: 0 <= i < |finished| ==> LeadsBack(edges, finished, i)
  }

  ghost predicate LeadsBack(edges: seq<Edge>, finished: seq<string>, i: nat)
    requires i < |finished|
  {
    forall v :: v in Targets(edges, finished[i]) ==> v in finished[..i]
  }

  ghost function PlaceOf(s: seq<string>, x: string): (i: nat)
    requires x in s
    ensures i < |s| && s[i] == x
  {
    var i :| 0 <= i < |s| && s[i] == x;
    i
  }

  ghost function Rank(finished: seq<string>, u: string): int {
    if u in finished then 0 - PlaceOf(finished, u) else 1
  }

  lemma PostOrderIsAcyclic(edges: seq<Edge>, finished: seq<string>)
    requires PostOrder(edges, finished)
    requires forall e :: e in edges ==> e.from in finished
    ensures Acyclic(edges)
  {
    var rank: string -> int := u => Rank(finished, u);
    forall u, v | Connects(edges, u, v) ensures rank(u) < rank(v) {
      assert u in finished;
      var i := PlaceOf(finished, u);
      TargetsAreSuccessors(edges, u);
      assert LeadsBack(edges, finished, i);
      assert v in finished[..i];
      var j :| 0 <= j < i && finished[j] == v;
      assert PlaceOf(finished, v) == j;
    }
    RankedIsAcyclic(edges, rank);
  }

  lemma PostOrderExtend(edges: seq<Edge>, finished: seq<string>, u: string)
    requires PostOrder(edges, finished) && u !in finished
    requires forall v :: v in Targets(edges, u) ==> v in finished
    ensures PostOrder(edges, finished + [u])
  {
    var longer := finished + [u];
    forall i | 0 <= i < |longer| ensures LeadsBack(edges, longer, i) {
      if i < |finished| {
        assert LeadsBack(edges, finished, i);
        assert longer[..i] == finished[..i];
      } else {
        assert longer[..i] == finished;
      }
    }
  }

  lemma ElementsSnoc(s: seq<string>, x: string)
    ensures Elements(s + [x]) == Elements(s) + {x}
  {
  }

  /** The nodes being visited are a path that leads to `u`. */
  ghost predicate Leads(edges: seq<Edge>, stack: seq<string>, u: string) {
    stack != [] ==> Path(edges, stack) && Connects(edges, stack[|stack| - 1], u)
  }

  /** A path that comes back to one of its own nodes closes a cycle. */
  lemma StackCycle(edges: seq<Edge>, stack: seq<string>, u: string)
    requires u in stack && Leads(edges, stack, u)
    ensures !Acyclic(edges)
  {
    var i := PlaceOf(stack, u);
    PathSlice(edges, stack, i, |stack|);
    PathSnoc(edges, stack[i..], u);
    assert Cycle(edges, stack[i..] + [u]);
  }

  lemma PathSnoc(edges: seq<Edge>, p: seq<string>, u: string)
    requires Path(edges, p) && Connects(edges, p[|p| - 1], u)
    ensures Path(edges, p + [u])
  {
    var q := p + [u];
    forall i | 0 <= i < |q| - 1 ensures Connects(edges, q[i], q[i + 1]) {
      if i < |p| - 1 {
        assert q[i] == p[i] && q[i + 1] == p[i + 1];
      }
    }
  }

  function Adjacent(successors: map<string, seq<string>>, u: string): seq<string> {
    if u in successors then successors[u] else []
  }

  ghost predicate Lists(successors: map<string, seq<string>>, edges: seq<Edge>) {
    forall u :: Adjacent(successors, u) == Targets(edges, u)
  }

  lemma ListsSnoc(successors: map<string, seq<string>>, edges: seq<Edge>, e: Edge)
    requires Lists(successors, edges)
    ensures Lists(successors[e.from := Adjacent(successors, e.from) + [e.to]], edges + [e])
  {
    var longer, successors' := edges + [e], successors[e.from := Adjacent(successors, e.from) + [e.to]];
    assert longer[..|longer| - 1] == edges && longer[|longer| - 1] == e;
    forall u ensures Adjacent(successors', u) == Targets(longer, u) {
      assert Adjacent(successors, u) == Targets(edges, u);
    }
  }

  /** The depth-first search of `validateWorkflow`, with the two sets its closure updates. */
  class CycleSearch {
    ghost const edges: seq<Edge>
    ghost const nodes: set<string>
    const successors: map<string, seq<string>>
    var visiting: set<string>
    var visited: set<string>
    ghost var finished: seq<string>

    constructor (ghost edges: seq<Edge>, ghost nodes: set<string>, successors: map<string, seq<string>>)
      ensures this.edges == edges && this.nodes == nodes && this.successors == successors
      ensures visiting == {} && visited == {} && finished == []
    {
      this.edges, this.nodes, this.successors := edges, nodes, successors;
      visiting, visited, finished := {}, {}, [];
    }

    /** The successor map lists the edges, and no edge leaves the node set. */
    ghost predicate Faithful() {
      && Lists(successors, edges)
      && (forall e :: e in edges ==> e.from in nodes && e.to in nodes)
    }

    ghost predicate Sound()
      reads this
    {
      && visiting !! visited
      && visited == Elements(finished)
      && PostOrder(edges, finished)
    }

    method Visit(id: string, ghost stack: seq<string>) returns (ok: bool)
      requires Faithful() && Sound()
      requires id in nodes && visiting <= nodes
      requires visiting == Elements(stack) && Leads(edges, stack, id)
      modifies this
      ensures !ok ==> !Acyclic(edges)
      ensures ok ==> Sound() && visiting == old(visiting) && old(visited) <= visited && id in visited
      decreases nodes - visiting
    {
      if id in visiting {
        StackCycle(edges, stack, id);
        return false;
      }
      if id in visited {
        return true;
      }
      visiting := visiting + {id};
      ghost var deeper, inside := stack + [id], visiting;
      ElementsSnoc(stack, id);
      var next := Adjacent(successors, id);
      for i := 0 to |next|
        invariant Sound() && visiting == inside
        invariant old(visited) <= visited
        invariant forall k :: 0 <= k < i ==> next[k] in visited
      {
        Attached(stack, id, next[i]);
        ok := Visit(next[i], deeper);
        if !ok {
          return;
        }
      }
      PostOrderExtend(edges, finished, id);
      ElementsSnoc(finished, id);
      visiting := visiting - {id};
      visited := visited + {id};
      finished := finished + [id];
      return true;
    }

    lemma Attached(stack: seq<string>, u: string, v: string)
      requires Faithful() && Leads(edges, stack, u) && v in Targets(edges, u)
      ensures Leads(edges, stack + [u], v) && v in nodes
    {
      if stack != [] {
        PathSnoc(edges, stack, u);
      }
      TargetsAreSuccessors(edges, u);
      var i :| 0 <= i < |edges| && edges[i].from == u && edges[i].to == v;
      assert edges[i] in edges;
    }
  }

  /** Reports no problem exactly for the valid workflows; a reported problem is a real one. */
  method ValidateWorkflow(w: Workflow) returns (problem: Option<Problem>)
    ensures problem.None? <==> ValidWorkflow(w)
    ensures problem.Some? ==> Confirmed(w, problem.value)
  {
    problem := CheckWorkflow(w);
    if problem.Some? {
      ConfirmedIsInvalid(w, problem.value);
    }
  }

  method CheckWorkflow(w: Workflow) returns (problem: Option<Problem>)
    ensures problem.None? ==> ValidWorkflow(w)
    ensures problem.Some? ==> Confirmed(w, problem.value)
  {
    if w.name == "" || |w.name| > 80 {
      return Some(BadName);
    }
    if |w.nodes| == 0 || |w.nodes| > 200 {
      return Some(BadNodeCount);
    }
    problem := CheckNodes(w);
    if problem.Some? {
      return;
    }
    var nodeIds := set n | n in w.nodes :: n.id;
    assert nodeIds == set x | x in NodeIds(w.nodes) by {
      forall x ensures x in nodeIds <==> x in NodeIds(w.nodes) {
        if x in nodeIds {
          var k :| 0 <= k < |w.nodes| && w.nodes[k].id == x;
          assert NodeIds(w.nodes)[k] == x;
        }
      }
    }
    var successors;
    problem, successors := CheckEdges(w, nodeIds);
    if problem.Some? {
      return;
    }
    var search := new CycleSearch(w.edges, nodeIds, successors);
    for i := 0 to |w.nodes|
      invariant search.edges == w.edges && search.nodes == nodeIds && search.successors == successors
      invariant fresh(search)
      invariant search.Faithful() && search.Sound() && search.visiting == {}
      invariant forall k :: 0 <= k < i ==> w.nodes[k].id in search.visited
    {
      var ok := search.Visit(w.nodes[i].id, []);
      if !ok {
        return Some(HasCycle);
      }
    }
    forall e | e in w.edges ensures e.from in search.finished {
      assert e.from in search.visited;
    }
    PostOrderIsAcyclic(w.edges, search.finished);
  }

  method CheckNodes(w: Workflow) returns (problem: Option<Problem>)
    ensures problem.None? ==> forall n :: n in w.nodes ==> NodeOk(n) && PositionOk(n.position)
    ensures problem.None? ==> Distinct(NodeIds(w.nodes))
    ensures problem.Some? ==> Confirmed(w, problem.value)
  {
    var nodeIds: set<string> := {};
    for i := 0 to |w.nodes|
      invariant forall k :: 0 <= k < i ==> NodeOk(w.nodes[k]) && PositionOk(w.nodes[k].position)
      invariant nodeIds == set k | 0 <= k < i :: w.nodes[k].id
      invariant forall j, k :: 0 <= j < k < i ==> w.nodes[j].id != w.nodes[k].id
    {
      var item := w.nodes[i];
      if item.id == "" || item.text == "" || item.kind !in KINDS {
        return Some(BadNode(item));
      }
      if item.id in nodeIds {
        ghost var j :| 0 <= j < i && w.nodes[j].id == item.id;
        assert w.nodes[j].id == item.id && w.nodes[i].id == item.id;
        return Some(DuplicateNode(item.id));
      }
      if item.position.Some? && (item.position.value.x.NotFinite? || item.position.value.y.NotFinite?) {
        return Some(BadPosition(item));
      }
      nodeIds := nodeIds + {item.id};
    }
    return None;
  }

  method CheckEdges(w: Workflow, nodeIds: set<string>) returns (problem: Option<Problem>, successors: map<string, seq<string>>)
    requires nodeIds == set x | x in NodeIds(w.nodes)
    ensures problem.None? ==> EdgesAttached(w.nodes, w.edges) && DistinctEdgeIds(w.edges) && Lists(successors, w.edges)
    ensures problem.Some? ==> Confirmed(w, problem.value)
  {
    successors := map[];
    var edgeIds: set<string> := {};
    for i := 0 to |w.edges|
      invariant forall k :: 0 <= k < i ==> EdgeAttached(nodeIds, w.edges[k])
      invariant edgeIds == IdsBefore(w.edges, i)
      invariant DistinctEdgeIds(w.edges[..i])
      invariant Lists(successors, w.edges[..i])
    {
      var item := w.edges[i];
      if item.from !in nodeIds || item.to !in nodeIds {
        return Some(DanglingEdge(item)), successors;
      }
      if item.from == item.to {
        return Some(SelfEdge(item)), successors;
      }
      if item.id != "" && item.id in edgeIds {
        UsedTwice(w.edges, i);
        return Some(DuplicateEdge(item.id)), successors;
      }
      if item.id != "" {
        edgeIds := edgeIds + {item.id};
      }
      NewEdgeId(w.edges, i);
      ListsSnoc(successors, w.edges[..i], item);
      assert w.edges[..i + 1] == w.edges[..i] + [item];
      successors := successors[item.from := Adjacent(successors, item.from) + [item.to]];
    }
    assert w.edges[..|w.edges|] == w.edges;
    AllAttached(w.nodes, w.edges, nodeIds);
    return None, successors;
  }

  ghost predicate EdgeAttached(nodeIds: set<string>, e: Edge) {
    e.from in nodeIds && e.to in nodeIds && e.from != e.to
  }

  ghost function IdsBefore(edges: seq<Edge>, i: nat): set<string>
    requires i <= |edges|
  {
    set k | 0 <= k < i && edges[k].id != "" :: edges[k].id
  }

  lemma UsedTwice(edges: seq<Edge>, i: nat)
    requires i < |edges| && edges[i].id in IdsBefore(edges, i)
    ensures exists j :: 0 <= j < i && edges[j].id == edges[i].id
  {
  }

  lemma AllAttached(nodes: seq<Node>, edges: seq<Edge>, nodeIds: set<string>)
    requires nodeIds == set x | x in NodeIds(nodes)
    requires forall k :: 0 <= k < |edges| ==> EdgeAttached(nodeIds, edges[k])
    ensures EdgesAttached(nodes, edges)
  {
  }

  lemma NewEdgeId(edges: seq<Edge>, i: nat)
    requires i < |edges| && DistinctEdgeIds(edges[..i])
    requires edges[i].id == "" || edges[i].id !in IdsBefore(edges, i)
    ensures DistinctEdgeIds(edges[..i + 1])
    ensures IdsBefore(edges, i + 1) == IdsBefore(edges, i) + (if edges[i].id == "" then {} else {edges[i].id})
  {
    var longer := edges[..i + 1];
    forall j, k | 0 <= j < k < |longer| && longer[j].id != "" ensures longer[j].id != longer[k].id {
      assert longer[j] == edges[..i][j];
      if k < i {
        assert longer[k] == edges[..i][k];
      } else {
        assert longer[j].id in IdsBefore(edges, i);
      }
    }
  }
}
