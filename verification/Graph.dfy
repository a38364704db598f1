/** Directed graphs given by a list of edges: paths, cycles, and the facts the workflow code rests on. */
module Graph {
  import opened Basics

  datatype Edge = Edge(id: string, from: string, to: string, text: string)

  ghost predicate Connects(edges: seq<Edge>, u: string, v: string) {
    exists i :: 0 <= i < |edges| && edges[i].from == u && edges[i].to == v
  }

  ghost predicate Path(edges: seq<Edge>, p: seq<string>) {
    |p| > 0 && forall i :: 0 <= i < |p| - 1 ==> Connects(edges, p[i], p[i + 1])
  }

  ghost predicate Cycle(edges: seq<Edge>, p: seq<string>) {
    |p| >= 2 && Path(edges, p) && p[0] == p[|p| - 1]
  }

  ghost predicate Acyclic(edges: seq<Edge>) {
    forall p :: !Cycle(edges, p)
  }

  /** The targets of the edges that leave `u`, in edge order. */
  function Targets(edges: seq<Edge>, u: string): seq<string> {
    if edges == [] then []
    else
      var front := Targets(edges[..|edges| - 1], u);
      if edges[|edges| - 1].from == u then front + [edges[|edges| - 1].to] else front
  }

  lemma TargetsAreSuccessors(edges: seq<Edge>, u: string)
    ensures forall v :: v in Targets(edges, u) <==> Connects(edges, u, v)
  {
    if edges != [] {
      var front, last := edges[..|edges| - 1], edges[|edges| - 1];
      TargetsAreSuccessors(front, u);
      forall v ensures v in Targets(edges, u) <==> Connects(edges, u, v) {
        if v in Targets(edges, u) {
          if v in Targets(front, u) {
            var i :| 0 <= i < |front| && front[i].from == u && front[i].to == v;
            assert edges[i].from == u && edges[i].to == v;
          } else {
            assert edges[|edges| - 1].from == u && edges[|edges| - 1].to == v;
          }
        }
        if Connects(edges, u, v) {
          var i :| 0 <= i < |edges| && edges[i].from == u && edges[i].to == v;
          if i < |front| {
            assert front[i].from == u && front[i].to == v;
          }
        }
      }
    }
  }

  /** Along a path a rank that every edge raises grows by at least one a step. */
  lemma {:induction false} RankGrows(edges: seq<Edge>, rank: string -> int, p: seq<string>, i: nat)
    requires forall u, v :: Connects(edges, u, v) ==> rank(u) < rank(v)
    requires Path(edges, p) && i < |p|
    ensures rank(p[0]) + i <= rank(p[i])
  {
    if i > 0 {
      RankGrows(edges, rank, p, i - 1);
      assert Connects(edges, p[i - 1], p[i - 1 + 1]);
    }
  }

  lemma RankedIsAcyclic(edges: seq<Edge>, rank: string -> int)
    requires forall u, v :: Connects(edges, u, v) ==> rank(u) < rank(v)
    ensures Acyclic(edges)
  {
    forall p | Path(edges, p) && |p| >= 2
      ensures !Cycle(edges, p)
    {
      RankGrows(edges, rank, p, |p| - 1);
    }
  }

  /** More places than values: some value repeats. */
  lemma Pigeonhole(s: seq<string>, values: set<string>) returns (i: nat, j: nat)
    requires (forall x :: x in s ==> x in values) && |s| > |values|
    ensures i < j < |s| && s[i] == s[j]
  {
    if Distinct(s) {
      DistinctCount(s);
      SmallerSet(Elements(s), values);
      assert false;
    }
    i, j :| 0 <= i < j < |s| && s[i] == s[j];
  }

  ghost predicate HasPredecessorIn(edges: seq<Edge>, nodes: set<string>, v: string) {
    exists u :: u in nodes && Connects(edges, u, v)
  }

  ghost predicate BackwardClosed(edges: seq<Edge>, nodes: set<string>) {
    forall v {:trigger HasPredecessorIn(edges, nodes, v)} :: v in nodes ==> HasPredecessorIn(edges, nodes, v)
  }

  lemma PathCons(edges: seq<Edge>, u: string, p: seq<string>)
    requires Path(edges, p) && Connects(edges, u, p[0])
    ensures Path(edges, [u] + p)
  {
    var q := [u] + p;
    forall i | 0 <= i < |q| - 1 ensures Connects(edges, q[i], q[i + 1]) {
      if i > 0 {
        assert q[i] == p[i - 1] && q[i + 1] == p[i - 1 + 1];
      }
    }
  }

  lemma PathSlice(edges: seq<Edge>, p: seq<string>, i: nat, j: nat)
    requires Path(edges, p) && i < j <= |p|
    ensures Path(edges, p[i..j])
  {
    var q := p[i..j];
    forall k | 0 <= k < |q| - 1 ensures Connects(edges, q[k], q[k + 1]) {
      assert q[k] == p[i + k] && q[k + 1] == p[i + k + 1];
    }
  }

  lemma {:induction false} LongPath(edges: seq<Edge>, nodes: set<string>, n: nat) returns (p: seq<string>)
    requires nodes != {} && BackwardClosed(edges, nodes)
    ensures Path(edges, p) && |p| == n + 1 && forall i :: 0 <= i < |p| ==> p[i] in nodes
  {
    if n == 0 {
      var v :| v in nodes;
      p := [v];
    } else {
      var rest := LongPath(edges, nodes, n - 1);
      var v := rest[0];
      assert HasPredecessorIn(edges, nodes, v);
      var u :| u in nodes && Connects(edges, u, v);
      PathCons(edges, u, rest);
      p := [u] + rest;
    }
  }

  /** Nodes that all have a predecessor among themselves contain a cycle. */
  lemma BackwardClosedHasCycle(edges: seq<Edge>, nodes: set<string>)
    requires nodes != {} && BackwardClosed(edges, nodes)
    ensures !Acyclic(edges)
  {
    var p := LongPath(edges, nodes, |nodes|);
    var i, j := Pigeonhole(p, nodes);
    PathSlice(edges, p, i, j + 1);
    assert Cycle(edges, p[i..j + 1]);
  }

  /** No edge leaves `sink`, and inside it every edge raises the level. */
  ghost predicate Sink(edges: seq<Edge>, sink: set<string>, level: string -> int) {
    forall u, v :: Connects(edges, u, v) && u in sink ==> v in sink && level(u) < level(v)
  }

  lemma {:induction false} SinkKeeps(edges: seq<Edge>, sink: set<string>, level: string -> int, p: seq<string>, i: nat, j: nat)
    requires Sink(edges, sink, level) && Path(edges, p)
    requires i <= j < |p| && p[i] in sink
    ensures p[j] in sink && level(p[i]) + (j - i) <= level(p[j])
    decreases j
  {
    if i < j {
      SinkKeeps(edges, sink, level, p, i, j - 1);
      assert Connects(edges, p[j - 1], p[j - 1 + 1]);
    }
  }

  /** A graph stays acyclic when all its new edges lead into a sink. */
  lemma AcyclicWithSink(before: seq<Edge>, edges: seq<Edge>, sink: set<string>, level: string -> int)
    requires Acyclic(before) && Sink(edges, sink, level)
    requires forall u, v :: Connects(edges, u, v) && v !in sink ==> Connects(before, u, v)
    ensures Acyclic(edges)
  {
    forall p | Path(edges, p) && |p| >= 2
      ensures !Cycle(edges, p)
    {
      if p[0] == p[|p| - 1] {
        if i :| 0 <= i < |p| && p[i] in sink {
          SinkKeeps(edges, sink, level, p, i, |p| - 1);
          SinkKeeps(edges, sink, level, p, 0, |p| - 1);
        } else {
          forall k | 0 <= k < |p| - 1 ensures Connects(before, p[k], p[k + 1]) {
            assert Connects(edges, p[k], p[k + 1]);
          }
          assert Cycle(before, p);
        }
      }
    }
  }
}
