/** The left-to-right layout of a workflow, and the repair of missing and repeated edge ids. */
module EditorLayout {
  // A node's column is the length of the longest path that reaches it.
  // The loop must also stop on a graph with cycles, where the first node starts the queue.

  import opened Basics
  import opened Graph
  import opened WorkflowValidation

  // ---- longest paths

  /** `n` is the length of the longest path that ends in `v`. */
  ghost predicate LongestTo(edges: seq<Edge>, v: string, n: nat) {
    && (exists p :: EndsIn(edges, p, v) && |p| == n + 1)
    && forall p :: EndsIn(edges, p, v) ==> |p| <= n + 1
  }

  ghost predicate EndsIn(edges: seq<Edge>, p: seq<string>, v: string) {
    Path(edges, p) && p[|p| - 1] == v
  }

  function LayerOf(layer: map<string, nat>, v: string): nat {
    if v in layer then layer[v] else 0
  }

  /** Every edge out of `done` leads at least one column on, and no column is further than it must be. */
  ghost predicate Layered(edges: seq<Edge>, done: set<string>, layer: map<string, nat>) {
    && (forall u, v :: u in done && Connects(edges, u, v) ==> LayerOf(layer, u) + 1 <= LayerOf(layer, v))
    && (forall v :: LayerOf(layer, v) == 0 || Reached(edges, done, layer, v))
  }

  ghost predicate Reached(edges: seq<Edge>, done: set<string>, layer: map<string, nat>, v: string) {
    exists u :: u in done && Connects(edges, u, v) && LayerOf(layer, v) == LayerOf(layer, u) + 1
  }

  lemma {:induction false} LayerBoundsPath(edges: seq<Edge>, done: set<string>, layer: map<string, nat>, p: seq<string>, i: nat)
    requires Layered(edges, done, layer) && (forall e :: e in edges ==> e.from in done)
    requires Path(edges, p) && i < |p|
    ensures i <= LayerOf(layer, p[i])
  {
    if i > 0 {
      LayerBoundsPath(edges, done, layer, p, i - 1);
      var u, v := p[i - 1], p[i - 1 + 1];
      assert Connects(edges, u, v);
      var k :| 0 <= k < |edges| && edges[k].from == u && edges[k].to == v;
      assert edges[k] in edges;
    }
  }

  lemma {:induction false} LayerHasPath(edges: seq<Edge>, done: set<string>, layer: map<string, nat>, v: string) returns (p: seq<string>)
    requires Layered(edges, done, layer)
    ensures EndsIn(edges, p, v) && |p| == LayerOf(layer, v) + 1
    decreases LayerOf(layer, v)
  {
    if LayerOf(layer, v) == 0 {
      p := [v];
    } else {
      assert Reached(edges, done, layer, v);
      var u :| u in done && Connects(edges, u, v) && LayerOf(layer, v) == LayerOf(layer, u) + 1;
      var q := LayerHasPath(edges, done, layer, u);
      PathSnoc(edges, q, v);
      p := q + [v];
    }
  }

  lemma LayeredIsLongest(edges: seq<Edge>, done: set<string>, layer: map<string, nat>, v: string)
    requires Layered(edges, done, layer) && (forall e :: e in edges ==> e.from in done)
    ensures LongestTo(edges, v, LayerOf(layer, v))
  {
    var q := LayerHasPath(edges, done, layer, v);
    forall p | EndsIn(edges, p, v) ensures |p| <= LayerOf(layer, v) + 1 {
      LayerBoundsPath(edges, done, layer, p, |p| - 1);
    }
  }

  // ---- incoming edges that are not accounted for yet

  /** How many edges into `v` start outside `done`. */
  function PendingIn(edges: seq<Edge>, done: set<string>, v: string): nat {
    if edges == [] then 0
    else
      var e := edges[|edges| - 1];
      PendingIn(edges[..|edges| - 1], done, v) + (if e.to == v && e.from !in done then 1 else 0)
  }

  lemma PendingAfter(edges: seq<Edge>, done: set<string>, u: string, v: string)
    requires u !in done
    ensures PendingIn(edges, done, v) == PendingIn(edges, done + {u}, v) + multiset(Targets(edges, u))[v]
  {
    if edges != [] {
      PendingAfter(edges[..|edges| - 1], done, u, v);
    }
  }

  lemma PendingHasSource(edges: seq<Edge>, done: set<string>, v: string)
    requires PendingIn(edges, done, v) > 0
    ensures exists e :: e in edges && e.to == v && e.from !in done
  {
    var front, e := edges[..|edges| - 1], edges[|edges| - 1];
    if e.to == v && e.from !in done {
      assert e in edges;
    } else {
      PendingHasSource(front, done, v);
      var d :| d in front && d.to == v && d.from !in done;
      assert d in edges;
    }
  }

  function Count(m: map<string, int>, v: string): int {
    if v in m then m[v] else 0
  }

  function Positive(incoming: map<string, int>): set<string> {
    set v | v in incoming && incoming[v] > 0
  }

  /** The graphs the layout is meant for. */
  ghost predicate Sane(ids: seq<string>, edges: seq<Edge>) {
    Distinct(ids) && Acyclic(edges) && forall e :: e in edges ==> e.from in ids && e.to in ids
  }

  /** With no node left to start from, nothing is left at all. */
  lemma NoneLeft(ids: seq<string>, edges: seq<Edge>, done: set<string>)
    requires Sane(ids, edges)
    requires forall v :: v in ids && v !in done ==> PendingIn(edges, done, v) > 0
    ensures forall v :: v in ids ==> v in done
  {
    var left := set v | v in ids && v !in done;
    assert forall v :: v in ids && v !in done ==> v in left;
    if left != {} {
      forall v | v in left ensures HasPredecessorIn(edges, left, v) {
        PendingHasSource(edges, done, v);
        var e :| e in edges && e.to == v && e.from !in done;
        var k :| 0 <= k < |edges| && edges[k] == e;
        assert edges[k].from == e.from && edges[k].to == v;
        assert e.from in left && Connects(edges, e.from, v);
      }
      BackwardClosedHasCycle(edges, left);
    }
  }

  // ---- the loops

  method CountIncoming(ids: seq<string>, edges: seq<Edge>) returns (incoming: map<string, int>, outgoing: map<string, seq<string>>)
    ensures forall v :: Count(incoming, v) == PendingIn(edges, {}, v)
    ensures forall e :: e in edges ==> e.to in incoming
    ensures Lists(outgoing, edges)
  {
    incoming, outgoing := map v | v in ids :: 0, map[];
    for i := 0 to |edges|
      invariant forall v :: Count(incoming, v) == PendingIn(edges[..i], {}, v)
      invariant forall k :: 0 <= k < i ==> edges[k].to in incoming
      invariant Lists(outgoing, edges[..i])
    {
      var item := edges[i];
      assert edges[..i + 1] == edges[..i] + [item] && edges[..i + 1][..i] == edges[..i];
      ListsSnoc(outgoing, edges[..i], item);
      incoming := incoming[item.to := Count(incoming, item.to) + 1];
      outgoing := outgoing[item.from := Adjacent(outgoing, item.from) + [item.to]];
    }
    assert edges[..|edges|] == edges;
  }

  method Roots(ids: seq<string>, incoming: map<string, int>) returns (queue: seq<string>)
    ensures forall v :: v in queue <==> v in ids && Count(incoming, v) == 0
    ensures Distinct(ids) ==> Distinct(queue)
  {
    queue := [];
    for i := 0 to |ids|
      invariant forall v :: v in queue <==> v in ids[..i] && Count(incoming, v) == 0
      invariant Distinct(ids) ==> Distinct(queue)
    {
      if Count(incoming, ids[i]) == 0 {
        assert Distinct(ids) ==> ids[i] !in ids[..i];
        queue := queue + [ids[i]];
      }
    }
  }

  /** Each target of the node in hand has one incoming edge less to wait for. */
  ghost predicate Decremented(incoming0: map<string, int>, incoming: map<string, int>, targets: seq<string>) {
    && incoming.Keys == incoming0.Keys
    && forall v {:trigger incoming[v]} :: v in incoming0 ==> incoming[v] == incoming0[v] - multiset(targets)[v]
  }

  ghost predicate RaisedBy(layer0: map<string, nat>, layer: map<string, nat>, targets: seq<string>, column: nat) {
    forall v {:trigger LayerOf(layer, v)} :: LayerOf(layer, v) == (if v in targets then Max(LayerOf(layer0, v), column) else LayerOf(layer0, v))
  }

  /** A node enters the queue when its count reaches zero. */
  ghost predicate Pushes(incoming0: map<string, int>, incoming: map<string, int>, pushed: seq<string>) {
    && Distinct(pushed)
    && forall v {:trigger v in pushed} :: v in pushed <==> v in incoming0 && v in incoming && incoming0[v] > 0 && incoming[v] <= 0
  }

  lemma DecrementStep(incoming0: map<string, int>, incoming: map<string, int>, targets: seq<string>, t: string, pushed: seq<string>)
    requires Decremented(incoming0, incoming, targets) && Pushes(incoming0, incoming, pushed) && t in incoming
    ensures Decremented(incoming0, incoming[t := incoming[t] - 1], targets + [t])
    ensures Pushes(incoming0, incoming[t := incoming[t] - 1], if incoming[t] == 1 then pushed + [t] else pushed)
  {
    var incoming' := incoming[t := incoming[t] - 1];
    assert incoming'.Keys == incoming.Keys;
    var pushed' := if incoming[t] == 1 then pushed + [t] else pushed;
    forall v ensures v in pushed' <==> v in incoming0 && v in incoming' && incoming0[v] > 0 && incoming'[v] <= 0 {
      assert v in pushed' <==> v in pushed || (v == t && incoming[t] == 1);
      assert t in pushed <==> incoming0[t] > 0 && incoming[t] <= 0;
    }
    if incoming[t] == 1 {
      DistinctConcat(pushed, [t]);
    }
  }

  lemma RaiseStep(layer0: map<string, nat>, layer: map<string, nat>, targets: seq<string>, column: nat, t: string)
    requires RaisedBy(layer0, layer, targets, column)
    ensures RaisedBy(layer0, layer[t := Max(LayerOf(layer, t), column)], targets + [t], column)
  {
    var layer', targets' := layer[t := Max(LayerOf(layer, t), column)], targets + [t];
    forall v ensures LayerOf(layer', v) == (if v in targets' then Max(LayerOf(layer0, v), column) else LayerOf(layer0, v)) {
      assert v in targets' <==> v in targets || v == t;
      assert LayerOf(layer', v) == if v == t then Max(LayerOf(layer, v), column) else LayerOf(layer, v);
    }
  }

  /** The body of the queue loop: follow the edges out of one node. */
  method FollowEdges(incoming0: map<string, int>, layer0: map<string, nat>, queue0: seq<string>, targets: seq<string>, current: nat)
    returns (incoming: map<string, int>, layer: map<string, nat>, queue: seq<string>, ghost pushed: seq<string>)
    requires forall v :: v in targets ==> v in incoming0
    ensures Decremented(incoming0, incoming, targets) && RaisedBy(layer0, layer, targets, current + 1)
    ensures queue == queue0 + pushed && Pushes(incoming0, incoming, pushed)
  {
    incoming, layer, queue, pushed := incoming0, layer0, queue0, [];
    ghost var followed: seq<string> := [];
    assert Pushes(incoming0, incoming, pushed);
    assert Decremented(incoming0, incoming, followed);
    assert RaisedBy(layer0, layer, followed, current + 1);
    for i := 0 to |targets|
      invariant followed == targets[..i]
      invariant Decremented(incoming0, incoming, followed) && RaisedBy(layer0, layer, followed, current + 1)
      invariant queue == queue0 + pushed && Pushes(incoming0, incoming, pushed)
    {
      incoming, layer, queue, pushed :=
        FollowEdge(incoming0, layer0, queue0, followed, current, incoming, layer, queue, pushed, targets[i]);
      followed := followed + [targets[i]];
    }
    assert followed == targets;
  }

  method FollowEdge(ghost incoming0: map<string, int>, ghost layer0: map<string, nat>, ghost queue0: seq<string>, ghost followed: seq<string>,
                    current: nat, incoming1: map<string, int>, layer1: map<string, nat>, queue1: seq<string>, ghost pushed1: seq<string>,
                    target: string)
    returns (incoming: map<string, int>, layer: map<string, nat>, queue: seq<string>, ghost pushed: seq<string>)
    requires target in incoming1
    requires Decremented(incoming0, incoming1, followed) && RaisedBy(layer0, layer1, followed, current + 1)
    requires queue1 == queue0 + pushed1 && Pushes(incoming0, incoming1, pushed1)
    ensures Decremented(incoming0, incoming, followed + [target]) && RaisedBy(layer0, layer, followed + [target], current + 1)
    ensures queue == queue0 + pushed && Pushes(incoming0, incoming, pushed)
  {
    RaiseStep(layer0, layer1, followed, current + 1, target);
    DecrementStep(incoming0, incoming1, followed, target, pushed1);
    layer := layer1[target := Max(LayerOf(layer1, target), current + 1)];
    incoming := incoming1[target := incoming1[target] - 1];
    queue, pushed := queue1, pushed1;
    if incoming[target] == 0 {
      queue, pushed := queue + [target], pushed + [target];
    }
  }

  lemma PushesUsePositive(incoming0: map<string, int>, incoming: map<string, int>, targets: seq<string>, pushed: seq<string>)
    requires Decremented(incoming0, incoming, targets) && Pushes(incoming0, incoming, pushed)
    ensures |Positive(incoming)| + |pushed| == |Positive(incoming0)|
  {
    DistinctCount(pushed);
    var crossed := set v | v in pushed;
    assert Positive(incoming0) == Positive(incoming) + crossed;
    assert Positive(incoming) !! crossed;
  }

  /** Layer bookkeeping after one node: its targets were still pending, so no settled node moves. */
  lemma LayeredStep(edges: seq<Edge>, done: set<string>, layer0: map<string, nat>, layer: map<string, nat>, u: string)
    requires Layered(edges, done, layer0) && u !in done
    requires forall v :: v in Targets(edges, u) ==> v !in done && v != u
    requires RaisedBy(layer0, layer, Targets(edges, u), LayerOf(layer0, u) + 1)
    ensures Layered(edges, done + {u}, layer)
  {
    TargetsAreSuccessors(edges, u);
    forall v | LayerOf(layer, v) != 0 ensures Reached(edges, done + {u}, layer, v) {
      if LayerOf(layer, v) == LayerOf(layer0, v) {
        assert Reached(edges, done, layer0, v);
        var w :| w in done && Connects(edges, w, v) && LayerOf(layer0, v) == LayerOf(layer0, w) + 1;
        assert w in done + {u} && LayerOf(layer, v) == LayerOf(layer, w) + 1;
      } else {
        assert Connects(edges, u, v) && u in done + {u} && LayerOf(layer, v) == LayerOf(layer, u) + 1;
      }
    }
  }

  /** What holds between two turns of the queue loop, on the graphs the layout is meant for. */
  ghost predicate QueueInv(ids: seq<string>, edges: seq<Edge>, done: set<string>, queue: seq<string>,
                           incoming: map<string, int>, layer: map<string, nat>) {
    && Distinct(queue)
    && (forall v :: v in queue ==> v in ids && v !in done)
    && (forall v :: Count(incoming, v) == PendingIn(edges, done, v))
    && (forall v :: v in ids ==> ((v in done || v in queue) <==> Count(incoming, v) == 0))
    && Layered(edges, done, layer)
  }

  lemma QueueStep(ids: seq<string>, edges: seq<Edge>, done: set<string>, u: string, queue0: seq<string>, incoming0: map<string, int>,
                  layer0: map<string, nat>, incoming: map<string, int>, layer: map<string, nat>, pushed: seq<string>)
    requires Sane(ids, edges) && QueueInv(ids, edges, done, [u] + queue0, incoming0, layer0)
    requires (forall v :: v in Targets(edges, u) ==> v in incoming0) && Decremented(incoming0, incoming, Targets(edges, u))
    requires RaisedBy(layer0, layer, Targets(edges, u), LayerOf(layer0, u) + 1)
    requires Pushes(incoming0, incoming, pushed)
    ensures QueueInv(ids, edges, done + {u}, queue0 + pushed, incoming, layer)
  {
    HeadOfQueue(u, queue0);
    forall v ensures Count(incoming, v) == PendingIn(edges, done + {u}, v) {
      PendingAfter(edges, done, u, v);
      assert v in Targets(edges, u) <==> v in multiset(Targets(edges, u));
      assert Count(incoming0, v) == PendingIn(edges, done, v);
    }
    forall v | v in Targets(edges, u) ensures v in ids && Count(incoming0, v) > 0 {
      TargetIsPending(ids, edges, done, u, v);
    }
    LayeredStep(edges, done, layer0, layer, u);
    DistinctConcat(queue0, pushed);
  }

  lemma HeadOfQueue(u: string, queue: seq<string>)
    requires Distinct([u] + queue)
    ensures Distinct(queue) && u !in queue
    ensures forall v :: v in [u] + queue <==> v == u || v in queue
  {
    var all := [u] + queue;
    assert forall i :: 0 <= i < |queue| ==> queue[i] == all[i + 1] && all[i + 1] != all[0];
  }

  lemma TargetIsPending(ids: seq<string>, edges: seq<Edge>, done: set<string>, u: string, v: string)
    requires Sane(ids, edges) && u !in done && v in Targets(edges, u)
    ensures v in ids && PendingIn(edges, done, v) > 0
  {
    TargetsAreSuccessors(edges, u);
    var k :| 0 <= k < |edges| && edges[k].from == u && edges[k].to == v;
    assert edges[k] in edges;
    PendingAfter(edges, done, u, v);
  }

  lemma DistinctConcat(a: seq<string>, b: seq<string>)
    requires Distinct(a) && Distinct(b) && forall v :: v in b ==> v !in a
    ensures Distinct(a + b)
  {
    var c := a + b;
    forall i, j | 0 <= i < j < |c| ensures c[i] != c[j] {
      assert c[i] == if i < |a| then a[i] else b[i - |a|];
      assert c[j] == if j < |a| then a[j] else b[j - |a|];
      if i < |a| <= j {
        assert a[i] in a && b[j - |a|] in b;
      }
    }
  }

  /** The columns: on the graphs the layout is meant for, each node's longest distance from a root. */
  method Layers(ids: seq<string>, edges: seq<Edge>) returns (layer: map<string, nat>)
    ensures forall v :: v in ids ==> v in layer
    ensures Sane(ids, edges) ==> forall v :: v in ids ==> LongestTo(edges, v, layer[v])
  {
    var incoming, outgoing := CountIncoming(ids, edges);
    layer := map[];
    var queue := Roots(ids, incoming);
    ghost var done: set<string> := {};
    assert Sane(ids, edges) ==> QueueInv(ids, edges, done, queue, incoming, layer);
    if queue == [] && ids != [] {
      if Sane(ids, edges) {
        NoneLeft(ids, edges, {});
        assert ids[0] in ids;
      }
      queue := [ids[0]];
    }
    while queue != []
      invariant forall e :: e in edges ==> e.to in incoming
      invariant Sane(ids, edges) ==> QueueInv(ids, edges, done, queue, incoming, layer)
      decreases |Positive(incoming)| + |queue|
    {
      var current, rest := queue[0], queue[1..];
      assert queue == [current] + rest;
      var targets := Adjacent(outgoing, current);
      forall v | v in targets ensures v in incoming {
        TargetsAreSuccessors(edges, current);
        var k :| 0 <= k < |edges| && edges[k].from == current && edges[k].to == v;
        assert edges[k] in edges;
      }
      ghost var incoming0, layer0 := incoming, layer;
      ghost var pushed;
      incoming, layer, queue, pushed := FollowEdges(incoming, layer, rest, targets, LayerOf(layer, current));
      PushesUsePositive(incoming0, incoming, targets, pushed);
      if Sane(ids, edges) {
        QueueStep(ids, edges, done, current, rest, incoming0, layer0, incoming, layer, pushed);
      }
      done := done + {current};
    }
    ghost var computed := layer;
    for i := 0 to |ids|
      invariant forall k :: 0 <= k < i ==> ids[k] in layer
      invariant forall v :: LayerOf(layer, v) == LayerOf(computed, v)
    {
      if ids[i] !in layer {
        layer := layer[ids[i] := 0];
      }
    }
    if Sane(ids, edges) {
      NoneLeft(ids, edges, done);
      forall v | v in ids ensures LongestTo(edges, v, layer[v]) {
        LayeredIsLongest(edges, done, computed, v);
        assert layer[v] == LayerOf(computed, v);
      }
    }
  }

  // ---- positions

  /** The nodes of column `n`, in node order. */
  function Column(ids: seq<string>, layer: map<string, nat>, n: nat): seq<string> {
    if ids == [] then []
    else
      var front, last := Column(ids[..|ids| - 1], layer, n), ids[|ids| - 1];
      if LayerOf(layer, last) == n then front + [last] else front
  }

  lemma ColumnElements(ids: seq<string>, layer: map<string, nat>, n: nat)
    ensures forall v :: v in Column(ids, layer, n) <==> v in ids && LayerOf(layer, v) == n
    ensures Distinct(ids) ==> Distinct(Column(ids, layer, n))
  {
    if ids != [] {
      var front, last := ids[..|ids| - 1], ids[|ids| - 1];
      ColumnElements(front, layer, n);
      assert ids == front + [last];
      if Distinct(ids) {
        assert forall i :: 0 <= i < |front| ==> front[i] == ids[i];
        assert Distinct(front) && last !in front;
        DistinctConcat(Column(front, layer, n), if LayerOf(layer, last) == n then [last] else []);
        assert Column(front, layer, n) + [] == Column(front, layer, n);
      }
    }
  }

  function SpotAt(n: nat, index: nat, height: nat): (int, int) {
    (56 + n * 310, 256 + index * 164 - (height - 1) * 82)
  }

  /** Where a node goes: its column, and its place among the nodes of that column. */
  ghost function Spot(ids: seq<string>, layer: map<string, nat>, v: string): (int, int)
    requires v in ids
  {
    ColumnElements(ids, layer, LayerOf(layer, v));
    var column := Column(ids, layer, LayerOf(layer, v));
    SpotAt(LayerOf(layer, v), PlaceOf(column, v), |column|)
  }

  lemma SpotInColumn(ids: seq<string>, layer: map<string, nat>, n: nat, i: nat)
    requires Distinct(ids) && i < |Column(ids, layer, n)|
    ensures var column := Column(ids, layer, n); column[i] in ids && Spot(ids, layer, column[i]) == SpotAt(n, i, |column|)
  {
    ColumnElements(ids, layer, n);
    assert Column(ids, layer, n)[i] in Column(ids, layer, n);
  }

  /** A column hangs centred at height 256, its nodes 164 apart in node order; columns stand 310 apart, the first at 56. */
  lemma ColumnsAreCentred(ids: seq<string>, layer: map<string, nat>, n: nat, i: nat)
    requires Distinct(ids) && i < |Column(ids, layer, n)|
    ensures var column := Column(ids, layer, n);
            && (forall v :: v in column <==> v in ids && LayerOf(layer, v) == n)
            && column[i] in ids && column[0] in ids && column[|column| - 1] in ids
            && Spot(ids, layer, column[i]).0 == 56 + 310 * n
            && Spot(ids, layer, column[0]).1 + Spot(ids, layer, column[|column| - 1]).1 == 2 * 256
            && Spot(ids, layer, column[i]).1 == Spot(ids, layer, column[0]).1 + 164 * i
  {
    ColumnElements(ids, layer, n);
    SpotInColumn(ids, layer, n, i);
    SpotInColumn(ids, layer, n, 0);
    SpotInColumn(ids, layer, n, |Column(ids, layer, n)| - 1);
  }

  /** Two nodes never get the same spot. */
  lemma SpotsDiffer(ids: seq<string>, layer: map<string, nat>, u: string, v: string)
    requires u in ids && v in ids && u != v
    ensures Spot(ids, layer, u) != Spot(ids, layer, v)
  {
    ColumnElements(ids, layer, LayerOf(layer, u));
    ColumnElements(ids, layer, LayerOf(layer, v));
  }

  /** Every edge leads strictly to the right. */
  lemma EdgesGoRight(ids: seq<string>, edges: seq<Edge>, layer: map<string, nat>, e: Edge)
    requires forall v :: v in ids ==> LongestTo(edges, v, LayerOf(layer, v))
    requires e in edges && e.from in ids && e.to in ids
    ensures Spot(ids, layer, e.from).0 + 310 <= Spot(ids, layer, e.to).0
  {
    var p :| EndsIn(edges, p, e.from) && |p| == LayerOf(layer, e.from) + 1;
    var k :| 0 <= k < |edges| && edges[k] == e;
    assert Connects(edges, e.from, e.to);
    PathSnoc(edges, p, e.to);
    assert EndsIn(edges, p + [e.to], e.to);
  }

  function GroupOf(grouped: map<nat, seq<string>>, n: nat): seq<string> {
    if n in grouped then grouped[n] else []
  }

  ghost predicate Groups(ids: seq<string>, layer: map<string, nat>, grouped: map<nat, seq<string>>) {
    forall n {:trigger GroupOf(grouped, n)} :: GroupOf(grouped, n) == Column(ids, layer, n)
  }

  ghost predicate Covers(ids: seq<string>, layer: map<string, nat>, order: seq<nat>) {
    forall v {:trigger LayerOf(layer, v)} :: v in ids ==> LayerOf(layer, v) in order
  }

  lemma GroupsSnoc(ids: seq<string>, layer: map<string, nat>, grouped: map<nat, seq<string>>, id: string)
    requires Groups(ids, layer, grouped)
    ensures var n := LayerOf(layer, id);
            Groups(ids + [id], layer, grouped[n := GroupOf(grouped, n) + [id]])
  {
    var longer, n := ids + [id], LayerOf(layer, id);
    assert longer[..|longer| - 1] == ids && longer[|longer| - 1] == id;
    forall m ensures GroupOf(grouped[n := GroupOf(grouped, n) + [id]], m) == Column(longer, layer, m) {
      assert GroupOf(grouped, m) == Column(ids, layer, m);
    }
  }

  method GroupByLayer(ids: seq<string>, layer: map<string, nat>) returns (grouped: map<nat, seq<string>>, order: seq<nat>)
    ensures Groups(ids, layer, grouped) && Covers(ids, layer, order)
    ensures forall k :: 0 <= k < |order| ==> order[k] in grouped
  {
    grouped, order := map[], [];
    for i := 0 to |ids|
      invariant Groups(ids[..i], layer, grouped) && Covers(ids[..i], layer, order)
      invariant forall n :: n in grouped ==> n in order
      invariant forall k :: 0 <= k < |order| ==> order[k] in grouped
    {
      var n := LayerOf(layer, ids[i]);
      GroupsSnoc(ids[..i], layer, grouped, ids[i]);
      assert ids[..i + 1] == ids[..i] + [ids[i]];
      if n !in grouped {
        order := order + [n];
      }
      grouped := grouped[n := GroupOf(grouped, n) + [ids[i]]];
    }
    assert ids[..|ids|] == ids;
  }

  method ArrangeColumn(ghost ids: seq<string>, ghost layer: map<string, nat>, n: nat, column: seq<string>, before: map<string, (int, int)>)
    returns (positions: map<string, (int, int)>)
    requires column == Column(ids, layer, n)
    ensures forall v :: v in column ==> Placed(ids, layer, positions, v)
    ensures forall v :: Placed(ids, layer, before, v) ==> Placed(ids, layer, positions, v)
  {
    ColumnElements(ids, layer, n);
    positions := before;
    for index := 0 to |column|
      invariant forall k :: 0 <= k < index ==> Placed(ids, layer, positions, column[k])
      invariant forall v :: Placed(ids, layer, before, v) ==> Placed(ids, layer, positions, v)
    {
      var item := column[index];
      assert item in column;
      assert Distinct(ids) ==> PlaceOf(column, item) == index;
      positions := positions[item := SpotAt(n, index, |column|)];
      assert Placed(ids, layer, positions, item);
    }
  }

  method Arrange(ids: seq<string>, layer: map<string, nat>) returns (positions: map<string, (int, int)>)
    ensures forall v :: v in ids ==> Placed(ids, layer, positions, v)
  {
    var grouped, order := GroupByLayer(ids, layer);
    positions := map[];
    ghost var arranged: set<nat> := {};
    for k := 0 to |order|
      invariant forall j :: 0 <= j < k ==> order[j] in arranged
      invariant forall v :: v in ids && LayerOf(layer, v) in arranged ==> Placed(ids, layer, positions, v)
    {
      assert GroupOf(grouped, order[k]) == Column(ids, layer, order[k]);
      positions := ArrangeColumn(ids, layer, order[k], grouped[order[k]], positions);
      ColumnElements(ids, layer, order[k]);
      arranged := arranged + {order[k]};
    }
    forall v | v in ids ensures Placed(ids, layer, positions, v) {
      assert LayerOf(layer, v) in order;
    }
  }

  ghost predicate Placed(ids: seq<string>, layer: map<string, nat>, positions: map<string, (int, int)>, v: string) {
    v in ids && v in positions && (Distinct(ids) ==> positions[v] == Spot(ids, layer, v))
  }

  /** A spot as a stored position. */
  function At(spot: (int, int)): Position {
    Position(Finite(spot.0 as real), Finite(spot.1 as real))
  }

  function PositionOf(node: Node, positions: map<string, (int, int)>): Option<Position>
    requires node.id in positions
  {
    if node.position.Some? then node.position else Some(At(positions[node.id]))
  }

  /**
   The layout keeps every node and every position it already has. On an acyclic graph with distinct ids
   and no dangling edge, a node without a position gets the spot of its longest distance from a root.
   */
  method EditorLayout(nodes: seq<Node>, edges: seq<Edge>) returns (placed: seq<Node>, ghost layer: map<string, nat>)
    ensures |placed| == |nodes|
    ensures forall i :: 0 <= i < |nodes| ==>
      placed[i].position.Some? && placed[i] == nodes[i].(position := placed[i].position)
    ensures forall i :: 0 <= i < |nodes| && nodes[i].position.Some? ==> placed[i] == nodes[i]
    ensures Sane(NodeIds(nodes), edges) ==>
      && (forall v :: v in NodeIds(nodes) ==> LongestTo(edges, v, LayerOf(layer, v)))
      && forall i :: 0 <= i < |nodes| && nodes[i].position.None? ==>
           placed[i].position == Some(At(Spot(NodeIds(nodes), layer, NodeIds(nodes)[i])))
  {
    var ids := NodeIds(nodes);
    var columns := Layers(ids, edges);
    layer := columns;
    var positions := Arrange(ids, columns);
    placed := [];
    for i := 0 to |nodes|
      invariant |placed| == i
      invariant forall k :: 0 <= k < i ==>
        (ids[k] in positions && placed[k] == nodes[k].(position := PositionOf(nodes[k], positions)))
    {
      assert ids[i] in ids && Placed(ids, columns, positions, ids[i]);
      placed := placed + [nodes[i].(position := PositionOf(nodes[i], positions))];
    }
    if Sane(ids, edges) {
      forall i | 0 <= i < |nodes| && nodes[i].position.None? ensures placed[i].position == Some(At(Spot(ids, columns, ids[i]))) {
        assert ids[i] in ids && Placed(ids, columns, positions, ids[i]);
      }
    }
  }

  // ---- edge ids

  ghost predicate UnusedBefore(repaired: seq<Edge>, j: nat, id: string)
    requires j <= |repaired|
  {
    forall i :: 0 <= i < j ==> repaired[i].id != id
  }

  /** An edge keeps its id exactly when it has one and no earlier edge of the result uses it. */
  ghost predicate RepairedAt(edges: seq<Edge>, repaired: seq<Edge>, j: nat)
    requires j < |edges| == |repaired|
  {
    && repaired[j] == edges[j].(id := repaired[j].id)
    && repaired[j].id != ""
    && UnusedBefore(repaired, j, repaired[j].id)
    && (repaired[j].id == edges[j].id <==> edges[j].id != "" && UnusedBefore(repaired, j, edges[j].id))
  }

  ghost predicate Repaired(edges: seq<Edge>, repaired: seq<Edge>) {
    |repaired| == |edges| && forall j {:trigger RepairedAt(edges, repaired, j)} :: 0 <= j < |edges| ==> RepairedAt(edges, repaired, j)
  }

  lemma RepairedSnoc(edges: seq<Edge>, repaired: seq<Edge>, e: Edge, id: string)
    requires Repaired(edges, repaired) && id != "" && UnusedBefore(repaired, |repaired|, id)
    requires id == e.id <==> e.id != "" && UnusedBefore(repaired, |repaired|, e.id)
    ensures Repaired(edges + [e], repaired + [e.(id := id)])
  {
    var edges', repaired' := edges + [e], repaired + [e.(id := id)];
    forall j | 0 <= j < |edges'| ensures RepairedAt(edges', repaired', j) {
      assert forall i :: 0 <= i < |repaired| ==> repaired'[i] == repaired[i];
      if j < |edges| {
        assert RepairedAt(edges, repaired, j);
      }
    }
  }

  lemma SnocDiffers(a: seq<Edge>, b: seq<Edge>, x: Edge, y: Edge)
    requires |a| == |b|
    ensures a + [x] == b + [y] <==> a == b && x == y
  {
    if a + [x] == b + [y] {
      assert a == (a + [x])[..|a|] && b == (b + [y])[..|b|];
      assert x == (a + [x])[|a|] && y == (b + [y])[|b|];
    }
  }

  lemma UsedSnoc(repaired: seq<Edge>, e: Edge, used: set<string>)
    requires forall id :: id in used <==> !UnusedBefore(repaired, |repaired|, id)
    ensures forall id :: id in used + {e.id} <==> !UnusedBefore(repaired + [e], |repaired| + 1, id)
  {
    var longer := repaired + [e];
    forall id ensures id in used + {e.id} <==> !UnusedBefore(longer, |longer|, id) {
      assert longer[|repaired|] == e;
      assert UnusedBefore(longer, |longer|, id) <==> UnusedBefore(repaired, |repaired|, id) && e.id != id by {
        assert forall i :: 0 <= i < |repaired| ==> longer[i] == repaired[i];
      }
    }
  }

  method RepairEdgeIds(workflowId: string, edges: seq<Edge>, Numbered: nat -> string) returns (repaired: seq<Edge>, changed: bool)
    ensures Repaired(edges, repaired)
    ensures changed <==> repaired != edges
  {
    repaired, changed := [], false;
    var used: set<string> := {};
    for i := 0 to |edges|
      invariant |repaired| == i && Repaired(edges[..i], repaired)
      invariant forall id :: id in used <==> !UnusedBefore(repaired, i, id)
      invariant changed <==> repaired != edges[..i]
    {
      var id := edges[i].id;
      if id == "" || id in used {
        id := "edge:" + workflowId + ":" + Numbered(i + 1);
        while id in used
          invariant id != ""
          decreases |AtLeastAsLong(used, id)|
        {
          LongerIsFewer(used, id, ":next");
          id := id + ":next";
        }
        changed := true;
      }
      RepairedSnoc(edges[..i], repaired, edges[i], id);
      assert edges[..i + 1] == edges[..i] + [edges[i]];
      SnocDiffers(repaired, edges[..i], edges[i].(id := id), edges[i]);
      UsedSnoc(repaired, edges[i].(id := id), used);
      used := used + {id};
      repaired := repaired + [edges[i].(id := id)];
    }
    assert edges[..|edges|] == edges;
  }

  function AtLeastAsLong(used: set<string>, id: string): set<string> {
    set u | u in used && |u| >= |id|
  }

  lemma LongerIsFewer(used: set<string>, id: string, suffix: string)
    requires id in used && suffix != ""
    ensures |AtLeastAsLong(used, id + suffix)| < |AtLeastAsLong(used, id)|
  {
    var long, longer := AtLeastAsLong(used, id), AtLeastAsLong(used, id + suffix);
    assert longer < long by {
      assert id in long && id !in longer;
    }
    SmallerSet(longer, long - {id});
  }

  /** Every edge has an id that no earlier edge uses. */
  ghost predicate Identified(edges: seq<Edge>) {
    forall j :: 0 <= j < |edges| ==> edges[j].id != "" && UnusedBefore(edges, j, edges[j].id)
  }

  /** The repair leaves edges alone exactly if their ids are present and distinct, and its result it leaves alone. */
  lemma RepairIsStable(edges: seq<Edge>, repaired: seq<Edge>)
    requires Repaired(edges, repaired)
    ensures repaired == edges <==> Identified(edges)
    ensures Identified(repaired)
  {
    forall j | 0 <= j < |repaired| ensures repaired[j].id != "" && UnusedBefore(repaired, j, repaired[j].id) {
      assert RepairedAt(edges, repaired, j);
    }
    if Identified(edges) {
      IdentifiedKeeps(edges, repaired, |edges|);
      assert repaired[..|edges|] == repaired && edges[..|edges|] == edges;
    }
  }

  lemma {:induction false} IdentifiedKeeps(edges: seq<Edge>, repaired: seq<Edge>, n: nat)
    requires Repaired(edges, repaired) && Identified(edges) && n <= |edges|
    ensures repaired[..n] == edges[..n]
  {
    if n > 0 {
      var j := n - 1;
      IdentifiedKeeps(edges, repaired, j);
      assert RepairedAt(edges, repaired, j) && UnusedBefore(edges, j, edges[j].id);
      forall i | 0 <= i < j ensures repaired[i].id != edges[j].id {
        assert repaired[..j][i] == edges[..j][i];
      }
      assert repaired[..n] == repaired[..j] + [repaired[j]] && edges[..n] == edges[..j] + [edges[j]];
    }
  }
}
