/** The logical graph and its topological order (Kahn's algorithm). */
module Dag {
  import opened Streams

  type NodeId = nat

  datatype NodeKind = Source | Operator | Sink

  datatype PartitionStrategy = Forward | Hash | Broadcast | Rebalance

  datatype LogicalNode = LogicalNode(id: NodeId, name: string, kind: NodeKind, parallelism: nat)

  datatype LogicalEdge = LogicalEdge(from: NodeId, to: NodeId, strategy: PartitionStrategy)

  // ----- reference notions -----

  /** Edges join existing nodes; the algorithm indexes its tables with their ends. */
  ghost predicate WellFormed(n: nat, edges: seq<LogicalEdge>)
  {
    forall k :: 0 <= k < |edges| ==> edges[k].from < n && edges[k].to < n
  }

  ghost predicate HasEdge(edges: seq<LogicalEdge>, u: NodeId, v: NodeId)
  {
    exists k :: 0 <= k < |edges| && edges[k].from == u && edges[k].to == v
  }

  ghost predicate Walk(edges: seq<LogicalEdge>, p: seq<NodeId>)
  {
    forall i :: 0 <= i < |p| - 1 ==> HasEdge(edges, p[i], p[i + 1])
  }

  /** Some walk of at least one edge returns to where it started. */
  ghost predicate Cyclic(edges: seq<LogicalEdge>)
  {
    exists p: seq<NodeId> :: |p| >= 2 && p[0] == p[|p| - 1] && Walk(edges, p)
  }

  ghost predicate Distinct(xs: seq<NodeId>)
  {
    forall i, j :: 0 <= i < j < |xs| ==> xs[i] != xs[j]
  }

  /** A permutation of the nodes in which every edge goes forward. */
  ghost predicate IsTopological(n: nat, edges: seq<LogicalEdge>, order: seq<NodeId>)
  {
    && |order| == n && Distinct(order)
    && (forall v: NodeId :: v in order <==> v < n)
    && (forall i, j :: 0 <= i < n && 0 <= j < n && HasEdge(edges, order[i], order[j]) ==> i < j)
  }

  // ----- counting edges -----

  function TargetOf(u: NodeId): LogicalEdge -> Option<NodeId>
  {
    (e: LogicalEdge) => if e.from == u then Some(e.to) else None
  }

  /** The successors of u, with repetition, in edge order. */
  function Targets(edges: seq<LogicalEdge>, u: NodeId): seq<NodeId> { FilterMap(edges, TargetOf(u)) }

  function Occurrences(xs: seq<NodeId>, v: NodeId): nat
  {
    if xs == [] then 0 else Occurrences(xs[1..], v) + if xs[0] == v then 1 else 0
  }

  /** Edges into v whose source is not among `done`. */
  function Waiting(edges: seq<LogicalEdge>, v: NodeId, done: set<NodeId>): nat
  {
    if edges == [] then 0
    else Waiting(edges[1..], v, done) + if edges[0].to == v && edges[0].from !in done then 1 else 0
  }

  lemma {:induction false} OccurrencesAppend(a: seq<NodeId>, b: seq<NodeId>, v: NodeId)
    ensures Occurrences(a + b, v) == Occurrences(a, v) + Occurrences(b, v)
  {
    if a == [] {
      assert a + b == b;
    } else {
      assert (a + b)[1..] == a[1..] + b;
      OccurrencesAppend(a[1..], b, v);
    }
  }

  lemma {:induction false} WaitingSnoc(edges: seq<LogicalEdge>, e: LogicalEdge, v: NodeId, done: set<NodeId>)
    ensures Waiting(edges + [e], v, done) == Waiting(edges, v, done) + if e.to == v && e.from !in done then 1 else 0
  {
    if edges == [] {
      assert (edges + [e])[1..] == [];
    } else {
      assert (edges + [e])[1..] == edges[1..] + [e];
      WaitingSnoc(edges[1..], e, v, done);
    }
  }

  lemma {:induction false} WaitingZero(edges: seq<LogicalEdge>, v: NodeId, done: set<NodeId>)
    ensures Waiting(edges, v, done) == 0 <==> forall u :: HasEdge(edges, u, v) ==> u in done
  {
    if edges != [] {
      WaitingZero(edges[1..], v, done);
      forall u ensures HasEdge(edges, u, v) <==> HasEdge(edges[1..], u, v) || (edges[0].from == u && edges[0].to == v) {
        if HasEdge(edges[1..], u, v) {
          var k :| 0 <= k < |edges[1..]| && edges[1..][k].from == u && edges[1..][k].to == v;
          assert edges[k + 1].from == u && edges[k + 1].to == v;
        }
        if HasEdge(edges, u, v) && !(edges[0].from == u && edges[0].to == v) {
          var k :| 0 <= k < |edges| && edges[k].from == u && edges[k].to == v;
          assert edges[1..][k - 1].from == u && edges[1..][k - 1].to == v;
        }
      }
      if edges[0].to == v {
        assert HasEdge(edges, edges[0].from, v);
      }
    }
  }

  /** Finishing u discharges exactly u's edges. */
  lemma {:induction false} WaitingMinusTargets(edges: seq<LogicalEdge>, v: NodeId, done: set<NodeId>, u: NodeId)
    requires u !in done
    ensures Waiting(edges, v, done) == Waiting(edges, v, done + {u}) + Occurrences(Targets(edges, u), v)
  {
    if edges != [] {
      WaitingMinusTargets(edges[1..], v, done, u);
      if edges[0].from == u {
        assert Targets(edges, u)[1..] == Targets(edges[1..], u);
      }
    }
  }

  lemma {:induction false} TargetsAreEdges(edges: seq<LogicalEdge>, u: NodeId, v: NodeId)
    ensures v in Targets(edges, u) ==> HasEdge(edges, u, v)
  {
    if edges != [] {
      TargetsAreEdges(edges[1..], u, v);
      if HasEdge(edges[1..], u, v) {
        var k :| 0 <= k < |edges[1..]| && edges[1..][k].from == u && edges[1..][k].to == v;
        assert edges[k + 1].from == u && edges[k + 1].to == v;
      }
      if edges[0].from == u && edges[0].to == v {
        assert HasEdge(edges, u, v);
      }
    }
  }

  // ----- orders exclude cycles, and a stuck graph has one -----

  lemma {:induction false} SubWalk(edges: seq<LogicalEdge>, p: seq<NodeId>, i: nat, j: nat)
    requires Walk(edges, p) && i <= j <= |p|
    ensures Walk(edges, p[i..j])
  {
    var c := p[i..j];
    forall k | 0 <= k < |c| - 1 ensures HasEdge(edges, c[k], c[k + 1]) {
      assert c[k] == p[i + k] && c[k + 1] == p[i + k + 1];
    }
  }

  lemma {:induction false} PositionsAscend(n: nat, edges: seq<LogicalEdge>, order: seq<NodeId>, p: seq<NodeId>,
                                           i: nat, j: nat)
    requires WellFormed(n, edges) && IsTopological(n, edges, order) && Walk(edges, p) && |p| >= 2
    requires i < n && j < n && order[i] == p[0] && order[j] == p[|p| - 1]
    ensures i < j
  {
    assert HasEdge(edges, p[0], p[1]);
    if |p| > 2 {
      assert p[1] in order;
      var m :| 0 <= m < n && order[m] == p[1];
      SubWalk(edges, p, 1, |p|);
      PositionsAscend(n, edges, order, p[1..], m, j);
    }
  }

  lemma {:induction false} OrderedIsAcyclic(n: nat, edges: seq<LogicalEdge>, order: seq<NodeId>)
    requires WellFormed(n, edges) && IsTopological(n, edges, order)
    ensures !Cyclic(edges)
  {
    if Cyclic(edges) {
      var p: seq<NodeId> :| |p| >= 2 && p[0] == p[|p| - 1] && Walk(edges, p);
      assert HasEdge(edges, p[0], p[1]);
      assert p[0] in order;
      var i :| 0 <= i < n && order[i] == p[0];
      PositionsAscend(n, edges, order, p, i, i);
    }
  }

  /** Every node of `stuck` has a predecessor in it. */
  ghost predicate Stuck(edges: seq<LogicalEdge>, stuck: set<NodeId>)
  {
    forall v {:trigger Preceded(edges, stuck, v)} :: v in stuck ==> Preceded(edges, stuck, v)
  }

  ghost predicate Preceded(edges: seq<LogicalEdge>, stuck: set<NodeId>, v: NodeId)
  {
    exists u :: u in stuck && HasEdge(edges, u, v)
  }

  lemma {:induction false} BackwardWalk(edges: seq<LogicalEdge>, stuck: set<NodeId>, v: NodeId,
                                        k: nat) returns (p: seq<NodeId>)
    requires Stuck(edges, stuck) && v in stuck
    ensures |p| == k + 1 && Walk(edges, p) && forall i :: 0 <= i < |p| ==> p[i] in stuck
  {
    if k == 0 {
      p := [v];
    } else {
      var rest := BackwardWalk(edges, stuck, v, k - 1);
      assert Preceded(edges, stuck, rest[0]);
      var u :| u in stuck && HasEdge(edges, u, rest[0]);
      p := [u] + rest;
      WalkCons(edges, u, rest);
    }
  }

  lemma {:induction false} WalkCons(edges: seq<LogicalEdge>, u: NodeId, rest: seq<NodeId>)
    requires rest != [] && Walk(edges, rest) && HasEdge(edges, u, rest[0])
    ensures Walk(edges, [u] + rest)
  {
    var p := [u] + rest;
    forall k | 0 <= k < |p| - 1 ensures HasEdge(edges, p[k], p[k + 1]) {
      if k > 0 {
        assert p[k] == rest[k - 1] && p[k + 1] == rest[k];
      }
    }
  }

  function Below(n: nat): (s: set<NodeId>)
    ensures |s| == n && forall v: NodeId :: v in s <==> v < n
  {
    if n == 0 then {} else Below(n - 1) + {n - 1}
  }

  function ToSet(xs: seq<NodeId>): (s: set<NodeId>)
    ensures |s| <= |xs| && forall v: NodeId :: v in s <==> v in xs
  {
    if xs == [] then {} else ToSet(xs[1..]) + {xs[0]}
  }

  lemma {:induction false} DistinctFits(xs: seq<NodeId>, s: set<NodeId>)
    requires Distinct(xs) && forall i :: 0 <= i < |xs| ==> xs[i] in s
    ensures |xs| <= |s|
  {
    if xs != [] {
      DistinctFits(xs[1..], s - {xs[0]});
    }
  }

  lemma {:induction false} StuckIsCyclic(edges: seq<LogicalEdge>, stuck: set<NodeId>)
    requires Stuck(edges, stuck) && stuck != {}
    ensures Cyclic(edges)
  {
    var v :| v in stuck;
    var p := BackwardWalk(edges, stuck, v, |stuck|);
    if Distinct(p) {
      DistinctFits(p, stuck);
    }
    var i, j :| 0 <= i < j < |p| && p[i] == p[j];
    var c := p[i..j + 1];
    SubWalk(edges, p, i, j + 1);
    assert |c| >= 2 && c[0] == c[|c| - 1];
  }

  // ----- the graph -----

  class LogicalGraph {
    var nodes: seq<LogicalNode>
    var edges: seq<LogicalEdge>

    /** Ids are positions, and edges join existing nodes. */
    ghost predicate Valid()
      reads this
    {
      && (forall i :: 0 <= i < |nodes| ==> nodes[i].id == i)
      && WellFormed(|nodes|, edges)
    }

    constructor ()
      ensures Valid() && nodes == [] && edges == []
    {
      nodes, edges := [], [];
    }

    method AddNode(name: string, kind: NodeKind, parallelism: nat) returns (id: NodeId)
      requires Valid()
      modifies this`nodes
      ensures Valid()
      ensures id == |old(nodes)| && nodes == old(nodes) + [LogicalNode(id, name, kind, parallelism)]
    {
      id := |nodes|;
      nodes := nodes + [LogicalNode(id, name, kind, parallelism)];
    }

    method AddEdge(from: NodeId, to: NodeId, strategy: PartitionStrategy)
      modifies this`edges
      ensures edges == old(edges) + [LogicalEdge(from, to, strategy)]
      ensures old(Valid()) && from < |nodes| && to < |nodes| ==> Valid()
    {
      edges := edges + [LogicalEdge(from, to, strategy)];
    }

    /** `Some` exactly when the graph is acyclic, and then a topological order of its nodes. */
    method TopologicalOrder() returns (r: Option<seq<NodeId>>)
      requires WellFormed(|nodes|, edges)
      ensures r.Some? <==> !Cyclic(edges)
      ensures r.Some? ==> IsTopological(|nodes|, edges, r.value)
    {
      var n := |nodes|;
      var inDegree := new nat[n](_ => 0);
      var adjacency := new seq<NodeId>[n](_ => []);
      CountEdges(n, inDegree, adjacency);
      var queue: seq<NodeId> := [];
      for id := 0 to n
        invariant Distinct(queue)
        invariant forall v :: v in queue <==> 0 <= v < id && inDegree[v] == 0
      {
        if inDegree[id] == 0 {
          queue := queue + [id];
        }
      }
      var order: seq<NodeId> := [];
      assert order + queue == queue;
      while queue != []
        invariant Kahn(n, edges, inDegree[..], order, queue)
        invariant forall u :: 0 <= u < n ==> adjacency[u] == Targets(edges, u)
        decreases n - |order|
      {
        var node := queue[0];
        assert queue == [node] + queue[1..];
        queue := queue[1..];
        KahnPops(n, edges, inDegree[..], order, node, queue);
        var before := order;
        order := order + [node];
        queue := Discharge(n, inDegree, adjacency, before, node, queue);
        KahnFits(n, edges, inDegree[..], order, queue);
      }
      KahnFits(n, edges, inDegree[..], order, []);
      if |order| == n {
        KahnComplete(n, edges, inDegree[..], order);
        OrderedIsAcyclic(n, edges, order);
        r := Some(order);
      } else {
        KahnStuck(n, edges, inDegree[..], order);
        r := None;
      }
    }

    method CountEdges(n: nat, inDegree: array<nat>, adjacency: array<seq<NodeId>>)
      requires n == |nodes| && WellFormed(n, edges) && inDegree.Length == adjacency.Length == n
      requires forall v :: 0 <= v < n ==> inDegree[v] == 0 && adjacency[v] == []
      modifies inDegree, adjacency
      ensures forall v :: 0 <= v < n ==> inDegree[v] == Waiting(edges, v, {})
      ensures forall v :: 0 <= v < n ==> adjacency[v] == Targets(edges, v)
    {
      for k := 0 to |edges|
        invariant forall v :: 0 <= v < n ==> inDegree[v] == Waiting(edges[..k], v, {})
        invariant forall v :: 0 <= v < n ==> adjacency[v] == Targets(edges[..k], v)
      {
        var edge := edges[k];
        assert edges[..k + 1] == edges[..k] + [edge];
        forall v | 0 <= v < n
          ensures Waiting(edges[..k + 1], v, {}) == Waiting(edges[..k], v, {}) + if edge.to == v then 1 else 0
          ensures Targets(edges[..k + 1], v) == Targets(edges[..k], v) + if edge.from == v then [edge.to] else []
        {
          WaitingSnoc(edges[..k], edge, v, {});
          FilterMapSnoc(edges[..k], edge, TargetOf(v));
        }
        adjacency[edge.from] := adjacency[edge.from] + [edge.to];
        inDegree[edge.to] := inDegree[edge.to] + 1;
      }
      assert edges[..|edges|] == edges;
    }

    /** Take `node`'s edges off their targets' in-degrees and queue those that reach zero. */
    method Discharge(n: nat, inDegree: array<nat>, adjacency: array<seq<NodeId>>, ghost before: seq<NodeId>,
                     node: NodeId, pending: seq<NodeId>)
      returns (queue: seq<NodeId>)
      requires WellFormed(n, edges) && inDegree.Length == adjacency.Length == n && node < n
      requires adjacency[node] == Targets(edges, node)
      requires Popped(n, edges, inDegree[..], before, node, pending)
      modifies inDegree
      ensures Kahn(n, edges, inDegree[..], before + [node], queue)
    {
      queue := pending;
      ghost var done := ToSet(before);
      var targets := adjacency[node];
      for m := 0 to |targets|
        invariant Distinct(before + [node] + queue)
        invariant forall v :: 0 <= v < n ==> inDegree[v] + Occurrences(targets[..m], v) == Waiting(edges, v, done)
        invariant forall v :: v in before + [node] + queue <==> 0 <= v < n && inDegree[v] == 0
      {
        var neighbor := targets[m];
        forall v | 0 <= v < n
          ensures Occurrences(targets[..m + 1], v) == Occurrences(targets[..m], v) + (if v == neighbor then 1 else 0)
        {
          NextOccurrence(targets, m, v);
        }
        TargetsAreEdges(edges, node, neighbor);
        assert inDegree[neighbor] > 0 by {
          WaitingMinusTargets(edges, neighbor, done, node);
          NextOccurrence(targets, m, neighbor);
        }
        inDegree[neighbor] := inDegree[neighbor] - 1;
        if inDegree[neighbor] == 0 {
          queue := queue + [neighbor];
          assert before + [node] + queue == (before + [node] + queue[..|queue| - 1]) + [neighbor];
        }
      }
      assert targets[..|targets|] == targets;
      assert ToSet(before + [node]) == done + {node};
      forall v | 0 <= v < n ensures inDegree[v] == Waiting(edges, v, done + {node}) {
        WaitingMinusTargets(edges, v, done, node);
      }
    }
  }

  lemma {:induction false} NextOccurrence(targets: seq<NodeId>, m: nat, v: NodeId)
    requires m < |targets|
    ensures Occurrences(targets[..m + 1], v) == Occurrences(targets[..m], v) + (if v == targets[m] then 1 else 0)
    ensures v == targets[m] ==> Occurrences(targets[..m], v) < Occurrences(targets, v)
  {
    assert targets[..m + 1] == targets[..m] + [targets[m]];
    assert targets == targets[..m] + ([targets[m]] + targets[m + 1..]);
    OccurrencesAppend(targets[..m], [targets[m]], v);
    OccurrencesAppend(targets[..m], [targets[m]] + targets[m + 1..], v);
  }

  // ----- the invariant of the main loop -----

  /** At the head of the loop: `order` is closed under predecessors and forward, and
      `order` and `queue` together are the nodes that wait for nobody. */
  ghost predicate Kahn(n: nat, edges: seq<LogicalEdge>, inDegree: seq<nat>, order: seq<NodeId>, queue: seq<NodeId>)
  {
    && |inDegree| == n && Distinct(order + queue)
    && (forall v :: 0 <= v < n ==> inDegree[v] == Waiting(edges, v, ToSet(order)))
    && (forall v :: v in order + queue <==> 0 <= v < n && inDegree[v] == 0)
    && ForwardSoFar(edges, order)
  }

  /** The predecessors of each placed node stand before it. */
  ghost predicate ForwardSoFar(edges: seq<LogicalEdge>, order: seq<NodeId>)
  {
    forall j, u :: 0 <= j < |order| && HasEdge(edges, u, order[j]) ==> u in order[..j]
  }

  /** Between taking `node` off the queue and discharging its edges. */
  ghost predicate Popped(n: nat, edges: seq<LogicalEdge>, inDegree: seq<nat>, order: seq<NodeId>, node: NodeId,
                         queue: seq<NodeId>)
  {
    && |inDegree| == n && Distinct(order + [node] + queue) && node !in order
    && (forall v :: 0 <= v < n ==> inDegree[v] == Waiting(edges, v, ToSet(order)))
    && (forall v :: v in order + [node] + queue <==> 0 <= v < n && inDegree[v] == 0)
    && ForwardSoFar(edges, order + [node])
  }

  lemma {:induction false} KahnPops(n: nat, edges: seq<LogicalEdge>, inDegree: seq<nat>, order: seq<NodeId>,
                                    node: NodeId, queue: seq<NodeId>)
    requires Kahn(n, edges, inDegree, order, [node] + queue)
    ensures Popped(n, edges, inDegree, order, node, queue) && node < n
  {
    assert order + ([node] + queue) == order + [node] + queue;
    var all := order + [node] + queue;
    assert all[|order|] == node;
    forall i | 0 <= i < |order| ensures order[i] != node {
      assert all[i] == order[i];
    }
    assert node in all;
    WaitingZero(edges, node, ToSet(order));
    var placed := order + [node];
    forall j, u | 0 <= j < |placed| && HasEdge(edges, u, placed[j]) ensures u in placed[..j] {
      if j < |order| {
        assert placed[..j] == order[..j];
      } else {
        assert placed[..j] == order;
      }
    }
  }

  lemma {:induction false} KahnFits(n: nat, edges: seq<LogicalEdge>, inDegree: seq<nat>, order: seq<NodeId>,
                                    queue: seq<NodeId>)
    requires Kahn(n, edges, inDegree, order, queue)
    ensures |order| + |queue| <= n
  {
    var all := order + queue;
    forall i | 0 <= i < |all| ensures all[i] in Below(n) {
      assert all[i] in all;
    }
    DistinctFits(all, Below(n));
  }

  lemma {:induction false} KahnComplete(n: nat, edges: seq<LogicalEdge>, inDegree: seq<nat>, order: seq<NodeId>)
    requires Kahn(n, edges, inDegree, order, []) && |order| == n
    ensures IsTopological(n, edges, order)
  {
    assert order + [] == order;
    forall v | 0 <= v < n ensures v in order {
      if v !in order {
        forall i | 0 <= i < |order| ensures order[i] in Below(n) - {v} {
          assert order[i] in order;
        }
        DistinctFits(order, Below(n) - {v});
      }
    }
    forall i, j | 0 <= i < n && 0 <= j < n && HasEdge(edges, order[i], order[j]) ensures i < j {
      assert order[i] in order[..j];
    }
  }

  lemma {:induction false} KahnStuck(n: nat, edges: seq<LogicalEdge>, inDegree: seq<nat>, order: seq<NodeId>)
    requires WellFormed(n, edges) && Kahn(n, edges, inDegree, order, []) && |order| < n
    ensures Cyclic(edges)
  {
    assert order + [] == order;
    var stuck := Below(n) - ToSet(order);
    forall v | v in stuck ensures Preceded(edges, stuck, v) {
      WaitingZero(edges, v, ToSet(order));
      var u :| HasEdge(edges, u, v) && u !in order;
      assert u in stuck;
    }
    assert stuck != {} by {
      SubsetSize(ToSet(order), Below(n));
      if stuck == {} {
        SubsetSize(Below(n), ToSet(order));
      }
    }
    StuckIsCyclic(edges, stuck);
  }
}
