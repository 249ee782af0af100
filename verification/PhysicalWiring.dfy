/** Which physical edges a graph has, by subtask index and parallelism alone. */
module PhysicalWiring {
  import opened Streams
  import opened Arithmetic
  import opened Dag
  import opened Physical

  /** A subtask of node v. */
  predicate SubtaskAt(nodes: seq<LogicalNode>, v: NodeId, t: SubtaskId)
  {
    v < |nodes| && t.node == v && t.operatorName == nodes[v].name && t.index < nodes[v].parallelism
  }

  /** What one logical edge connects: on a forward edge upstream index i with index i
      modulo the downstream parallelism, on any other every two subtasks. */
  predicate Wires(nodes: seq<LogicalNode>, e: LogicalEdge, x: PhysicalEdge)
  {
    && SubtaskAt(nodes, e.from, x.from) && SubtaskAt(nodes, e.to, x.to) && x.strategy == e.strategy
    && (e.strategy.Forward? ==> x.to.index == x.from.index % nodes[e.to].parallelism)
  }

  /** How many logical edges ask for this physical edge. */
  function Wirings(nodes: seq<LogicalNode>, edges: seq<LogicalEdge>, x: PhysicalEdge): nat
  {
    if edges == [] then 0
    else Wirings(nodes, edges[..|edges| - 1], x) + if Wires(nodes, edges[|edges| - 1], x) then 1 else 0
  }

  // ----- one logical edge -----

  ghost predicate NoRepeats(xs: seq<PhysicalEdge>) { forall i, j :: 0 <= i < j < |xs| ==> xs[i] != xs[j] }

  lemma {:induction false} OnceEach(xs: seq<PhysicalEdge>, x: PhysicalEdge)
    requires NoRepeats(xs)
    ensures multiset(xs)[x] == if x in xs then 1 else 0
  {
    if xs != [] {
      var m := |xs| - 1;
      OnceEach(xs[..m], x);
      InitAndLast(xs);
      assert xs[m] !in xs[..m];
    }
  }

  lemma {:induction false} SubtasksByIndex(nodes: seq<LogicalNode>, v: NodeId, t: SubtaskId)
    requires Numbered(nodes) && v < |nodes|
    ensures t in SubtasksOf(nodes[v]) <==> SubtaskAt(nodes, v, t)
    ensures SubtaskAt(nodes, v, t) ==> SubtasksOf(nodes[v])[t.index] == t
  {
    if SubtaskAt(nodes, v, t) {
      assert SubtasksOf(nodes[v])[t.index] == t;
    }
  }

  lemma {:induction false} ForwardWires(nodes: seq<LogicalNode>, e: LogicalEdge, x: PhysicalEdge)
    requires Numbered(nodes) && e.from < |nodes| && e.to < |nodes| && e.strategy.Forward?
    requires nodes[e.from].parallelism > 0 ==> nodes[e.to].parallelism > 0
    ensures NoRepeats(Expand(nodes, e)) && (x in Expand(nodes, e) <==> Wires(nodes, e, x))
  {
    var from, to := SubtasksOf(nodes[e.from]), SubtasksOf(nodes[e.to]);
    SubtasksByIndex(nodes, e.from, x.from);
    SubtasksByIndex(nodes, e.to, x.to);
    if Wires(nodes, e, x) {
      assert ForwardEdges(from, to)[x.from.index] == x;
    }
  }

  lemma {:induction false} AllToAllWires(from: seq<SubtaskId>, to: seq<SubtaskId>, strategy: PartitionStrategy)
    requires forall i, j :: 0 <= i < j < |from| ==> from[i] != from[j]
    requires forall i, j :: 0 <= i < j < |to| ==> to[i] != to[j]
    ensures NoRepeats(AllToAll(from, to, strategy))
    ensures forall x :: x in AllToAll(from, to, strategy) <==> x.from in from && x.to in to && x.strategy == strategy
  {
    if from != [] {
      var m := |from| - 1;
      var before, row := AllToAll(from[..m], to, strategy), FanOut(from[m], to, strategy);
      AllToAllWires(from[..m], to, strategy);
      InitAndLast(from);
      forall x ensures x in row <==> x.from == from[m] && x.to in to && x.strategy == strategy {
        if x.from == from[m] && x.to in to && x.strategy == strategy {
          var j :| 0 <= j < |to| && to[j] == x.to;
          assert row[j] == x;
        }
      }
      assert from[m] !in from[..m];
      forall i, j | 0 <= i < j < |before + row| ensures (before + row)[i] != (before + row)[j] {
        if i < |before| <= j {
          assert before[i] in before && row[j - |before|] in row;
        }
      }
    }
  }

  lemma {:induction false} ExpandWires(nodes: seq<LogicalNode>, e: LogicalEdge, x: PhysicalEdge)
    requires Numbered(nodes) && e.from < |nodes| && e.to < |nodes|
    requires e.strategy.Forward? && nodes[e.from].parallelism > 0 ==> nodes[e.to].parallelism > 0
    ensures multiset(Expand(nodes, e))[x] == if Wires(nodes, e, x) then 1 else 0
  {
    if e.strategy.Forward? {
      ForwardWires(nodes, e, x);
    } else {
      AllToAllWires(SubtasksOf(nodes[e.from]), SubtasksOf(nodes[e.to]), e.strategy);
      SubtasksByIndex(nodes, e.from, x.from);
      SubtasksByIndex(nodes, e.to, x.to);
    }
    OnceEach(Expand(nodes, e), x);
  }

  // ----- the whole graph -----

  /** Every physical edge is there exactly as often as logical edges ask for it, and nothing else is. */
  lemma {:induction false} EdgesAreWirings(nodes: seq<LogicalNode>, edges: seq<LogicalEdge>, x: PhysicalEdge)
    requires Dag.WellFormed(|nodes|, edges) && Routable(nodes, edges) && Numbered(nodes)
    ensures multiset(PhysicalEdges(nodes, edges))[x] == Wirings(nodes, edges, x)
  {
    if edges != [] {
      var m := |edges| - 1;
      EdgesAreWirings(nodes, edges[..m], x);
      ExpandWires(nodes, edges[m], x);
    }
  }

  // ----- how a forward edge shares out the upstream subtasks -----

  /** How many of the numbers below n leave the remainder j. */
  function Congruent(n: nat, q: nat, j: nat): nat
    requires q > 0
  {
    if n == 0 then 0 else Congruent(n - 1, q, j) + if (n - 1) % q == j then 1 else 0
  }

  lemma {:induction false} NextRemainder(m: nat, q: nat)
    requires q > 0
    ensures if m % q + 1 == q then (m + 1) / q == m / q + 1 && (m + 1) % q == 0
            else (m + 1) / q == m / q && (m + 1) % q == m % q + 1
  {
    var a, r := m / q, m % q;
    assert m == q * a + r;
    if r + 1 == q {
      assert q * (a + 1) == q * a + q;
      RemainderUnique(m + 1, q, a + 1, 0);
    } else {
      RemainderUnique(m + 1, q, a, r + 1);
    }
  }

  lemma {:induction false} CongruentIsShare(n: nat, q: nat, j: nat)
    requires j < q
    ensures Congruent(n, q, j) == n / q + if j < n % q then 1 else 0
  {
    if n > 0 {
      CongruentIsShare(n - 1, q, j);
      NextRemainder(n - 1, q);
    } else {
      RemainderUnique(0, q, 0, 0);
    }
  }

  function From(t: SubtaskId): PhysicalEdge -> Option<PhysicalEdge>
  {
    (x: PhysicalEdge) => if x.from == t then Some(x) else None
  }

  function Into(t: SubtaskId): PhysicalEdge -> Option<PhysicalEdge>
  {
    (x: PhysicalEdge) => if x.to == t then Some(x) else None
  }

  /** On a forward edge a downstream subtask gets its share of the upstream ones: shares
      differ by at most one, and are one each when the parallelisms are equal. */
  lemma {:induction false} ForwardIsBalanced(nodes: seq<LogicalNode>, e: LogicalEdge, t: SubtaskId)
    requires Numbered(nodes) && e.from < |nodes| && e.strategy.Forward? && SubtaskAt(nodes, e.to, t)
    ensures var p, q := nodes[e.from].parallelism, nodes[e.to].parallelism;
            && |FilterMap(Expand(nodes, e), Into(t))| == p / q + (if t.index < p % q then 1 else 0)
            && (p == q ==> |FilterMap(Expand(nodes, e), Into(t))| == 1)
  {
    var p, q := nodes[e.from].parallelism, nodes[e.to].parallelism;
    var from, to := SubtasksOf(nodes[e.from]), SubtasksOf(nodes[e.to]);
    assert to[t.index] == t by { SubtasksByIndex(nodes, e.to, t); }
    IntoPrefix(from, to, t.index, p);
    assert ForwardEdges(from, to)[..p] == ForwardEdges(from, to);
    CongruentIsShare(p, q, t.index);
    if p == q {
      RemainderUnique(p, q, 1, 0);
    }
  }

  lemma {:induction false} IntoPrefix(from: seq<SubtaskId>, to: seq<SubtaskId>, j: nat, n: nat)
    requires j < |to| && n <= |from| && forall i, k :: 0 <= i < k < |to| ==> to[i] != to[k]
    ensures |FilterMap(ForwardEdges(from, to)[..n], Into(to[j]))| == Congruent(n, |to|, j)
  {
    if n > 0 {
      var all := ForwardEdges(from, to);
      IntoPrefix(from, to, j, n - 1);
      assert all[..n] == all[..n - 1] + [all[n - 1]];
      FilterMapSnoc(all[..n - 1], all[n - 1], Into(to[j]));
    }
  }

  /** An upstream subtask has exactly one edge of a forward edge, and one to each
      downstream subtask of any other. */
  lemma {:induction false} OutEdges(nodes: seq<LogicalNode>, e: LogicalEdge, t: SubtaskId)
    requires Numbered(nodes) && e.to < |nodes| && SubtaskAt(nodes, e.from, t)
    requires e.strategy.Forward? ==> nodes[e.to].parallelism > 0
    ensures var out := FilterMap(Expand(nodes, e), From(t));
            && (e.strategy.Forward? ==>
                  var j := t.index % nodes[e.to].parallelism;
                  out == [PhysicalEdge(t, SubtaskId(e.to, nodes[e.to].name, j), Forward)])
            && (!e.strategy.Forward? ==>
                  && |out| == nodes[e.to].parallelism
                  && forall j :: 0 <= j < |out| ==>
                       out[j] == PhysicalEdge(t, SubtaskId(e.to, nodes[e.to].name, j), e.strategy))
  {
    var from, to := SubtasksOf(nodes[e.from]), SubtasksOf(nodes[e.to]);
    SubtasksByIndex(nodes, e.from, t);
    assert from[..|from|] == from;
    if e.strategy.Forward? {
      assert ForwardEdges(from, to)[..|from|] == ForwardEdges(from, to);
      FromForward(from, to, t.index, |from|);
    } else {
      FromAll(from, to, e.strategy, t.index, |from|);
    }
  }

  lemma {:induction false} FromForward(from: seq<SubtaskId>, to: seq<SubtaskId>, i: nat, n: nat)
    requires i < |from| && to != [] && n <= |from| && forall a, b :: 0 <= a < b < |from| ==> from[a] != from[b]
    ensures FilterMap(ForwardEdges(from, to)[..n], From(from[i]))
         == if i < n then [PhysicalEdge(from[i], to[i % |to|], Forward)] else []
  {
    if n > 0 {
      var all := ForwardEdges(from, to);
      FromForward(from, to, i, n - 1);
      assert all[..n] == all[..n - 1] + [all[n - 1]];
      FilterMapSnoc(all[..n - 1], all[n - 1], From(from[i]));
    }
  }

  lemma {:induction false} FromAll(from: seq<SubtaskId>, to: seq<SubtaskId>, strategy: PartitionStrategy,
                                   i: nat, n: nat)
    requires i < |from| && n <= |from| && forall a, b :: 0 <= a < b < |from| ==> from[a] != from[b]
    ensures FilterMap(AllToAll(from[..n], to, strategy), From(from[i]))
         == if i < n then seq(|to|, j requires 0 <= j < |to| => PhysicalEdge(from[i], to[j], strategy)) else []
  {
    if n > 0 {
      var row := FanOut(from[n - 1], to, strategy);
      FromAll(from, to, strategy, i, n - 1);
      assert from[..n][..n - 1] == from[..n - 1];
      FilterMapAppend(AllToAll(from[..n - 1], to, strategy), row, From(from[i]));
      FromRow(row, from[i], from[n - 1]);
    }
  }

  lemma {:induction false} FromRow(row: seq<PhysicalEdge>, t: SubtaskId, own: SubtaskId)
    requires forall j :: 0 <= j < |row| ==> row[j].from == own
    ensures FilterMap(row, From(t)) == if own == t then row else []
  {
    if row != [] {
      FromRow(row[1..], t, own);
    }
  }
}
