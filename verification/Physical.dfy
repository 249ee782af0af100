/** From the logical graph to subtasks on slots and the edges between them. */
module Physical {
  import opened Streams
  import opened Dag
  import Slots = SlotQueues
  import SlotTheorems

  datatype SubtaskId = SubtaskId(node: NodeId, operatorName: string, index: nat)

  datatype Assignment = Assignment(subtask: SubtaskId, slot: Slots.Slot)

  datatype PhysicalEdge = PhysicalEdge(from: SubtaskId, to: SubtaskId, strategy: PartitionStrategy)

  datatype PhysicalGraph = PhysicalGraph(assignments: seq<Assignment>, edges: seq<PhysicalEdge>)

  datatype ScheduleError = CycleFound | NotEnoughSlots(need: nat, have: nat) | RanOut

  datatype Result<+T, +E> = Success(value: T) | Failure(error: E)

  // ----- subtasks -----

  function Demand(nodes: seq<LogicalNode>): nat
  {
    if nodes == [] then 0 else nodes[0].parallelism + Demand(nodes[1..])
  }

  function SubtasksOf(node: LogicalNode): seq<SubtaskId>
  {
    seq(node.parallelism, i requires 0 <= i => SubtaskId(node.id, node.name, i))
  }

  ghost predicate InRange(order: seq<NodeId>, n: nat) { forall i :: 0 <= i < |order| ==> order[i] < n }

  /** The subtasks in the order in which they take slots. */
  function Subtasks(nodes: seq<LogicalNode>, order: seq<NodeId>): seq<SubtaskId>
    requires InRange(order, |nodes|)
  {
    if order == [] then [] else SubtasksOf(nodes[order[0]]) + Subtasks(nodes, order[1..])
  }

  ghost predicate Numbered(nodes: seq<LogicalNode>) { forall i :: 0 <= i < |nodes| ==> nodes[i].id == i }

  lemma {:induction false} SubtasksAppend(nodes: seq<LogicalNode>, a: seq<NodeId>, b: seq<NodeId>)
    requires InRange(a, |nodes|) && InRange(b, |nodes|)
    ensures InRange(a + b, |nodes|) && Subtasks(nodes, a + b) == Subtasks(nodes, a) + Subtasks(nodes, b)
  {
    if a == [] {
      assert a + b == b;
    } else {
      assert (a + b)[1..] == a[1..] + b;
      SubtasksAppend(nodes, a[1..], b);
    }
  }

  /** Which subtasks there are: index below the parallelism of a listed node. */
  lemma {:induction false} SubtaskMember(nodes: seq<LogicalNode>, order: seq<NodeId>, t: SubtaskId)
    requires InRange(order, |nodes|) && Numbered(nodes)
    ensures t in Subtasks(nodes, order) <==>
              t.node in order && t.operatorName == nodes[t.node].name && t.index < nodes[t.node].parallelism
  {
    if order != [] {
      SubtaskMember(nodes, order[1..], t);
      var own := SubtasksOf(nodes[order[0]]);
      if t.node == order[0] && t.operatorName == nodes[t.node].name && t.index < nodes[t.node].parallelism {
        assert own[t.index] == t;
      }
    }
  }

  lemma {:induction false} SubtasksDistinct(nodes: seq<LogicalNode>, order: seq<NodeId>)
    requires InRange(order, |nodes|) && Numbered(nodes) && Distinct(order)
    ensures forall i, j :: 0 <= i < j < |Subtasks(nodes, order)| ==>
              Subtasks(nodes, order)[i] != Subtasks(nodes, order)[j]
  {
    if order != [] {
      var own, rest := SubtasksOf(nodes[order[0]]), Subtasks(nodes, order[1..]);
      SubtasksDistinct(nodes, order[1..]);
      forall i, j | 0 <= i < j < |own + rest| ensures (own + rest)[i] != (own + rest)[j] {
        if i < |own| <= j {
          SubtaskMember(nodes, order[1..], rest[j - |own|]);
          assert rest[j - |own|] in rest;
        }
      }
    }
  }

  function ParallelismOf(nodes: seq<LogicalNode>, v: NodeId): nat
  {
    if v < |nodes| then nodes[v].parallelism else 0
  }

  function DemandOver(nodes: seq<LogicalNode>, order: seq<NodeId>): nat
  {
    if order == [] then 0 else ParallelismOf(nodes, order[0]) + DemandOver(nodes, order[1..])
  }

  lemma {:induction false} SubtasksLength(nodes: seq<LogicalNode>, order: seq<NodeId>)
    requires InRange(order, |nodes|)
    ensures |Subtasks(nodes, order)| == DemandOver(nodes, order)
  {
    if order != [] {
      SubtasksLength(nodes, order[1..]);
    }
  }

  lemma {:induction false} DemandAppend(nodes: seq<LogicalNode>, a: seq<NodeId>, b: seq<NodeId>)
    ensures DemandOver(nodes, a + b) == DemandOver(nodes, a) + DemandOver(nodes, b)
  {
    if a == [] {
      assert a + b == b;
    } else {
      assert (a + b)[1..] == a[1..] + b;
      DemandAppend(nodes, a[1..], b);
    }
  }

  /** The demand of a permutation of the first m nodes is theirs. */
  lemma {:induction false} DemandOfPermutation(nodes: seq<LogicalNode>, order: seq<NodeId>, m: nat)
    requires m <= |nodes| && |order| == m && Distinct(order) && forall v: NodeId :: v in order <==> v < m
    ensures DemandOver(nodes, order) == Demand(nodes[..m])
  {
    if m > 0 {
      assert m - 1 in order;
      var i :| 0 <= i < m && order[i] == m - 1;
      WithoutOne(order, i, m);
      DemandWithoutOne(nodes, order, i);
      DemandOfPermutation(nodes, order[..i] + order[i + 1..], m - 1);
      DemandSnoc(nodes, m - 1);
    }
  }

  lemma {:induction false} DemandWithoutOne(nodes: seq<LogicalNode>, order: seq<NodeId>, i: nat)
    requires i < |order|
    ensures DemandOver(nodes, order) == DemandOver(nodes, order[..i] + order[i + 1..]) + ParallelismOf(nodes, order[i])
  {
    var a, b := order[..i], order[i + 1..];
    assert order == a + ([order[i]] + b);
    DemandAppend(nodes, a, [order[i]] + b);
    DemandAppend(nodes, a, b);
    assert ([order[i]] + b)[1..] == b;
  }

  lemma {:induction false} WithoutOne(order: seq<NodeId>, i: nat, m: nat)
    requires i < |order| == m && order[i] == m - 1 && Distinct(order) && forall v: NodeId :: v in order <==> v < m
    ensures var rest := order[..i] + order[i + 1..];
            Distinct(rest) && forall v: NodeId :: v in rest <==> v < m - 1
  {
    var rest := order[..i] + order[i + 1..];
    assert forall k :: 0 <= k < |rest| ==> rest[k] == order[if k < i then k else k + 1];
    forall v: NodeId ensures v in rest <==> v < m - 1 {
      if v < m - 1 {
        assert v in order;
        var k :| 0 <= k < m && order[k] == v;
        assert rest[if k < i then k else k - 1] == v;
      }
      if v in rest {
        var k :| 0 <= k < |rest| && rest[k] == v;
        assert order[if k < i then k else k + 1] == v;
        assert v in order;
      }
    }
  }

  lemma {:induction false} DemandConcat(xs: seq<LogicalNode>, ys: seq<LogicalNode>)
    ensures Demand(xs + ys) == Demand(xs) + Demand(ys)
  {
    if xs == [] {
      assert xs + ys == ys;
    } else {
      assert (xs + ys)[1..] == xs[1..] + ys;
      DemandConcat(xs[1..], ys);
    }
  }

  lemma {:induction false} DemandSnoc(nodes: seq<LogicalNode>, m: nat)
    requires m < |nodes|
    ensures Demand(nodes[..m + 1]) == Demand(nodes[..m]) + nodes[m].parallelism
  {
    assert nodes[..m + 1] == nodes[..m] + [nodes[m]];
    DemandConcat(nodes[..m], [nodes[m]]);
    assert [nodes[m]][1..] == [];
  }

  // ----- edges -----

  /** Downstream subtasks of a non-empty upstream exist where a forward edge divides by their number. */
  ghost predicate Routable(nodes: seq<LogicalNode>, edges: seq<LogicalEdge>)
    requires Dag.WellFormed(|nodes|, edges)
  {
    forall k :: 0 <= k < |edges| && edges[k].strategy.Forward? && nodes[edges[k].from].parallelism > 0 ==>
      nodes[edges[k].to].parallelism > 0
  }

  function OfNode(v: NodeId): Assignment -> Option<SubtaskId>
  {
    (a: Assignment) => if a.subtask.node == v then Some(a.subtask) else None
  }

  /** One-to-one, wrapping round the downstream subtasks. */
  function ForwardEdges(from: seq<SubtaskId>, to: seq<SubtaskId>): seq<PhysicalEdge>
    requires from != [] ==> to != []
  {
    seq(|from|, i requires 0 <= i < |from| => PhysicalEdge(from[i], to[i % |to|], Forward))
  }

  function FanOut(from: SubtaskId, to: seq<SubtaskId>, strategy: PartitionStrategy): seq<PhysicalEdge>
  {
    seq(|to|, j requires 0 <= j < |to| => PhysicalEdge(from, to[j], strategy))
  }

  function AllToAll(from: seq<SubtaskId>, to: seq<SubtaskId>, strategy: PartitionStrategy): seq<PhysicalEdge>
  {
    if from == [] then [] else AllToAll(from[..|from| - 1], to, strategy) + FanOut(from[|from| - 1], to, strategy)
  }

  /** The physical edges of one logical edge. */
  function Expand(nodes: seq<LogicalNode>, e: LogicalEdge): seq<PhysicalEdge>
    requires e.from < |nodes| && e.to < |nodes|
    requires e.strategy.Forward? && nodes[e.from].parallelism > 0 ==> nodes[e.to].parallelism > 0
  {
    if e.strategy.Forward? then ForwardEdges(SubtasksOf(nodes[e.from]), SubtasksOf(nodes[e.to]))
    else AllToAll(SubtasksOf(nodes[e.from]), SubtasksOf(nodes[e.to]), e.strategy)
  }

  /** The physical edges of the whole graph: they depend on the graph alone. */
  function PhysicalEdges(nodes: seq<LogicalNode>, edges: seq<LogicalEdge>): seq<PhysicalEdge>
    requires Dag.WellFormed(|nodes|, edges) && Routable(nodes, edges)
  {
    if edges == [] then []
    else PhysicalEdges(nodes, edges[..|edges| - 1]) + Expand(nodes, edges[|edges| - 1])
  }

  lemma {:induction false} OwnSubtasks(nodes: seq<LogicalNode>, order: seq<NodeId>, assignments: seq<Assignment>,
                                       v: NodeId)
    requires InRange(order, |nodes|) && Numbered(nodes) && Distinct(order) && v < |nodes|
    requires |assignments| == |Subtasks(nodes, order)|
    requires forall i :: 0 <= i < |assignments| ==> assignments[i].subtask == Subtasks(nodes, order)[i]
    ensures FilterMap(assignments, OfNode(v)) == if v in order then SubtasksOf(nodes[v]) else []
  {
    if order != [] {
      var own := SubtasksOf(nodes[order[0]]);
      var a, b := assignments[..|own|], assignments[|own|..];
      assert assignments == a + b;
      FilterMapAppend(a, b, OfNode(v));
      OwnBlock(nodes[order[0]], a, v);
      OwnSubtasks(nodes, order[1..], b, v);
      assert v == order[0] ==> v !in order[1..];
    }
  }

  lemma {:induction false} OwnBlock(node: LogicalNode, a: seq<Assignment>, v: NodeId)
    requires |a| <= node.parallelism && forall i :: 0 <= i < |a| ==> a[i].subtask == SubtasksOf(node)[i]
    ensures FilterMap(a, OfNode(v)) == if node.id == v then SubtasksOf(node)[..|a|] else []
  {
    if a != [] {
      var m := |a| - 1;
      OwnBlock(node, a[..m], v);
      assert a == a[..m] + [a[m]];
      FilterMapSnoc(a[..m], a[m], OfNode(v));
      assert SubtasksOf(node)[..|a|] == SubtasksOf(node)[..m] + [SubtasksOf(node)[m]];
    }
  }

  /** `generate_edges`: per logical edge, filter the two ends' subtasks and connect them. */
  method GenerateEdges(nodes: seq<LogicalNode>, logicalEdges: seq<LogicalEdge>,
                       assignments: seq<Assignment>, ghost order: seq<NodeId>)
    returns (edges: seq<PhysicalEdge>)
    requires Dag.WellFormed(|nodes|, logicalEdges) && Routable(nodes, logicalEdges) && Numbered(nodes)
    requires IsTopological(|nodes|, logicalEdges, order)
    requires InRange(order, |nodes|) && |assignments| == |Subtasks(nodes, order)|
    requires forall i :: 0 <= i < |assignments| ==> assignments[i].subtask == Subtasks(nodes, order)[i]
    ensures edges == PhysicalEdges(nodes, logicalEdges)
  {
    edges := [];
    for k := 0 to |logicalEdges|
      invariant edges == PhysicalEdges(nodes, logicalEdges[..k])
    {
      var e := logicalEdges[k];
      assert logicalEdges[..k + 1][..k] == logicalEdges[..k];
      OwnSubtasks(nodes, order, assignments, e.from);
      OwnSubtasks(nodes, order, assignments, e.to);
      var fromSubtasks := FilterMap(assignments, OfNode(e.from));
      var toSubtasks := FilterMap(assignments, OfNode(e.to));
      var added: seq<PhysicalEdge>;
      if e.strategy.Forward? {
        added := ConnectForward(fromSubtasks, toSubtasks);
      } else {
        added := ConnectAll(fromSubtasks, toSubtasks, e.strategy);
      }
      edges := edges + added;
    }
    assert logicalEdges[..|logicalEdges|] == logicalEdges;
  }

  method ConnectForward(fromSubtasks: seq<SubtaskId>, toSubtasks: seq<SubtaskId>) returns (edges: seq<PhysicalEdge>)
    requires fromSubtasks != [] ==> toSubtasks != []
    ensures edges == ForwardEdges(fromSubtasks, toSubtasks)
  {
    edges := [];
    for i := 0 to |fromSubtasks|
      invariant edges == ForwardEdges(fromSubtasks, toSubtasks)[..i]
    {
      edges := edges + [PhysicalEdge(fromSubtasks[i], toSubtasks[i % |toSubtasks|], Forward)];
    }
  }

  method ConnectAll(fromSubtasks: seq<SubtaskId>, toSubtasks: seq<SubtaskId>, strategy: PartitionStrategy)
    returns (edges: seq<PhysicalEdge>)
    ensures edges == AllToAll(fromSubtasks, toSubtasks, strategy)
  {
    edges := [];
    for i := 0 to |fromSubtasks|
      invariant edges == AllToAll(fromSubtasks[..i], toSubtasks, strategy)
    {
      ghost var before := edges;
      for j := 0 to |toSubtasks|
        invariant edges == before + FanOut(fromSubtasks[i], toSubtasks, strategy)[..j]
      {
        edges := edges + [PhysicalEdge(fromSubtasks[i], toSubtasks[j], strategy)];
      }
      assert fromSubtasks[..i + 1][..i] == fromSubtasks[..i];
    }
    assert fromSubtasks[..|fromSubtasks|] == fromSubtasks;
  }

  // ----- scheduling -----

  /** A successful schedule: subtasks in topological order take slots from the end of the queue. */
  ghost predicate Scheduled(nodes: seq<LogicalNode>, edges: seq<LogicalEdge>, offers: seq<Slots.SlotOffer>,
                            strategy: Slots.Strategy, order: seq<NodeId>, assignments: seq<Assignment>)
  {
    && IsTopological(|nodes|, edges, order) && InRange(order, |nodes|)
    && |assignments| == |Subtasks(nodes, order)| <= |Slots.SlotQueue(offers, strategy)|
    && forall i :: 0 <= i < |assignments| ==>
         assignments[i] == Assignment(Subtasks(nodes, order)[i],
                                      Slots.SlotQueue(offers, strategy)[|Slots.SlotQueue(offers, strategy)| - 1 - i])
  }

  /** `schedule` succeeds exactly when the graph is acyclic and the offers have
      room; it never runs out of slots half way. */
  method Schedule(graph: LogicalGraph, offers: seq<Slots.SlotOffer>, strategy: Slots.Strategy)
    returns (r: Result<PhysicalGraph, ScheduleError>, ghost order: seq<NodeId>)
    requires graph.Valid() && Routable(graph.nodes, graph.edges) && Slots.AllSound(offers)
    ensures r == Failure(CycleFound) <==> Cyclic(graph.edges)
    ensures !Cyclic(graph.edges) ==>
              (r.Success? <==> Demand(graph.nodes) <= Slots.Free(offers))
              && (r.Failure? ==> r.error == NotEnoughSlots(Demand(graph.nodes), Slots.Free(offers)))
    ensures r.Success? ==>
              && Scheduled(graph.nodes, graph.edges, offers, strategy, order, r.value.assignments)
              && r.value.edges == PhysicalEdges(graph.nodes, graph.edges)
  {
    order := [];
    var topo := graph.TopologicalOrder();
    if topo.None? {
      return Failure(CycleFound), [];
    }
    var total, available := Demand(graph.nodes), Slots.Free(offers);
    if total > available {
      return Failure(NotEnoughSlots(total, available)), [];
    }
    order := topo.value;
    var physical := Place(graph.nodes, graph.edges, topo.value, offers, strategy);
    r := Success(physical);
  }

  /** The rest of `schedule`, once an order is found and there is room. */
  method Place(nodes: seq<LogicalNode>, edges: seq<LogicalEdge>, topo: seq<NodeId>,
               offers: seq<Slots.SlotOffer>, strategy: Slots.Strategy) returns (physical: PhysicalGraph)
    requires Dag.WellFormed(|nodes|, edges) && Routable(nodes, edges) && Numbered(nodes)
    requires IsTopological(|nodes|, edges, topo)
    requires Slots.AllSound(offers) && Demand(nodes) <= Slots.Free(offers)
    ensures Scheduled(nodes, edges, offers, strategy, topo, physical.assignments)
    ensures physical.edges == PhysicalEdges(nodes, edges)
  {
    var queue := Slots.BuildSlotQueue(offers, strategy);
    assert |queue| == Slots.Free(offers) by { SlotTheorems.QueueHoldsAll(offers, strategy); }
    TotalDemand(nodes, edges, topo);
    var assignments := Assign(nodes, topo, queue);
    var physicalEdges := GenerateEdges(nodes, edges, assignments, topo);
    physical := PhysicalGraph(assignments, physicalEdges);
  }

  lemma {:induction false} TotalDemand(nodes: seq<LogicalNode>, edges: seq<LogicalEdge>, order: seq<NodeId>)
    requires IsTopological(|nodes|, edges, order)
    ensures InRange(order, |nodes|) && |Subtasks(nodes, order)| == Demand(nodes)
  {
    forall i | 0 <= i < |order| ensures order[i] < |nodes| {
      assert order[i] in order;
    }
    SubtasksLength(nodes, order);
    DemandOfPermutation(nodes, order, |nodes|);
    assert nodes[..|nodes|] == nodes;
  }

  /** The assignment loop; `queue` is popped from the end. */
  method Assign(nodes: seq<LogicalNode>, topo: seq<NodeId>,
                queue: seq<Slots.Slot>) returns (assignments: seq<Assignment>)
    requires InRange(topo, |nodes|) && Numbered(nodes) && |Subtasks(nodes, topo)| <= |queue|
    ensures |assignments| == |Subtasks(nodes, topo)|
    ensures forall i :: 0 <= i < |assignments| ==>
              assignments[i] == Assignment(Subtasks(nodes, topo)[i], queue[|queue| - 1 - i])
  {
    assignments := [];
    var slots := queue;
    for k := 0 to |topo|
      invariant InRange(topo[..k], |nodes|) && |assignments| == |Subtasks(nodes, topo[..k])|
      invariant |assignments| <= |Subtasks(nodes, topo)| && slots == queue[..|queue| - |assignments|]
      invariant forall i :: 0 <= i < |assignments| ==>
                  assignments[i] == Assignment(Subtasks(nodes, topo[..k])[i], queue[|queue| - 1 - i])
    {
      var node := nodes[topo[k]];
      ghost var before := assignments;
      ghost var done := Subtasks(nodes, topo[..k]);
      AssignNext(nodes, topo, k);
      for index := 0 to node.parallelism
        invariant |assignments| == |done| + index && slots == queue[..|queue| - |assignments|]
        invariant forall i :: 0 <= i < |assignments| ==>
                    assignments[i] == Assignment((done + SubtasksOf(node))[i], queue[|queue| - 1 - i])
      {
        var slot := slots[|slots| - 1];
        slots := slots[..|slots| - 1];
        assignments := assignments + [Assignment(SubtaskId(topo[k], node.name, index), slot)];
      }
    }
    assert topo[..|topo|] == topo;
  }

  lemma {:induction false} AssignNext(nodes: seq<LogicalNode>, topo: seq<NodeId>, k: nat)
    requires InRange(topo, |nodes|) && k < |topo|
    ensures InRange(topo[..k], |nodes|) && InRange(topo[..k + 1], |nodes|)
    ensures Subtasks(nodes, topo[..k + 1]) == Subtasks(nodes, topo[..k]) + SubtasksOf(nodes[topo[k]])
    ensures |Subtasks(nodes, topo[..k + 1])| <= |Subtasks(nodes, topo)|
  {
    assert topo[..k + 1] == topo[..k] + [topo[k]];
    assert topo == topo[..k + 1] + topo[k + 1..];
    SubtasksAppend(nodes, topo[..k], [topo[k]]);
    SubtasksAppend(nodes, topo[..k + 1], topo[k + 1..]);
    assert [topo[k]][1..] == [];
  }

  ghost predicate SubtasksDiffer(assignments: seq<Assignment>)
  {
    forall i, j :: 0 <= i < j < |assignments| ==> assignments[i].subtask != assignments[j].subtask
  }

  ghost predicate SlotsDiffer(assignments: seq<Assignment>)
  {
    forall i, j :: 0 <= i < j < |assignments| ==> assignments[i].slot != assignments[j].slot
  }

  /** Exclusive: no subtask is placed twice, and no two share a slot when no slot is
      offered twice; a schedule that needs every slot shares one exactly when one is
      offered twice. */
  lemma {:induction false} ScheduleIsExclusive(nodes: seq<LogicalNode>, edges: seq<LogicalEdge>,
                                               offers: seq<Slots.SlotOffer>,
                            strategy: Slots.Strategy, order: seq<NodeId>, assignments: seq<Assignment>)
    requires Numbered(nodes) && Scheduled(nodes, edges, offers, strategy, order, assignments)
    ensures SubtasksDiffer(assignments)
    ensures SlotTheorems.Disjoint(offers) ==> SlotsDiffer(assignments)
    ensures |assignments| == Slots.Free(offers) ==> (SlotsDiffer(assignments) <==> SlotTheorems.Disjoint(offers))
  {
    var q := Slots.SlotQueue(offers, strategy);
    SubtasksDistinct(nodes, order);
    SlotTheorems.QueueIsExact(offers, strategy);
    if SlotsDiffer(assignments) && |assignments| == |q| {
      forall i, j | 0 <= i < j < |q| ensures q[i] != q[j] {
        assert assignments[|q| - 1 - j].slot == q[j] && assignments[|q| - 1 - i].slot == q[i];
      }
    }
  }

  /** Total: a subtask is placed if and only if it is one of the graph's. */
  lemma {:induction false} ScheduleIsTotal(nodes: seq<LogicalNode>, edges: seq<LogicalEdge>,
                                           offers: seq<Slots.SlotOffer>,
                        strategy: Slots.Strategy, order: seq<NodeId>, assignments: seq<Assignment>, t: SubtaskId)
    requires Numbered(nodes) && Scheduled(nodes, edges, offers, strategy, order, assignments)
    ensures (exists i :: 0 <= i < |assignments| && assignments[i].subtask == t) <==>
              t.node < |nodes| && t.operatorName == nodes[t.node].name && t.index < nodes[t.node].parallelism
  {
    var tasks := Subtasks(nodes, order);
    SubtaskMember(nodes, order, t);
    if t in tasks {
      var i :| 0 <= i < |tasks| && tasks[i] == t;
      assert assignments[i].subtask == t;
    }
    if i :| 0 <= i < |assignments| && assignments[i].subtask == t {
      assert tasks[i] in tasks;
    }
  }

  /** Every slot handed out is a free one of an offered TaskManager. */
  lemma {:induction false} ScheduleUsesFreeSlots(nodes: seq<LogicalNode>, edges: seq<LogicalEdge>,
                                                 offers: seq<Slots.SlotOffer>,
                              strategy: Slots.Strategy, order: seq<NodeId>, assignments: seq<Assignment>, i: nat)
    requires Scheduled(nodes, edges, offers, strategy, order, assignments) && i < |assignments|
    ensures exists k :: 0 <= k < |offers| && offers[k].taskManager == assignments[i].slot.taskManager
                        && offers[k].used <= assignments[i].slot.index < offers[k].total
  {
    var q := Slots.SlotQueue(offers, strategy);
    SlotTheorems.QueueIsExact(offers, strategy);
    assert q[|q| - 1 - i] in q;
  }

  /** The slots a schedule takes are the placement that the queue theorems speak of. */
  lemma {:induction false} ScheduleUsesPlacement(nodes: seq<LogicalNode>, edges: seq<LogicalEdge>,
                                                 offers: seq<Slots.SlotOffer>,
                              strategy: Slots.Strategy, order: seq<NodeId>, assignments: seq<Assignment>)
    requires Numbered(nodes) && Scheduled(nodes, edges, offers, strategy, order, assignments)
    ensures forall s :: s in SlotTheorems.Placement(offers, strategy, Demand(nodes)) <==>
              exists i :: 0 <= i < |assignments| && assignments[i].slot == s
  {
    var q, placed := Slots.SlotQueue(offers, strategy), SlotTheorems.Placement(offers, strategy, Demand(nodes));
    TotalDemand(nodes, edges, order);
    forall s ensures s in placed <==> exists i :: 0 <= i < |assignments| && assignments[i].slot == s {
      if s in placed {
        var p :| 0 <= p < |placed| && placed[p] == s;
        assert assignments[|placed| - 1 - p].slot == q[|q| - |placed| + p] == s;
      }
      if exists i :: 0 <= i < |assignments| && assignments[i].slot == s {
        var i :| 0 <= i < |assignments| && assignments[i].slot == s;
        assert placed[|placed| - 1 - i] == q[|q| - 1 - i] == s;
      }
    }
  }
}
