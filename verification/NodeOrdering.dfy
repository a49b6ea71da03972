/** Ordering a definition for sequential execution
    (orderWorkflowNodes in apps/execution-worker/src/index.ts). */
module NodeOrdering {
  import opened WorkflowGraph
  import opened WorkflowValidator

  datatype OrderResult = Ordered(nodes: seq<Node>) | Unordered

  // ---- What an execution order is ----

  /** The order holds every node of the definition once. */
  ghost predicate IsPermutation(d: Definition, order: seq<Node>) {
    multiset(order) == multiset(d.nodes)
  }

  ghost predicate Distinct(order: seq<Node>) {
    forall i, j :: 0 <= i < j < |order| ==> order[i].id != order[j].id
  }

  /** Every edge goes forward: what feeds a node has run before it. */
  ghost predicate EdgesForward(edges: seq<Edge>, order: seq<Node>) {
    forall i, a :: 0 <= i < |order| && HasEdge(edges, a, order[i].id) ==>
      exists j :: 0 <= j < i && order[j].id == a
  }

  ghost predicate TriggersFirst(order: seq<Node>) {
    forall i, j :: 0 <= i < j < |order| && order[j].kind.ManualTrigger? ==> order[i].kind.ManualTrigger?
  }

  ghost predicate IsExecutionOrder(d: Definition, order: seq<Node>) {
    IsPermutation(d, order) && Distinct(order) && EdgesForward(d.edges, order) && TriggersFirst(order)
  }

  /** What the ordering needs of ids and endpoints; every accepted definition has it. */
  ghost predicate Orderable(d: Definition) {
    UniqueNodeIds(d) && EndpointsExist(d) && TriggersHaveNoIncoming(d) && "" !in NodeIds(d.nodes)
  }

  lemma AcceptedIsOrderable(d: Definition)
    requires Accepted(d)
    ensures Orderable(d)
  {
  }

  // ---- State of the queue loop ----

  ghost predicate IndexesNodes(nodes: seq<Node>, byId: map<string, Node>) {
    && byId.Keys == NodeIds(nodes)
    && forall id :: id in byId ==> byId[id] in nodes && byId[id].id == id
  }

  /** The nodes emitted so far are distinct, and their ids are the visited set. */
  ghost predicate Emitted(byId: map<string, Node>, visited: set<string>, order: seq<Node>) {
    && Distinct(order)
    && visited == NodeIds(order) <= byId.Keys
    && (forall i :: 0 <= i < |order| ==> order[i].id in byId && byId[order[i].id] == order[i])
  }

  /** Whoever is queued is a known node with nothing pending, and is a trigger or is fed by an edge. */
  ghost predicate QueueReady(d: Definition, visited: set<string>, queue: seq<string>) {
    forall q :: q in queue ==>
      && q in NodeIds(d.nodes)
      && PendingInDegree(d.edges, q, visited) == 0
      && TriggerOrFed(d, q)
  }

  ghost predicate TriggerOrFed(d: Definition, n: string) {
    n in TriggerIds(d.nodes) || exists a :: HasEdge(d.edges, a, n)
  }

  /** Nobody who is ready is forgotten: neither triggers nor fed nodes with nothing pending. */
  ghost predicate NobodyForgotten(d: Definition, visited: set<string>, queue: seq<string>) {
    && (forall t :: t in TriggerIds(d.nodes) ==> t in visited || t in queue)
    && (forall a, n :: HasEdge(d.edges, a, n) && PendingInDegree(d.edges, n, visited) == 0 ==>
          n in visited || n in queue)
  }

  ghost predicate TriggersLead(d: Definition, ids: seq<string>) {
    forall i, j :: 0 <= i < j < |ids| && ids[j] in TriggerIds(d.nodes) ==> ids[i] in TriggerIds(d.nodes)
  }

  /** What holds of an orderable definition at every turn of the loop. */
  ghost predicate LoopState(d: Definition, visited: set<string>, order: seq<Node>, queue: seq<string>) {
    && QueueReady(d, visited, queue)
    && NobodyForgotten(d, visited, queue)
    && EdgesForward(d.edges, order)
    && (forall i :: 0 <= i < |order| ==> TriggerOrFed(d, order[i].id))
    && TriggersLead(d, IdList(order) + queue)
  }

  // ---- Building blocks ----

  lemma IndexStep(nodes: seq<Node>, k: nat, byId: map<string, Node>)
    requires k < |nodes| && IndexesNodes(nodes[..k], byId)
    ensures IndexesNodes(nodes[..k + 1], byId[nodes[k].id := nodes[k]])
  {
    NodeSetsStep(nodes, k);
    var next := byId[nodes[k].id := nodes[k]];
    assert nodes[..k + 1] == nodes[..k] + [nodes[k]];
    forall id | id in next ensures next[id] in nodes[..k + 1] && next[id].id == id {
      if id != nodes[k].id { assert byId[id] in nodes[..k]; }
    }
  }

  method IndexNodes(nodes: seq<Node>) returns (byId: map<string, Node>, counts: map<string, int>)
    ensures IndexesNodes(nodes, byId)
    ensures forall n :: CountOf(counts, n) == 0
  {
    byId, counts := map[], map[];
    for k := 0 to |nodes|
      invariant IndexesNodes(nodes[..k], byId)
      invariant forall n :: n in counts ==> counts[n] == 0
    {
      IndexStep(nodes, k, byId);
      byId := byId[nodes[k].id := nodes[k]];
      counts := counts[nodes[k].id := 0];
    }
    assert nodes[..|nodes|] == nodes;
  }

  /** The ids of the manual triggers, in definition order. */
  function TriggerList(nodes: seq<Node>): seq<string> {
    if nodes == [] then []
    else
      var n := nodes[|nodes| - 1];
      TriggerList(nodes[..|nodes| - 1]) + (if n.kind.ManualTrigger? then [n.id] else [])
  }

  lemma {:induction false} TriggerListElements(nodes: seq<Node>)
    ensures forall t :: t in TriggerList(nodes) <==> t in TriggerIds(nodes)
  {
    if nodes != [] {
      var k := |nodes| - 1;
      TriggerListElements(nodes[..k]);
      NodeSetsStep(nodes, k);
      assert nodes[..k + 1] == nodes;
    }
  }

  /** Settling the edges of one node: counts go down per listed target, and the targets whose
      count arrives at zero are queued. */
  method Release(targets: seq<string>, counts: map<string, int>)
    returns (counts': map<string, int>, pushed: seq<string>)
    requires forall t :: t in targets ==> t in counts
    ensures counts'.Keys == counts.Keys
    ensures forall t :: CountOf(counts', t) == CountOf(counts, t) - Occurrences(targets, t)
    ensures forall t :: t in pushed ==> t in targets && CountOf(counts', t) <= 0
    ensures forall t :: t in targets && CountOf(counts, t) > 0 && CountOf(counts', t) <= 0 ==> t in pushed
  {
    counts', pushed := counts, [];
    for k := 0 to |targets|
      invariant counts'.Keys == counts.Keys
      invariant forall t :: CountOf(counts', t) == CountOf(counts, t) - Occurrences(targets[..k], t)
      invariant forall t :: t in pushed ==> t in targets && CountOf(counts', t) <= 0
      invariant forall t :: CountOf(counts, t) > 0 && CountOf(counts', t) <= 0 ==> t in pushed
    {
      var t := targets[k];
      assert targets[..k + 1][..k] == targets[..k];
      var next := (if t in counts' then counts'[t] else 1) - 1;
      counts' := counts'[t := next];
      if next == 0 {
        pushed := pushed + [t];
      }
    }
    assert targets[..|targets|] == targets;
  }

  // ---- One visit keeps the loop state ----

  /** `pushed` holds the targets of `n` that visiting `n` leaves with nothing pending. */
  ghost predicate Released(d: Definition, visited: set<string>, n: string, pushed: seq<string>) {
    && (forall t :: t in pushed ==> HasEdge(d.edges, n, t) && PendingInDegree(d.edges, t, visited + {n}) == 0)
    && (forall t :: HasEdge(d.edges, n, t) && PendingInDegree(d.edges, t, visited) > 0 ==>
          PendingInDegree(d.edges, t, visited + {n}) > 0 || t in pushed)
  }

  lemma ReleasedAreNoTriggers(d: Definition, visited: set<string>, n: string, pushed: seq<string>, ids: seq<string>)
    requires TriggersHaveNoIncoming(d) && Released(d, visited, n, pushed) && TriggersLead(d, ids)
    ensures TriggersLead(d, ids + pushed)
  {
    forall t | t in pushed ensures t !in TriggerIds(d.nodes) {
      assert HasEdge(d.edges, n, t);
    }
  }

  lemma EmitKeepsEmitted(byId: map<string, Node>, visited: set<string>, order: seq<Node>, n: string)
    requires Emitted(byId, visited, order) && n in byId && n !in visited && byId[n].id == n
    ensures Emitted(byId, visited + {n}, order + [byId[n]])
    ensures IdList(order + [byId[n]]) == IdList(order) + [n]
  {
    var next := order + [byId[n]];
    NodeSetsStep(next, |order|);
    assert next[..|order|] == order && next[..|order| + 1] == next;
  }

  lemma VisitKeepsLoopState(
      d: Definition, byId: map<string, Node>, visited: set<string>, order: seq<Node>,
      queue: seq<string>, pushed: seq<string>)
    requires EndpointsExist(d) && TriggersHaveNoIncoming(d) && IndexesNodes(d.nodes, byId)
    requires Emitted(byId, visited, order) && LoopState(d, visited, order, queue)
    requires queue != [] && queue[0] !in visited && queue[0] in byId
    requires Released(d, visited, queue[0], pushed)
    ensures LoopState(d, visited + {queue[0]}, order + [byId[queue[0]]], queue[1..] + pushed)
  {
    var n := queue[0];
    assert n in queue;
    EmitKeepsEmitted(byId, visited, order, n);
    VisitKeepsQueueReady(d, visited, queue, pushed);
    VisitForgetsNobody(d, visited, queue, pushed);
    VisitKeepsEdgesForward(d, byId, visited, order, n);
    ReleasedAreNoTriggers(d, visited, n, pushed, IdList(order) + queue);
    MoveHeadOver(IdList(order), queue, pushed);
  }

  lemma MoveHeadOver(ids: seq<string>, queue: seq<string>, pushed: seq<string>)
    requires queue != []
    ensures ids + [queue[0]] + (queue[1..] + pushed) == ids + queue + pushed
  {
  }

  lemma PendingOnlyFalls(edges: seq<Edge>, t: string, visited: set<string>, n: string)
    ensures PendingInDegree(edges, t, visited + {n}) <= PendingInDegree(edges, t, visited)
  {
    if n in visited {
      assert visited + {n} == visited;
    } else {
      PendingAfterDone(edges, t, visited, n);
    }
  }

  lemma VisitKeepsQueueReady(d: Definition, visited: set<string>, queue: seq<string>, pushed: seq<string>)
    requires EndpointsExist(d) && queue != [] && QueueReady(d, visited, queue)
    requires Released(d, visited, queue[0], pushed)
    ensures QueueReady(d, visited + {queue[0]}, queue[1..] + pushed)
  {
    forall q | q in queue[1..] + pushed
      ensures q in NodeIds(d.nodes) && PendingInDegree(d.edges, q, visited + {queue[0]}) == 0 && TriggerOrFed(d, q)
    {
      if q in pushed {
      } else {
        assert q in queue;
        PendingOnlyFalls(d.edges, q, visited, queue[0]);
      }
    }
  }

  lemma VisitForgetsNobody(d: Definition, visited: set<string>, queue: seq<string>, pushed: seq<string>)
    requires queue != [] && queue[0] !in visited && NobodyForgotten(d, visited, queue)
    requires Released(d, visited, queue[0], pushed)
    ensures NobodyForgotten(d, visited + {queue[0]}, queue[1..] + pushed)
  {
    var n := queue[0];
    var done := visited + {n};
    assert forall t :: t in queue ==> t == n || t in queue[1..];
    forall a, m | HasEdge(d.edges, a, m) && PendingInDegree(d.edges, m, done) == 0
      ensures m in done || m in queue[1..] + pushed
    {
      if PendingInDegree(d.edges, m, visited) > 0 {
        PendingAfterDone(d.edges, m, visited, n);
        OccurrencesPositive(Targets(d.edges, n), m);
        TargetsAreEdges(d.edges, n, m);
      }
    }
  }

  lemma VisitKeepsEdgesForward(
      d: Definition, byId: map<string, Node>, visited: set<string>, order: seq<Node>, n: string)
    requires Emitted(byId, visited, order) && EdgesForward(d.edges, order)
    requires n in byId && byId[n].id == n && PendingInDegree(d.edges, n, visited) == 0
    ensures EdgesForward(d.edges, order + [byId[n]])
  {
    var order' := order + [byId[n]];
    forall i, a | 0 <= i < |order'| && HasEdge(d.edges, a, order'[i].id)
      ensures exists j :: 0 <= j < i && order'[j].id == a
    {
      if i < |order| {
        var j :| 0 <= j < i && order[j].id == a;
        assert order'[j].id == a;
      } else {
        PendingZero(d.edges, n, visited);
        assert a in NodeIds(order);
        var j :| 0 <= j < |order| && order[j].id == a;
        assert order'[j].id == a;
      }
    }
  }

  // ---- What an empty queue means ----

  /** With nothing queued, every node that triggers lead to has been visited: an unvisited node would
      have an unvisited predecessor, and so on down its finite set of ancestors. */
  lemma {:induction false} ReachedIsVisited(d: Definition, visited: set<string>, n: string)
    requires Acyclic(d.edges) && NobodyForgotten(d, visited, []) && EndpointsExist(d) && AllFromTrigger(d)
    requires n in NodeIds(d.nodes)
    ensures n in visited
    decreases Ancestors(d.edges, n)
  {
    if n !in TriggerIds(d.nodes) {
      var p :| IsWalk(d.edges, p) && p[0] in TriggerIds(d.nodes) && p[|p| - 1] == n;
      assert HasEdge(d.edges, p[|p| - 2], n);
      forall a | HasEdge(d.edges, a, n) ensures a in visited {
        AncestorsGrow(d.edges, a, n);
        ReachedIsVisited(d, visited, a);
      }
      PendingZero(d.edges, n, visited);
    }
  }

  lemma {:induction false} DistinctSize(nodes: seq<Node>)
    requires Distinct(nodes)
    ensures |NodeIds(nodes)| == |nodes|
  {
    if nodes != [] {
      var k := |nodes| - 1;
      DistinctSize(nodes[..k]);
      NodeSetsStep(nodes, k);
      assert nodes[..k + 1] == nodes;
    }
  }

  lemma {:induction false} DistinctMultiset(nodes: seq<Node>, x: Node)
    requires Distinct(nodes)
    ensures multiset(nodes)[x] == if x in nodes then 1 else 0
  {
    if nodes != [] {
      var k := |nodes| - 1;
      DistinctMultiset(nodes[..k], x);
      assert nodes == nodes[..k] + [nodes[k]];
    }
  }

  lemma SubsetOfSameSize(small: set<string>, big: set<string>)
    requires small <= big && |small| == |big|
    ensures small == big
  {
    assert |big - small| == 0;
  }

  lemma AllEmittedIsPermutation(d: Definition, byId: map<string, Node>, visited: set<string>, order: seq<Node>)
    requires UniqueNodeIds(d) && IndexesNodes(d.nodes, byId) && Emitted(byId, visited, order)
    requires visited == NodeIds(d.nodes)
    ensures IsPermutation(d, order)
  {
    forall x ensures multiset(order)[x] == multiset(d.nodes)[x] {
      DistinctMultiset(order, x);
      DistinctMultiset(d.nodes, x);
      if x in d.nodes {
        assert x.id in NodeIds(order);
        var i :| 0 <= i < |order| && order[i].id == x.id;
        assert byId[x.id] in d.nodes && order[i] == byId[x.id];
      }
      if x in order {
        var i :| 0 <= i < |order| && order[i] == x;
        assert byId[order[i].id] == x;
      }
    }
  }

  /** Walks go strictly forward in an order that edges go forward in. */
  lemma {:induction false} WalksForward(edges: seq<Edge>, order: seq<Node>, p: seq<string>, j: nat)
    requires EdgesForward(edges, order) && IsWalk(edges, p) && |p| >= 2
    requires j < |order| && order[j].id == p[|p| - 1]
    ensures exists i :: 0 <= i < j && order[i].id == p[0]
    decreases |p|
  {
    var a := p[|p| - 2];
    assert HasEdge(edges, a, p[|p| - 1]);
    var i: nat :| i < j && order[i].id == a;
    if |p| > 2 {
      var q := p[..|p| - 1];
      assert IsWalk(edges, q) && q[0] == p[0] && q[|q| - 1] == a;
      WalksForward(edges, order, q, i);
    }
  }

  lemma OrderIsAcyclic(d: Definition, order: seq<Node>)
    requires EndpointsExist(d) && Distinct(order) && EdgesForward(d.edges, order)
    requires NodeIds(order) == NodeIds(d.nodes)
    ensures Acyclic(d.edges)
  {
    forall n ensures !Reaches(d.edges, n, n) {
      if Reaches(d.edges, n, n) {
        var p :| |p| >= 2 && IsWalkBetween(d.edges, p, n, n);
        assert HasEdge(d.edges, p[0], p[1]);
        assert n in NodeIds(order);
        var j :| 0 <= j < |order| && order[j].id == n;
        WalksForward(d.edges, order, p, j);
      }
    }
  }

  lemma {:induction false} OrderIsReached(d: Definition, order: seq<Node>, i: nat)
    requires EdgesForward(d.edges, order) && i < |order|
    requires forall k :: 0 <= k < |order| ==> TriggerOrFed(d, order[k].id)
    ensures FromTrigger(d, order[i].id)
    decreases i
  {
    var n := order[i].id;
    if n in TriggerIds(d.nodes) {
      assert IsWalk(d.edges, [n]);
    } else {
      var a :| HasEdge(d.edges, a, n);
      var j :| 0 <= j < i && order[j].id == a;
      OrderIsReached(d, order, j);
      FromTriggerExtends(d, a, n);
    }
  }

  lemma FromTriggerExtends(d: Definition, a: string, n: string)
    requires FromTrigger(d, a) && HasEdge(d.edges, a, n)
    ensures FromTrigger(d, n)
  {
    var p :| IsWalk(d.edges, p) && p[0] in TriggerIds(d.nodes) && p[|p| - 1] == a;
    WalkConcat(d.edges, p, [a, n]);
    assert p + [a, n][1..] == p + [n];
  }

  lemma TriggersLeadMeansFirst(d: Definition, byId: map<string, Node>, visited: set<string>, order: seq<Node>)
    requires UniqueNodeIds(d) && IndexesNodes(d.nodes, byId) && Emitted(byId, visited, order)
    requires TriggersLead(d, IdList(order))
    ensures TriggersFirst(order)
  {
    forall i | 0 <= i < |order|
      ensures order[i].kind.ManualTrigger? <==> IdList(order)[i] in TriggerIds(d.nodes)
    {
      assert byId[order[i].id] in d.nodes;
      if order[i].id in TriggerIds(d.nodes) {
        var k :| 0 <= k < |d.nodes| && d.nodes[k].kind.ManualTrigger? && d.nodes[k].id == order[i].id;
      }
    }
  }

  lemma FullOrderIsExecutionOrder(d: Definition, byId: map<string, Node>, visited: set<string>, order: seq<Node>)
    requires Orderable(d) && IndexesNodes(d.nodes, byId) && Emitted(byId, visited, order)
    requires EdgesForward(d.edges, order) && TriggersLead(d, IdList(order)) && |order| == |d.nodes|
    ensures visited == NodeIds(d.nodes) && IsExecutionOrder(d, order) && Acyclic(d.edges)
  {
    DistinctSize(order);
    DistinctSize(d.nodes);
    SubsetOfSameSize(visited, NodeIds(d.nodes));
    AllEmittedIsPermutation(d, byId, visited, order);
    TriggersLeadMeansFirst(d, byId, visited, order);
    OrderIsAcyclic(d, order);
  }

  lemma FullOrderIsReached(d: Definition, order: seq<Node>)
    requires EdgesForward(d.edges, order) && NodeIds(order) == NodeIds(d.nodes)
    requires forall k :: 0 <= k < |order| ==> TriggerOrFed(d, order[k].id)
    ensures AllFromTrigger(d)
  {
    forall n | n in NodeIds(d.nodes) ensures FromTrigger(d, n) {
      var i :| 0 <= i < |order| && order[i].id == n;
      OrderIsReached(d, order, i);
    }
  }

  lemma ReachedOrderIsFull(d: Definition, byId: map<string, Node>, visited: set<string>, order: seq<Node>)
    requires Orderable(d) && IndexesNodes(d.nodes, byId) && Emitted(byId, visited, order)
    requires NobodyForgotten(d, visited, []) && AllFromTrigger(d) && Acyclic(d.edges)
    ensures |order| == |d.nodes|
  {
    DistinctSize(order);
    DistinctSize(d.nodes);
    forall n | n in NodeIds(d.nodes) ensures n in visited { ReachedIsVisited(d, visited, n); }
    assert visited == NodeIds(d.nodes);
  }

  /** When the queue is empty, all nodes are out exactly when the validator's two walks accept. */
  lemma EmptyQueueMeansDone(d: Definition, byId: map<string, Node>, visited: set<string>, order: seq<Node>)
    requires Orderable(d) && IndexesNodes(d.nodes, byId) && Emitted(byId, visited, order)
    requires LoopState(d, visited, order, [])
    ensures |order| == |d.nodes| <==> AllFromTrigger(d) && Acyclic(d.edges)
    ensures |order| == |d.nodes| ==> IsExecutionOrder(d, order)
  {
    if |order| == |d.nodes| {
      assert IdList(order) + [] == IdList(order);
      FullOrderIsExecutionOrder(d, byId, visited, order);
      FullOrderIsReached(d, order);
    } else if AllFromTrigger(d) && Acyclic(d.edges) {
      ReachedOrderIsFull(d, byId, visited, order);
    }
  }

  lemma StartState(d: Definition)
    requires Orderable(d)
    ensures LoopState(d, {}, [], TriggerList(d.nodes))
  {
    TriggerListElements(d.nodes);
    FedTriggers(d);
    forall t | t in TriggerIds(d.nodes) ensures t in NodeIds(d.nodes) {
    }
    forall a, n | HasEdge(d.edges, a, n) ensures PendingInDegree(d.edges, n, {}) > 0 {
      PendingZero(d.edges, n, {});
    }
    assert IdList([]) + TriggerList(d.nodes) == TriggerList(d.nodes);
  }

  lemma DropKeepsLoopState(d: Definition, visited: set<string>, order: seq<Node>, queue: seq<string>)
    requires LoopState(d, visited, order, queue) && queue != [] && queue[0] in visited
    ensures LoopState(d, visited, order, queue[1..])
  {
    assert forall t :: t in queue ==> t == queue[0] || t in queue[1..];
    var ids, ids' := IdList(order) + queue, IdList(order) + queue[1..];
    forall i, j | 0 <= i < j < |ids'| && ids'[j] in TriggerIds(d.nodes) ensures ids'[i] in TriggerIds(d.nodes) {
      var up := (k: int) => if k < |order| then k else k + 1;
      assert ids'[i] == ids[up(i)] && ids'[j] == ids[up(j)];
    }
  }

  /** Sequential ordering. On ids and endpoints that make sense it succeeds exactly when every node is
      reachable from a trigger and there is no cycle, and then yields an execution order; so on accepted
      definitions the `workflow_definition_unordered` error is unreachable. */
  method OrderWorkflowNodes(d: Definition) returns (r: OrderResult)
    ensures Orderable(d) ==> (r.Ordered? <==> AllFromTrigger(d) && Acyclic(d.edges))
    ensures Orderable(d) && r.Ordered? ==> IsExecutionOrder(d, r.nodes)
    ensures Accepted(d) ==> r.Ordered?
    ensures r.Ordered? ==> |r.nodes| == |d.nodes|
  {
    var byId, zeros := IndexNodes(d.nodes);
    var out, counts := IndexEdges(d.edges, zeros);
    var queue := TriggerList(d.nodes);
    var order: seq<Node>, visited: set<string> := [], {};
    ghost var orderable := Orderable(d);
    if orderable { StartState(d); }
    if Accepted(d) { AcceptedIsOrderable(d); }
    while queue != []
      invariant Emitted(byId, visited, order)
      invariant EdgeTargets(d.edges) <= counts.Keys
      invariant forall t :: CountOf(counts, t) == PendingInDegree(d.edges, t, visited)
      invariant orderable ==> LoopState(d, visited, order, queue)
      decreases byId.Keys - visited, |queue|
    {
      var nodeId := queue[0];
      assert nodeId in queue;
      if nodeId == "" || nodeId in visited || nodeId !in byId {
        if orderable { DropKeepsLoopState(d, visited, order, queue); }
        queue := queue[1..];
        continue;
      }
      counts, queue, visited, order := VisitNode(d, byId, out, counts, queue, visited, order);
    }
    if orderable { EmptyQueueMeansDone(d, byId, visited, order); }
    if |order| != |d.nodes| {
      return Unordered;
    }
    return Ordered(order);
  }

  /** One turn of the loop that emits a node. */
  method VisitNode(d: Definition, byId: map<string, Node>, out: map<string, seq<string>>,
                   counts: map<string, int>, queue: seq<string>, visited: set<string>, order: seq<Node>)
    returns (counts': map<string, int>, queue': seq<string>, visited': set<string>, order': seq<Node>)
    requires queue != [] && queue[0] in byId && queue[0] !in visited
    requires IndexesNodes(d.nodes, byId) && IsAdjacency(out, d.edges) && Emitted(byId, visited, order)
    requires EdgeTargets(d.edges) <= counts.Keys
    requires forall t :: CountOf(counts, t) == PendingInDegree(d.edges, t, visited)
    requires Orderable(d) ==> LoopState(d, visited, order, queue)
    ensures visited' == visited + {queue[0]} && order' == order + [byId[queue[0]]]
    ensures Emitted(byId, visited', order') && counts'.Keys == counts.Keys
    ensures forall t :: CountOf(counts', t) == PendingInDegree(d.edges, t, visited')
    ensures Orderable(d) ==> LoopState(d, visited', order', queue')
  {
    var nodeId := queue[0];
    var targets := Successors(out, nodeId);
    forall t ensures t in targets <==> HasEdge(d.edges, nodeId, t) { TargetsAreEdges(d.edges, nodeId, t); }
    visited' := visited + {nodeId};
    order' := order + [byId[nodeId]];
    EmitKeepsEmitted(byId, visited, order, nodeId);
    var pushed: seq<string>;
    counts', pushed := Release(targets, counts);
    forall t ensures CountOf(counts', t) == PendingInDegree(d.edges, t, visited') {
      PendingAfterDone(d.edges, t, visited, nodeId);
    }
    queue' := queue[1..] + pushed;
    if Orderable(d) {
      assert Released(d, visited, nodeId, pushed);
      VisitKeepsLoopState(d, byId, visited, order, queue, pushed);
    }
  }
}
