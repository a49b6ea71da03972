/** The contract validator of workflow definitions
    (packages/contracts/src/workflow-definition.ts). */
module WorkflowValidator {
  import opened WorkflowGraph

  const MAX_NODES := 100
  const MAX_EDGES := 200
  const MAX_ID_LENGTH := 80

  // ---- What the object schema checks before the refinement ----

  predicate IsIdStart(c: char) {
    'A' <= c <= 'Z' || 'a' <= c <= 'z' || '0' <= c <= '9'
  }

  predicate IsIdChar(c: char) {
    IsIdStart(c) || c == '.' || c == '_' || c == ':' || c == '-'
  }

  predicate ValidId(s: string) {
    1 <= |s| <= MAX_ID_LENGTH && IsIdStart(s[0]) && forall i :: 0 <= i < |s| ==> IsIdChar(s[i])
  }

  predicate ObjectSchema(d: Definition) {
    && 1 <= |d.nodes| <= MAX_NODES
    && |d.edges| <= MAX_EDGES
    && (forall i :: 0 <= i < |d.nodes| ==> ValidId(d.nodes[i].id))
    && (forall i :: 0 <= i < |d.edges| ==>
          ValidId(d.edges[i].id) && ValidId(d.edges[i].source) && ValidId(d.edges[i].target))
  }

  // ---- What a definition must be, in graph terms ----

  ghost predicate UniqueNodeIds(d: Definition) {
    forall i, j :: 0 <= i < j < |d.nodes| ==> d.nodes[i].id != d.nodes[j].id
  }

  ghost predicate EndpointsExist(d: Definition) {
    forall i :: 0 <= i < |d.edges| ==>
      d.edges[i].source in NodeIds(d.nodes) && d.edges[i].target in NodeIds(d.nodes)
  }

  ghost predicate TriggersHaveNoIncoming(d: Definition) {
    forall a, t :: t in TriggerIds(d.nodes) ==> !HasEdge(d.edges, a, t)
  }

  /** There is a walk from some manual trigger to `n`. */
  ghost predicate FromTrigger(d: Definition, n: string) {
    exists p :: IsWalk(d.edges, p) && p[0] in TriggerIds(d.nodes) && p[|p| - 1] == n
  }

  ghost predicate AllFromTrigger(d: Definition) {
    forall n :: n in NodeIds(d.nodes) ==> FromTrigger(d, n)
  }

  /** The requirements on ids, pairs and endpoints, apart from the two graph walks. */
  ghost predicate Structural(d: Definition) {
    && UniqueNodeIds(d)
    && TriggerIds(d.nodes) != {}
    && (forall i, j :: 0 <= i < j < |d.edges| ==> d.edges[i].id != d.edges[j].id)
    && EndpointsExist(d)
    && (forall i, j :: 0 <= i < j < |d.edges| ==>
          (d.edges[i].source, d.edges[i].target) != (d.edges[j].source, d.edges[j].target))
    && TriggersHaveNoIncoming(d)
  }

  /** What the validator is for: a definition that passes it is exactly this. */
  ghost predicate Accepted(d: Definition) {
    ObjectSchema(d) && Structural(d) && AllFromTrigger(d) && Acyclic(d.edges)
  }

  // ---- The issues the refinement reports, each with its exact condition ----

  datatype Issue =
    | DuplicateNodeId(index: nat)
    | NoTrigger
    | DuplicateEdgeId(index: nat)
    | UnknownSource(index: nat)
    | UnknownTarget(index: nat)
    | SelfLoop(index: nat)
    | DuplicatePair(index: nat)
    | TriggerHasIncoming
    | Unreachable
    | Cyclic

  function PairKey(e: Edge): string { e.source + "->" + e.target }

  /** A walk the breadth-first search can follow: it skips empty ids. */
  ghost predicate Followed(edges: seq<Edge>, triggers: set<string>, n: string) {
    exists p :: IsWalk(edges, p) && p[0] in triggers && p[|p| - 1] == n && "" !in p
  }

  /** Some cycle can be reached from `root`. */
  ghost predicate CyclicFrom(edges: seq<Edge>, root: string) {
    exists c :: (c == root || Reaches(edges, root, c)) && Reaches(edges, c, c)
  }

  ghost predicate Applies(d: Definition, x: Issue) {
    match x
    case DuplicateNodeId(i) => i < |d.nodes| && exists j :: 0 <= j < i && d.nodes[j].id == d.nodes[i].id
    case NoTrigger => TriggerIds(d.nodes) == {}
    case DuplicateEdgeId(i) => i < |d.edges| && exists j :: 0 <= j < i && d.edges[j].id == d.edges[i].id
    case UnknownSource(i) => i < |d.edges| && d.edges[i].source !in NodeIds(d.nodes)
    case UnknownTarget(i) => i < |d.edges| && d.edges[i].target !in NodeIds(d.nodes)
    case SelfLoop(i) => i < |d.edges| && d.edges[i].source == d.edges[i].target
    case DuplicatePair(i) => i < |d.edges| && exists j :: 0 <= j < i && PairKey(d.edges[j]) == PairKey(d.edges[i])
    case TriggerHasIncoming => !TriggersHaveNoIncoming(d)
    case Unreachable => exists n :: n in NodeIds(d.nodes) && !Followed(d.edges, TriggerIds(d.nodes), n)
    case Cyclic => exists n :: n in NodeIds(d.nodes) && CyclicFrom(d.edges, n)
  }

  // ---- Breadth-first reachability ----

  lemma {:induction false} FollowedStaysMarked(
      edges: seq<Edge>, triggers: set<string>, marked: set<string>, p: seq<string>)
    requires forall t :: t in triggers && t != "" ==> t in marked
    requires forall a, b :: a in marked && HasEdge(edges, a, b) && b != "" ==> b in marked
    requires IsWalk(edges, p) && p[0] in triggers && "" !in p
    ensures p[|p| - 1] in marked
  {
    if |p| > 1 {
      var q := p[..|p| - 1];
      FollowedStaysMarked(edges, triggers, marked, q);
      assert HasEdge(edges, p[|p| - 2], p[|p| - 1]);
    }
  }

  lemma FollowedExtends(edges: seq<Edge>, triggers: set<string>, a: string, b: string)
    requires Followed(edges, triggers, a) && HasEdge(edges, a, b) && b != ""
    ensures Followed(edges, triggers, b)
  {
    var p :| IsWalk(edges, p) && p[0] in triggers && p[|p| - 1] == a && "" !in p;
    WalkConcat(edges, p, [a, b]);
    var q := p + [a, b][1..];
    assert IsWalk(edges, q) && q[0] in triggers && q[|q| - 1] == b && "" !in q;
  }

  /** The queue walk marks exactly the ids that a trigger leads to. */
  method MarkReachable(triggers: seq<string>, out: map<string, seq<string>>, ghost edges: seq<Edge>)
    returns (marked: set<string>)
    requires IsAdjacency(out, edges)
    ensures forall n :: n in marked <==> Followed(edges, Elements(triggers), n)
  {
    ghost var starts := Elements(triggers);
    ghost var universe := starts + EdgeTargets(edges);
    AdjacencyEdges(out, edges);
    marked := {};
    var queue := triggers;
    forall t | t in triggers && t != "" ensures Followed(edges, starts, t) {
      assert IsWalk(edges, [t]) && [t][0] in starts;
    }
    while queue != []
      invariant forall t :: t in queue ==> t in universe && (t != "" ==> Followed(edges, starts, t))
      invariant forall n :: n in marked ==> n != "" && n in universe && Followed(edges, starts, n)
      invariant forall t :: t in starts && t != "" ==> t in marked || t in queue
      invariant forall a, b :: a in marked && HasEdge(edges, a, b) && b != "" ==> b in marked || b in queue
      decreases universe - marked, |queue|
    {
      var nodeId := queue[0];
      assert forall t :: t in queue ==> t == nodeId || t in queue[1..];
      if nodeId == "" || nodeId in marked {
        queue := queue[1..];
        continue;
      }
      ghost var before := universe - marked;
      marked := marked + {nodeId};
      assert universe - marked < before by { assert nodeId in before; }
      forall t | t in Successors(out, nodeId)
        ensures t in universe && (t != "" ==> Followed(edges, starts, t))
      {
        assert HasEdge(edges, nodeId, t);
        if t != "" { FollowedExtends(edges, starts, nodeId, t); }
      }
      queue := queue[1..] + Successors(out, nodeId);
    }
    forall n | Followed(edges, starts, n) ensures n in marked {
      var p :| IsWalk(edges, p) && p[0] in starts && p[|p| - 1] == n && "" !in p;
      FollowedStaysMarked(edges, starts, marked, p);
    }
  }

  // ---- Depth-first cycle search ----

  /** The closure state of the recursive `visit`: the two id sets it mutates. */
  class CycleSearch {
    var visited: set<string>
    var visiting: set<string>

    constructor ()
      ensures visited == {} && visiting == {}
    {
      visited, visiting := {}, {};
    }

    /** `stack` is the chain of calls in progress, a walk that ends in `nodeId`. */
    method Visit(nodeId: string, out: map<string, seq<string>>,
                 ghost edges: seq<Edge>, ghost universe: set<string>, ghost stack: seq<string>)
      returns (ok: bool)
      requires IsAdjacency(out, edges) && EdgeTargets(edges) <= universe
      requires nodeId in universe && visiting <= universe
      requires Finished(edges, visited, visiting) && IsStack(edges, visiting, stack, nodeId)
      modifies this
      ensures ok ==> Finished(edges, visited, visiting) && old(visited) <= visited
      ensures ok ==> visiting == old(visiting) && nodeId in visited
      ensures !ok ==> CyclicFrom(edges, stack[0])
      decreases universe - visiting, 1
    {
      if nodeId in visiting {
        StackClosesCycle(edges, visiting, stack, nodeId);
        return false;
      }
      if nodeId in visited {
        return true;
      }
      visiting := visiting + {nodeId};
      ok := VisitSuccessors(nodeId, out, edges, universe, stack);
      if ok {
        FinishNode(edges, visited, old(visiting), nodeId);
        visiting := visiting - {nodeId};
        visited := visited + {nodeId};
      }
    }

    /** The loop of `visit` over the successors of the id it has just put in progress. */
    method VisitSuccessors(nodeId: string, out: map<string, seq<string>>,
                           ghost edges: seq<Edge>, ghost universe: set<string>, ghost stack: seq<string>)
      returns (ok: bool)
      requires IsAdjacency(out, edges) && EdgeTargets(edges) <= universe && visiting <= universe
      requires Finished(edges, visited, visiting) && IsStack(edges, visiting - {nodeId}, stack, nodeId)
      requires nodeId in visiting
      modifies this
      ensures ok ==> Finished(edges, visited, visiting) && old(visited) <= visited
      ensures ok ==> visiting == old(visiting) && forall b :: b in Targets(edges, nodeId) ==> b in visited
      ensures !ok ==> CyclicFrom(edges, stack[0])
      decreases universe - visiting, 2
    {
      var next := Successors(out, nodeId);
      for i := 0 to |next|
        invariant Finished(edges, visited, visiting) && old(visited) <= visited
        invariant visiting == old(visiting)
        invariant forall j :: 0 <= j < i ==> next[j] in visited
      {
        StackDeepens(edges, visiting, stack, nodeId, next, i);
        ok := Visit(next[i], out, edges, universe, stack + [next[i]]);
        if !ok {
          return false;
        }
      }
      return true;
    }
  }

  /** The ids in progress lie on a walk that ends in `nodeId`. */
  ghost predicate IsStack(edges: seq<Edge>, visiting: set<string>, stack: seq<string>, nodeId: string) {
    && IsWalk(edges, stack)
    && stack[|stack| - 1] == nodeId
    && forall x :: x in visiting ==> x in stack[..|stack| - 1]
  }

  /** Finished ids are not in progress, are closed under edges and lie on no cycle. */
  ghost predicate Finished(edges: seq<Edge>, visited: set<string>, visiting: set<string>) {
    && visited !! visiting
    && (forall a, b :: a in visited && HasEdge(edges, a, b) ==> b in visited)
    && (forall a :: a in visited ==> !Reaches(edges, a, a))
  }

  lemma StackDeepens(
      edges: seq<Edge>, visiting: set<string>, stack: seq<string>, nodeId: string, next: seq<string>, i: nat)
    requires IsStack(edges, visiting - {nodeId}, stack, nodeId) && next == Targets(edges, nodeId) && i < |next|
    ensures IsStack(edges, visiting, stack + [next[i]], next[i])
    ensures next[i] in EdgeTargets(edges) && (stack + [next[i]])[0] == stack[0]
  {
    TargetsAreEdges(edges, nodeId, next[i]);
    WalkConcat(edges, stack, [nodeId, next[i]]);
    assert stack + [nodeId, next[i]][1..] == stack + [next[i]];
    assert (stack + [next[i]])[..|stack|] == stack;
    forall x | x in visiting ensures x in stack {
      if x != nodeId { assert x in visiting - {nodeId}; }
    }
  }

  /** A node whose successors are all finished is finished. */
  lemma FinishNode(edges: seq<Edge>, visited: set<string>, visiting: set<string>, nodeId: string)
    requires Finished(edges, visited, visiting + {nodeId}) && nodeId !in visiting
    requires forall b :: b in Targets(edges, nodeId) ==> b in visited
    ensures Finished(edges, visited + {nodeId}, visiting)
    ensures visiting + {nodeId} - {nodeId} == visiting
  {
    forall b | HasEdge(edges, nodeId, b) ensures b in visited {
      TargetsAreEdges(edges, nodeId, b);
    }
    NoCycleThroughFinished(edges, visited, nodeId);
  }

  /** Meeting an id that is in progress closes a cycle on the call stack. */
  lemma StackClosesCycle(edges: seq<Edge>, visiting: set<string>, stack: seq<string>, nodeId: string)
    requires IsStack(edges, visiting, stack, nodeId) && nodeId in visiting
    ensures CyclicFrom(edges, stack[0])
  {
    var j :| 0 <= j < |stack| - 1 && stack[j] == nodeId;
    assert IsWalkBetween(edges, stack[j..], nodeId, nodeId);
    assert Reaches(edges, nodeId, nodeId);
    if j > 0 {
      assert IsWalkBetween(edges, stack[..j + 1], stack[0], nodeId);
      assert Reaches(edges, stack[0], nodeId);
    }
  }

  /** A node whose successors are all finished lies on no cycle. */
  lemma NoCycleThroughFinished(edges: seq<Edge>, visited: set<string>, nodeId: string)
    requires forall a, b :: a in visited && HasEdge(edges, a, b) ==> b in visited
    requires forall b :: HasEdge(edges, nodeId, b) ==> b in visited
    requires nodeId !in visited
    ensures !Reaches(edges, nodeId, nodeId)
  {
    if Reaches(edges, nodeId, nodeId) {
      var m := FirstEdge(edges, nodeId, nodeId);
      if m != nodeId {
        var p :| |p| >= 2 && IsWalkBetween(edges, p, m, nodeId);
        ClosedUnderWalks(edges, visited, p);
      }
    }
  }

  /** The depth-first search accepts exactly when no cycle can be reached from a node. */
  method IsAcyclicFrom(nodeIds: seq<string>, out: map<string, seq<string>>, ghost edges: seq<Edge>)
    returns (ok: bool)
    requires IsAdjacency(out, edges)
    ensures ok <==> forall n :: n in nodeIds ==> !CyclicFrom(edges, n)
  {
    var search := new CycleSearch();
    ghost var universe := Elements(nodeIds) + EdgeTargets(edges);
    for i := 0 to |nodeIds|
      invariant Finished(edges, search.visited, {}) && search.visiting == {} && fresh(search)
      invariant forall j :: 0 <= j < i ==> nodeIds[j] in search.visited
    {
      ok := search.Visit(nodeIds[i], out, edges, universe, [nodeIds[i]]);
      if !ok {
        assert nodeIds[i] in nodeIds;
        return false;
      }
    }
    ok := true;
    forall n | n in nodeIds ensures !CyclicFrom(edges, n) {
      if CyclicFrom(edges, n) {
        var c :| (c == n || Reaches(edges, n, c)) && Reaches(edges, c, c);
        if c != n {
          var p :| |p| >= 2 && IsWalkBetween(edges, p, n, c);
          ClosedUnderWalks(edges, search.visited, p);
        }
      }
    }
  }

  // ---- The refinement as a whole ----

  ghost predicate NodeApplies(nodes: seq<Node>, x: Issue) {
    || (x == NoTrigger && TriggerIds(nodes) == {})
    || (x.DuplicateNodeId? && x.index < |nodes| && exists j :: 0 <= j < x.index && nodes[j].id == nodes[x.index].id)
  }

  method CheckNodes(nodes: seq<Node>)
    returns (issues: seq<Issue>, nodeIds: set<string>, triggers: seq<string>)
    ensures nodeIds == NodeIds(nodes) && Elements(triggers) == TriggerIds(nodes)
    ensures forall x :: x in issues <==> NodeApplies(nodes, x)
  {
    issues, nodeIds, triggers := [], {}, [];
    for k := 0 to |nodes|
      invariant nodeIds == NodeIds(nodes[..k]) && Elements(triggers) == TriggerIds(nodes[..k])
      invariant forall x :: x in issues <==>
        x.DuplicateNodeId? && x.index < k && exists j :: 0 <= j < x.index && nodes[j].id == nodes[x.index].id
    {
      var node := nodes[k];
      NodeSetsStep(nodes, k);
      if node.id in nodeIds {
        issues := issues + [DuplicateNodeId(k)];
      }
      nodeIds := nodeIds + {node.id};
      if node.kind.ManualTrigger? && node.id !in triggers {
        triggers := triggers + [node.id];
      }
    }
    assert nodes[..|nodes|] == nodes;
    if triggers == [] {
      issues := issues + [NoTrigger];
    } else {
      assert triggers[0] in Elements(triggers);
    }
  }

  lemma NodeSetsStep(nodes: seq<Node>, k: nat)
    requires k < |nodes|
    ensures NodeIds(nodes[..k + 1]) == NodeIds(nodes[..k]) + {nodes[k].id}
    ensures TriggerIds(nodes[..k + 1]) ==
            TriggerIds(nodes[..k]) + (if nodes[k].kind.ManualTrigger? then {nodes[k].id} else {})
    ensures nodes[k].id in NodeIds(nodes[..k]) <==> exists j :: 0 <= j < k && nodes[j].id == nodes[k].id
  {
    var s, t := nodes[..k], nodes[..k + 1];
    assert t[k] == nodes[k] && forall i :: 0 <= i < k ==> t[i] == s[i] == nodes[i];
    forall id | id in NodeIds(s) ensures id in NodeIds(t) {
      var i :| 0 <= i < |s| && s[i].id == id;
      assert t[i].id == id;
    }
    forall id | id in TriggerIds(s) ensures id in TriggerIds(t) {
      var i :| 0 <= i < |s| && s[i].kind.ManualTrigger? && s[i].id == id;
      assert t[i].id == id;
    }
    if j :| 0 <= j < k && nodes[j].id == nodes[k].id {
      assert s[j].id == nodes[k].id;
    }
  }

  /** The issues of one edge, given the ids and pair keys of the edges before it. */
  ghost predicate EdgeApplies(edges: seq<Edge>, nodeIds: set<string>, x: Issue) {
    match x
    case DuplicateEdgeId(i) => i < |edges| && exists j :: 0 <= j < i && edges[j].id == edges[i].id
    case UnknownSource(i) => i < |edges| && edges[i].source !in nodeIds
    case UnknownTarget(i) => i < |edges| && edges[i].target !in nodeIds
    case SelfLoop(i) => i < |edges| && edges[i].source == edges[i].target
    case DuplicatePair(i) => i < |edges| && exists j :: 0 <= j < i && PairKey(edges[j]) == PairKey(edges[i])
    case _ => false
  }

  method CheckEdge(edges: seq<Edge>, k: nat, nodeIds: set<string>, edgeIds: set<string>, edgePairs: set<string>)
    returns (found: seq<Issue>)
    requires k < |edges|
    requires edgeIds == set j | 0 <= j < k :: edges[j].id
    requires edgePairs == set j | 0 <= j < k :: PairKey(edges[j])
    ensures forall x :: x in found <==> EdgeApplies(edges, nodeIds, x) && x.index == k
  {
    var edge := edges[k];
    found := [];
    if edge.id in edgeIds {
      found := found + [DuplicateEdgeId(k)];
    }
    if edge.source !in nodeIds {
      found := found + [UnknownSource(k)];
    }
    if edge.target !in nodeIds {
      found := found + [UnknownTarget(k)];
    }
    if edge.source == edge.target {
      found := found + [SelfLoop(k)];
    }
    if PairKey(edge) in edgePairs {
      found := found + [DuplicatePair(k)];
    }
  }

  method CheckEdges(edges: seq<Edge>, nodeIds: set<string>) returns (issues: seq<Issue>)
    ensures forall x :: x in issues <==> EdgeApplies(edges, nodeIds, x)
  {
    issues := [];
    var edgeIds: set<string>, edgePairs: set<string> := {}, {};
    for k := 0 to |edges|
      invariant edgeIds == set j | 0 <= j < k :: edges[j].id
      invariant edgePairs == set j | 0 <= j < k :: PairKey(edges[j])
      invariant forall x :: x in issues <==> EdgeApplies(edges, nodeIds, x) && x.index < k
    {
      var found := CheckEdge(edges, k, nodeIds, edgeIds, edgePairs);
      issues := issues + found;
      edgeIds := edgeIds + {edges[k].id};
      edgePairs := edgePairs + {PairKey(edges[k])};
    }
  }

  method TriggersAreFed(triggers: seq<string>, counts: map<string, int>) returns (fed: bool)
    ensures fed <==> exists t :: t in triggers && CountOf(counts, t) > 0
  {
    for i := 0 to |triggers|
      invariant forall j :: 0 <= j < i ==> CountOf(counts, triggers[j]) <= 0
    {
      if CountOf(counts, triggers[i]) > 0 {
        return true;
      }
    }
    return false;
  }

  method AllMarked(nodeIds: seq<string>, marked: set<string>) returns (all: bool)
    ensures all <==> forall n :: n in nodeIds ==> n in marked
  {
    for i := 0 to |nodeIds|
      invariant forall j :: 0 <= j < i ==> nodeIds[j] in marked
    {
      if nodeIds[i] !in marked {
        return false;
      }
    }
    return true;
  }

  function IdList(nodes: seq<Node>): seq<string> {
    seq(|nodes|, i requires 0 <= i < |nodes| => nodes[i].id)
  }

  lemma IdListElements(nodes: seq<Node>)
    ensures forall n :: n in IdList(nodes) <==> n in NodeIds(nodes)
  {
    forall n | n in NodeIds(nodes) ensures n in IdList(nodes) {
      var i :| 0 <= i < |nodes| && nodes[i].id == n;
      assert IdList(nodes)[i] == n;
    }
  }

  lemma FedTriggers(d: Definition)
    ensures TriggersHaveNoIncoming(d) <==>
            forall t :: t in TriggerIds(d.nodes) ==> PendingInDegree(d.edges, t, {}) == 0
  {
    forall t ensures PendingInDegree(d.edges, t, {}) == 0 <==> forall a :: !HasEdge(d.edges, a, t) {
      PendingZero(d.edges, t, {});
    }
  }

  ghost predicate GraphApplies(d: Definition, x: Issue) {
    Applies(d, x) && (x.TriggerHasIncoming? || x.Unreachable? || x.Cyclic?)
  }

  method CheckFed(d: Definition, triggers: seq<string>, counts: map<string, int>) returns (fed: bool)
    requires Elements(triggers) == TriggerIds(d.nodes)
    requires forall n :: CountOf(counts, n) == PendingInDegree(d.edges, n, {})
    ensures fed <==> Applies(d, TriggerHasIncoming)
  {
    fed := TriggersAreFed(triggers, counts);
    FedTriggers(d);
    assert forall t :: t in triggers <==> t in Elements(triggers);
  }

  method CheckReachable(d: Definition, triggers: seq<string>, out: map<string, seq<string>>) returns (reachable: bool)
    requires Elements(triggers) == TriggerIds(d.nodes) && IsAdjacency(out, d.edges)
    ensures reachable <==> !Applies(d, Unreachable)
  {
    var marked := MarkReachable(triggers, out, d.edges);
    IdListElements(d.nodes);
    reachable := AllMarked(IdList(d.nodes), marked);
  }

  method CheckAcyclic(d: Definition, out: map<string, seq<string>>) returns (acyclic: bool)
    requires IsAdjacency(out, d.edges)
    ensures acyclic <==> !Applies(d, Cyclic)
  {
    IdListElements(d.nodes);
    acyclic := IsAcyclicFrom(IdList(d.nodes), out, d.edges);
  }

  /** The checks on the whole graph: fed triggers, then the two walks. */
  method CheckGraph(d: Definition, triggers: seq<string>) returns (issues: seq<Issue>)
    requires Elements(triggers) == TriggerIds(d.nodes)
    ensures forall x :: x in issues <==> GraphApplies(d, x)
  {
    var out, counts := IndexEdges(d.edges, map[]);
    var fed := CheckFed(d, triggers, counts);
    var reachable := CheckReachable(d, triggers, out);
    var acyclic := CheckAcyclic(d, out);
    issues := (if fed then [TriggerHasIncoming] else [])
      + (if reachable then [] else [Unreachable])
      + (if acyclic then [] else [Cyclic]);
    forall x ensures x in issues <==> GraphApplies(d, x) {
      assert x in issues <==>
        (fed && x == TriggerHasIncoming) || (!reachable && x == Unreachable) || (!acyclic && x == Cyclic);
    }
  }

  lemma AppliesSplits(d: Definition, x: Issue)
    ensures Applies(d, x) <==>
      NodeApplies(d.nodes, x) || EdgeApplies(d.edges, NodeIds(d.nodes), x) || GraphApplies(d, x)
  {
    match x { case _ => }
  }

  /** The issues reported are exactly those that apply, on every definition. */
  method SuperRefine(d: Definition) returns (issues: seq<Issue>)
    ensures forall x :: x in issues <==> Applies(d, x)
  {
    var nodeIssues, nodeIds, triggers := CheckNodes(d.nodes);
    var edgeIssues := CheckEdges(d.edges, nodeIds);
    var graphIssues := CheckGraph(d, triggers);
    issues := nodeIssues + edgeIssues + graphIssues;
    forall x ensures x in issues <==> Applies(d, x) {
      AppliesSplits(d, x);
    }
  }

  // ---- Absence of issues is the graph property ----

  /** Schema ids cannot contain the arrow of a pair key, so keys separate pairs. */
  lemma {:induction false} PairKeySeparates(e: Edge, f: Edge)
    requires ValidId(e.source) && ValidId(e.target) && ValidId(f.source) && ValidId(f.target)
    requires PairKey(e) == PairKey(f)
    ensures e.source == f.source && e.target == f.target
  {
    var k := PairKey(e);
    assert k[|e.source| + 1] == '>' && k[|f.source| + 1] == '>';
    assert k[|e.source|] == '-' && k[|f.source|] == '-';
    if |e.source| != |f.source| {
      assert false;
    }
    assert e.source == k[..|e.source|] == f.source;
    assert e.target == k[|e.source| + 2..] == f.target;
  }

  lemma WalkIdsAreValid(d: Definition, p: seq<string>)
    requires ObjectSchema(d) && IsWalk(d.edges, p) && p[0] in NodeIds(d.nodes)
    ensures "" !in p
  {
    forall i | 0 <= i < |p| ensures p[i] != "" {
      if i > 0 { assert HasEdge(d.edges, p[i - 1], p[i]); }
    }
  }

  lemma FollowedIsFromTrigger(d: Definition, n: string)
    requires ObjectSchema(d)
    ensures Followed(d.edges, TriggerIds(d.nodes), n) <==> FromTrigger(d, n)
  {
    if FromTrigger(d, n) {
      var p :| IsWalk(d.edges, p) && p[0] in TriggerIds(d.nodes) && p[|p| - 1] == n;
      WalkIdsAreValid(d, p);
    }
  }

  lemma CyclesStartAtNodes(d: Definition)
    requires EndpointsExist(d)
    ensures Acyclic(d.edges) <==> forall n :: n in NodeIds(d.nodes) ==> !CyclicFrom(d.edges, n)
  {
    if Acyclic(d.edges) {
    } else {
      var n :| Reaches(d.edges, n, n);
      var m := FirstEdge(d.edges, n, n);
      assert n in NodeIds(d.nodes) && CyclicFrom(d.edges, n);
    }
  }

  /** On schema-valid input, reporting nothing means being an accepted definition. */
  lemma NoIssueIsAccepted(d: Definition)
    requires ObjectSchema(d)
    ensures (forall x :: !Applies(d, x)) <==> Accepted(d)
  {
    if Accepted(d) {
      forall x ensures !Applies(d, x) { AcceptedHasNoIssue(d, x); }
    }
    if forall x :: !Applies(d, x) {
      NoIssueIsStructural(d);
      assert !Applies(d, Unreachable) && !Applies(d, Cyclic);
      CyclesStartAtNodes(d);
      forall n | n in NodeIds(d.nodes) ensures FromTrigger(d, n) { FollowedIsFromTrigger(d, n); }
    }
  }

  lemma NoIssueIsStructural(d: Definition)
    requires ObjectSchema(d) && forall x :: !Applies(d, x)
    ensures Structural(d)
  {
    assert !Applies(d, NoTrigger) && !Applies(d, TriggerHasIncoming);
    forall i, j | 0 <= i < j < |d.nodes| ensures d.nodes[i].id != d.nodes[j].id {
      assert !Applies(d, DuplicateNodeId(j));
    }
    forall i, j | 0 <= i < j < |d.edges|
      ensures d.edges[i].id != d.edges[j].id
      ensures (d.edges[i].source, d.edges[i].target) != (d.edges[j].source, d.edges[j].target)
    {
      assert !Applies(d, DuplicateEdgeId(j)) && !Applies(d, DuplicatePair(j));
    }
    forall i | 0 <= i < |d.edges|
      ensures d.edges[i].source in NodeIds(d.nodes) && d.edges[i].target in NodeIds(d.nodes)
    {
      assert !Applies(d, UnknownSource(i)) && !Applies(d, UnknownTarget(i));
    }
  }

  lemma AcceptedHasNoIssue(d: Definition, x: Issue)
    requires Accepted(d)
    ensures !Applies(d, x)
  {
    match x {
      case DuplicatePair(i) =>
        forall j | 0 <= j < i < |d.edges| ensures PairKey(d.edges[j]) != PairKey(d.edges[i]) {
          if PairKey(d.edges[j]) == PairKey(d.edges[i]) { PairKeySeparates(d.edges[j], d.edges[i]); }
        }
      case SelfLoop(i) =>
        if Applies(d, x) {
          EdgeReaches(d.edges, d.edges[i].source, d.edges[i].target);
        }
      case Unreachable =>
        forall n | n in NodeIds(d.nodes) ensures Followed(d.edges, TriggerIds(d.nodes), n) {
          FollowedIsFromTrigger(d, n);
        }
      case Cyclic =>
        CyclesStartAtNodes(d);
      case _ =>
    }
  }

  /** `safeParse`: success is exactly acceptance. */
  method Parse(d: Definition) returns (success: bool)
    ensures success <==> Accepted(d)
  {
    if !ObjectSchema(d) {
      return false;
    }
    var issues := SuperRefine(d);
    NoIssueIsAccepted(d);
    if issues != [] {
      assert Applies(d, issues[0]);
    }
    return issues == [];
  }
}
