/** Running an ordered definition (executeWorkflowNodes and getNodeInput in
    apps/execution-worker/src/index.ts) and the dataflow meaning it computes. */
module NodeExecution {
  import opened WorkflowGraph
  import opened WorkflowValidator
  import opened NodeOrdering

  /** Payloads passed between nodes. */
  datatype Json = Scalar(raw: string) | Record(fields: map<string, Json>)

  datatype Outcome = Output(value: Json) | Failed(code: string)

  /** A node executor: any deterministic function of the node and its input. */
  type Executor = (Node, Json) -> Outcome

  /** Manual triggers hand their input on; other kinds are foreign to the model. */
  function Execute(f: Executor, node: Node, input: Json): Outcome {
    if node.kind.ManualTrigger? then Output(input) else f(node, input)
  }

  // ---- The dataflow meaning, which knows nothing of execution orders ----

  /** What a node yields: a value, its own error, or nothing because something before it failed. */
  datatype Meaning = Value(value: Json) | Error(code: string) | Starved

  function Predecessors(edges: seq<Edge>, n: string): set<string> {
    set i | 0 <= i < |edges| && edges[i].target == n :: edges[i].source
  }

  function Values(feeds: map<string, Meaning>): map<string, Json> {
    map s | s in feeds && feeds[s].Value? :: feeds[s].value
  }

  /** No feed: the payload. One feed: its value. Several: a record of all of them by source id. */
  ghost function Merge(payload: Json, feeds: map<string, Json>): Json {
    if |feeds| == 0 then payload
    else if |feeds| == 1 then (var s :| s in feeds; feeds[s])
    else Record(feeds)
  }

  /** What a node is run on: the payload when nothing feeds it, what its one source yields as it is, and otherwise
      a record of what its sources yield by their ids. */
  ghost predicate FeedsInput(payload: Json, feeds: map<string, Json>, input: Json) {
    && (feeds.Keys == {} ==> input == payload)
    && (forall s :: s in feeds && |feeds.Keys| == 1 ==> input == feeds[s])
    && (|feeds.Keys| > 1 ==> input == Record(feeds))
  }

  /** What the outcome of an executor means. */
  function Yield(o: Outcome): Meaning {
    match o
    case Output(v) => Value(v)
    case Failed(c) => Error(c)
  }

  /** The meaning of one node, given the meanings of its predecessors. */
  ghost function Evaluate(f: Executor, node: Node, payload: Json, feeds: map<string, Meaning>): Meaning {
    if exists s :: s in feeds && !feeds[s].Value? then Starved
    else
      Yield(Execute(f, node, Merge(payload, Values(feeds))))
  }

  function Feeds(edges: seq<Edge>, m: map<string, Meaning>, n: string): map<string, Meaning> {
    map s | s in Predecessors(edges, n) && s in m :: m[s]
  }

  /** `m` satisfies the dataflow equation of every node. */
  ghost predicate Solves(d: Definition, f: Executor, payload: Json, m: map<string, Meaning>) {
    && m.Keys == NodeIds(d.nodes)
    && forall node :: node in d.nodes ==> m[node.id] == Evaluate(f, node, payload, Feeds(d.edges, m, node.id))
  }

  ghost function NodeNamed(d: Definition, n: string): (node: Node)
    requires n in NodeIds(d.nodes)
    ensures node in d.nodes && node.id == n
  {
    var i :| 0 <= i < |d.nodes| && d.nodes[i].id == n;
    d.nodes[i]
  }

  ghost function MeaningOf(d: Definition, f: Executor, payload: Json, n: string): Meaning
    requires EndpointsExist(d) && Acyclic(d.edges) && n in NodeIds(d.nodes)
    decreases Ancestors(d.edges, n), 1
  {
    Evaluate(f, NodeNamed(d, n), payload, FeedsOf(d, f, payload, n))
  }

  ghost function FeedsOf(d: Definition, f: Executor, payload: Json, n: string): (r: map<string, Meaning>)
    requires EndpointsExist(d) && Acyclic(d.edges)
    decreases Ancestors(d.edges, n), 0
  {
    map s | s in Predecessors(d.edges, n) :: (AncestorsGrow(d.edges, s, n); MeaningOf(d, f, payload, s))
  }

  /** The meaning of every node of a definition. */
  ghost function Meanings(d: Definition, f: Executor, payload: Json): (m: map<string, Meaning>)
    requires EndpointsExist(d) && Acyclic(d.edges)
  {
    map n | n in NodeIds(d.nodes) :: MeaningOf(d, f, payload, n)
  }

  lemma FeedsOfMeanings(d: Definition, f: Executor, payload: Json, n: string)
    requires EndpointsExist(d) && Acyclic(d.edges)
    ensures Feeds(d.edges, Meanings(d, f, payload), n) == FeedsOf(d, f, payload, n)
  {
    assert Predecessors(d.edges, n) <= NodeIds(d.nodes);
  }

  lemma MeaningsSolve(d: Definition, f: Executor, payload: Json)
    requires UniqueNodeIds(d) && EndpointsExist(d) && Acyclic(d.edges)
    ensures Solves(d, f, payload, Meanings(d, f, payload))
  {
    forall node | node in d.nodes
      ensures node.id in NodeIds(d.nodes)
      ensures MeaningOf(d, f, payload, node.id) ==
        Evaluate(f, node, payload, Feeds(d.edges, Meanings(d, f, payload), node.id))
    {
      var i :| 0 <= i < |d.nodes| && d.nodes[i] == node;
      assert d.nodes[i].id in NodeIds(d.nodes) && NodeNamed(d, node.id) == node;
      FeedsOfMeanings(d, f, payload, node.id);
    }
  }

  /** The equations of an acyclic definition have one solution, so the meaning depends on nothing else. */
  lemma {:induction false} SolutionIsUnique(
      d: Definition, f: Executor, payload: Json, m: map<string, Meaning>, m': map<string, Meaning>, n: string)
    requires EndpointsExist(d) && Acyclic(d.edges) && n in NodeIds(d.nodes)
    requires Solves(d, f, payload, m) && Solves(d, f, payload, m')
    ensures m[n] == m'[n]
    decreases Ancestors(d.edges, n)
  {
    forall s | s in Predecessors(d.edges, n) ensures s in NodeIds(d.nodes) && m[s] == m'[s] {
      assert HasEdge(d.edges, s, n);
      AncestorsGrow(d.edges, s, n);
      SolutionIsUnique(d, f, payload, m, m', s);
    }
    SameFeedsSameMeaning(d, f, payload, m, m', n);
  }

  lemma SameFeedsSameMeaning(
      d: Definition, f: Executor, payload: Json, m: map<string, Meaning>, m': map<string, Meaning>, n: string)
    requires EndpointsExist(d) && n in NodeIds(d.nodes) && Solves(d, f, payload, m) && Solves(d, f, payload, m')
    requires forall a :: a in Predecessors(d.edges, n) ==> a in m && a in m' && m[a] == m'[a]
    ensures m[n] == m'[n]
  {
    assert Feeds(d.edges, m, n) == Feeds(d.edges, m', n);
    var node := NodeNamed(d, n);
  }

  // ---- The input computed from the outputs recorded so far ----

  /** The sources of the edges into `n`, in edge order. */
  function IncomingSources(edges: seq<Edge>, n: string): seq<string> {
    if edges == [] then []
    else
      var e := edges[|edges| - 1];
      IncomingSources(edges[..|edges| - 1], n) + (if e.target == n then [e.source] else [])
  }

  function GetNodeInput(node: Node, d: Definition, outputs: map<string, Json>, fallback: Json): Json {
    InputFrom(IncomingSources(d.edges, node.id), outputs, fallback)
  }

  function InputFrom(incoming: seq<string>, outputs: map<string, Json>, fallback: Json): Json {
    if |incoming| == 0 then fallback
    else if |incoming| == 1 then
      if incoming[0] in outputs then outputs[incoming[0]] else fallback
    else
      Record(map s | s in incoming :: if s in outputs then outputs[s] else Record(map[]))
  }

  ghost predicate DistinctPairs(edges: seq<Edge>) {
    forall i, j :: 0 <= i < j < |edges| ==> (edges[i].source, edges[i].target) != (edges[j].source, edges[j].target)
  }

  /** Without parallel edges, incoming edges and predecessors are the same thing. */
  lemma {:induction false} IncomingArePredecessors(edges: seq<Edge>, n: string)
    requires DistinctPairs(edges)
    ensures forall s :: s in IncomingSources(edges, n) <==> s in Predecessors(edges, n)
    ensures |IncomingSources(edges, n)| == |Predecessors(edges, n)|
  {
    if edges != [] {
      var k := |edges| - 1;
      var e, rest := edges[k], edges[..k];
      IncomingArePredecessors(rest, n);
      PredecessorsStep(edges, n);
      assert e.target == n ==> e.source !in Predecessors(rest, n);
    }
  }

  lemma PredecessorsStep(edges: seq<Edge>, n: string)
    requires edges != []
    ensures Predecessors(edges, n) == Predecessors(edges[..|edges| - 1], n)
      + (if edges[|edges| - 1].target == n then {edges[|edges| - 1].source} else {})
  {
    var rest := edges[..|edges| - 1];
    forall s | s in Predecessors(rest, n) ensures s in Predecessors(edges, n) {
      var i :| 0 <= i < |rest| && rest[i].target == n && rest[i].source == s;
      assert edges[i].target == n && edges[i].source == s;
    }
    forall s | s in Predecessors(edges, n) && !(edges[|edges| - 1].target == n && s == edges[|edges| - 1].source)
      ensures s in Predecessors(rest, n)
    {
      var i :| 0 <= i < |edges| && edges[i].target == n && edges[i].source == s;
      assert rest[i].target == n && rest[i].source == s;
    }
  }

  lemma SingletonKey(m: map<string, Json>, k: string)
    requires |m| == 1 && k in m
    ensures forall s :: s in m ==> s == k
  {
    assert |m.Keys - {k}| == 0;
  }

  /** Reading recorded outputs is merging, when every source has one; the fallback matters only
      for nodes without incoming edges. */
  lemma InputIsMerge(
      incoming: seq<string>, outputs: map<string, Json>, fallback: Json, payload: Json, values: map<string, Json>)
    requires forall s :: s in incoming <==> s in values
    requires |incoming| == |values.Keys|
    requires forall s :: s in values ==> s in outputs && outputs[s] == values[s]
    requires incoming == [] ==> fallback == payload
    ensures InputFrom(incoming, outputs, fallback) == Merge(payload, values)
    ensures FeedsInput(payload, values, InputFrom(incoming, outputs, fallback))
  {
    assert |values| == |values.Keys|;
    if |incoming| == 1 {
      assert incoming[0] in incoming;
      SingletonKey(values, incoming[0]);
    } else if |incoming| > 1 {
      assert values == map s | s in incoming :: if s in outputs then outputs[s] else Record(map[]);
    }
  }

  // ---- What the run loop needs of a definition and an order ----

  ghost predicate Runnable(d: Definition) {
    && UniqueNodeIds(d) && EndpointsExist(d) && Acyclic(d.edges) && DistinctPairs(d.edges)
    && forall node :: node in d.nodes ==> (node.kind.ManualTrigger? <==> Predecessors(d.edges, node.id) == {})
  }

  lemma AcceptedIsRunnable(d: Definition)
    requires Accepted(d)
    ensures Runnable(d)
  {
    forall node | node in d.nodes ensures node.kind.ManualTrigger? <==> Predecessors(d.edges, node.id) == {} {
      FedIsNoTrigger(d, node);
    }
  }

  lemma FedIsNoTrigger(d: Definition, node: Node)
    requires UniqueNodeIds(d) && TriggersHaveNoIncoming(d) && AllFromTrigger(d) && node in d.nodes
    ensures node.kind.ManualTrigger? <==> Predecessors(d.edges, node.id) == {}
  {
    var i :| 0 <= i < |d.nodes| && d.nodes[i] == node;
    if node.kind.ManualTrigger? {
      assert node.id in TriggerIds(d.nodes);
      assert forall s :: s in Predecessors(d.edges, node.id) ==> HasEdge(d.edges, s, node.id);
    } else {
      assert node.id in NodeIds(d.nodes);
      var p :| IsWalk(d.edges, p) && p[0] in TriggerIds(d.nodes) && p[|p| - 1] == node.id;
      assert |p| > 1;
      assert HasEdge(d.edges, p[|p| - 2], p[|p| - 1]);
      assert p[|p| - 2] in Predecessors(d.edges, node.id);
    }
  }

  lemma OrderSize(d: Definition, order: seq<Node>)
    requires IsPermutation(d, order)
    ensures |order| == |d.nodes| && NodeIds(order) == NodeIds(d.nodes)
    ensures forall i :: 0 <= i < |order| ==> order[i] in d.nodes
  {
    assert |order| == |multiset(order)| == |multiset(d.nodes)| == |d.nodes|;
    forall i | 0 <= i < |order| ensures order[i] in d.nodes {
      assert order[i] in multiset(order);
    }
    forall n ensures n in NodeIds(order) <==> n in NodeIds(d.nodes) {
      if n in NodeIds(order) {
        var i :| 0 <= i < |order| && order[i].id == n;
        var j :| 0 <= j < |d.nodes| && d.nodes[j] == order[i];
        assert d.nodes[j].id == n;
      }
      if n in NodeIds(d.nodes) {
        var i :| 0 <= i < |d.nodes| && d.nodes[i].id == n;
        assert d.nodes[i] in multiset(d.nodes) && d.nodes[i] in order;
        var j :| 0 <= j < |order| && order[j] == d.nodes[i];
        assert order[j].id == n;
      }
    }
  }

  // ---- The run loop ----

  datatype RunResult =
    | Completed(nodeCount: nat, finalOutput: Json)
    | NodeFailed(nodeId: string, code: string)

  ghost predicate AllTriggers(order: seq<Node>, k: nat) {
    forall i :: 0 <= i < k && i < |order| ==> order[i].kind.ManualTrigger?
  }

  ghost predicate Recorded(order: seq<Node>, k: nat, m: map<string, Meaning>, outputs: map<string, Json>)
    requires k <= |order|
  {
    && outputs.Keys == NodeIds(order[..k])
    && forall n :: n in outputs ==> n in m && m[n] == Value(outputs[n])
  }

  function FedBy(d: Definition, outputs: map<string, Json>, n: string): map<string, Json> {
    map s | s in Predecessors(d.edges, n) && s in outputs :: outputs[s]
  }

  /** Everything that feeds `node` is among the outputs, and on these its executor ends like this. */
  ghost predicate RanTo(
      d: Definition, f: Executor, payload: Json, outputs: map<string, Json>, node: Node, outcome: Outcome)
  {
    && Predecessors(d.edges, node.id) <= outputs.Keys
    && exists input :: FeedsInput(payload, FedBy(d, outputs, node.id), input) && Execute(f, node, input) == outcome
  }

  /** Every recorded output is what its node's executor makes of the recorded outputs that feed it. */
  ghost predicate RanAllOf(d: Definition, f: Executor, payload: Json, outputs: map<string, Json>) {
    forall node :: node in d.nodes && node.id in outputs ==>
      RanTo(d, f, payload, outputs, node, Output(outputs[node.id]))
  }

  lemma RanToStays(d: Definition, f: Executor, payload: Json, outputs: map<string, Json>,
                   outputs': map<string, Json>, node: Node, outcome: Outcome)
    requires RanTo(d, f, payload, outputs, node, outcome)
    requires forall s :: s in outputs ==> s in outputs' && outputs'[s] == outputs[s]
    ensures RanTo(d, f, payload, outputs', node, outcome)
  {
    assert FedBy(d, outputs', node.id) == FedBy(d, outputs, node.id);
  }

  lemma SameIdSameNode(d: Definition, a: Node, b: Node)
    requires UniqueNodeIds(d) && a in d.nodes && b in d.nodes && a.id == b.id
    ensures a == b
  {
    var i, j :| 0 <= i < |d.nodes| && 0 <= j < |d.nodes| && d.nodes[i] == a && d.nodes[j] == b;
  }

  lemma RanOneMore(d: Definition, f: Executor, payload: Json, outputs: map<string, Json>, node: Node, v: Json)
    requires UniqueNodeIds(d) && node in d.nodes && node.id !in outputs
    requires RanAllOf(d, f, payload, outputs) && RanTo(d, f, payload, outputs, node, Output(v))
    ensures RanAllOf(d, f, payload, outputs[node.id := v])
  {
    var outputs' := outputs[node.id := v];
    forall other | other in d.nodes && other.id in outputs'
      ensures RanTo(d, f, payload, outputs', other, Output(outputs'[other.id]))
    {
      if other.id == node.id { SameIdSameNode(d, other, node); }
      RanToStays(d, f, payload, outputs, outputs', other, Output(outputs'[other.id]));
    }
  }

  /** Running node `k` after its predecessors gives it the merged values and yields its meaning. */
  lemma StepIsMeaning(d: Definition, f: Executor, payload: Json, order: seq<Node>, k: nat,
                      m: map<string, Meaning>, outputs: map<string, Json>, current: Json)
    requires Runnable(d) && EdgesForward(d.edges, order) && TriggersFirst(order)
    requires k < |order| && order[k] in d.nodes && Solves(d, f, payload, m) && Recorded(order, k, m, outputs)
    requires AllTriggers(order, k) ==> current == payload
    ensures GetNodeInput(order[k], d, outputs, current) == Merge(payload, Values(Feeds(d.edges, m, order[k].id)))
    ensures order[k].id in m
    ensures m[order[k].id] == Yield(Execute(f, order[k], GetNodeInput(order[k], d, outputs, current)))
    ensures order[k].kind.ManualTrigger? ==> GetNodeInput(order[k], d, outputs, current) == payload
  {
    var node := order[k];
    var feeds := Feeds(d.edges, m, node.id);
    FeedsAreRecorded(d.edges, order, k, m, outputs);
    IncomingArePredecessors(d.edges, node.id);
    if IncomingSources(d.edges, node.id) == [] {
      assert Predecessors(d.edges, node.id) == {};
    }
    InputIsMerge(IncomingSources(d.edges, node.id), outputs, current, payload, Values(feeds));
    assert m[node.id] == Evaluate(f, node, payload, feeds);
  }

  lemma PredecessorsRan(edges: seq<Edge>, order: seq<Node>, k: nat)
    requires EdgesForward(edges, order) && k < |order|
    ensures Predecessors(edges, order[k].id) <= NodeIds(order[..k])
  {
    forall s | s in Predecessors(edges, order[k].id) ensures s in NodeIds(order[..k]) {
      assert HasEdge(edges, s, order[k].id);
      var j :| 0 <= j < k && order[j].id == s;
      assert order[..k][j].id == s;
    }
  }

  /** The input of a node whose sources have all run. */
  lemma InputFeeds(d: Definition, payload: Json, outputs: map<string, Json>, node: Node, current: Json)
    requires DistinctPairs(d.edges) && Predecessors(d.edges, node.id) <= outputs.Keys
    requires Predecessors(d.edges, node.id) == {} ==> current == payload
    ensures FeedsInput(payload, FedBy(d, outputs, node.id), GetNodeInput(node, d, outputs, current))
  {
    IncomingArePredecessors(d.edges, node.id);
    var fed := FedBy(d, outputs, node.id);
    assert fed.Keys == Predecessors(d.edges, node.id);
    if IncomingSources(d.edges, node.id) == [] {
      assert Predecessors(d.edges, node.id) == {};
    }
    InputIsMerge(IncomingSources(d.edges, node.id), outputs, current, payload, fed);
  }

  /** And it runs on what the nodes that feed it have put out. */
  lemma StepRuns(d: Definition, f: Executor, payload: Json, order: seq<Node>, k: nat,
                 outputs: map<string, Json>, current: Json)
    requires Runnable(d) && EdgesForward(d.edges, order) && TriggersFirst(order)
    requires k < |order| && order[k] in d.nodes && outputs.Keys == NodeIds(order[..k])
    requires AllTriggers(order, k) ==> current == payload
    ensures RanTo(d, f, payload, outputs, order[k], Execute(f, order[k], GetNodeInput(order[k], d, outputs, current)))
  {
    PredecessorsRan(d.edges, order, k);
    InputFeeds(d, payload, outputs, order[k], current);
  }

  lemma FeedsAreRecorded(
      edges: seq<Edge>, order: seq<Node>, k: nat, m: map<string, Meaning>, outputs: map<string, Json>)
    requires EdgesForward(edges, order) && k < |order| && Recorded(order, k, m, outputs)
    ensures var feeds := Feeds(edges, m, order[k].id);
      && (forall s :: s in feeds ==> feeds[s].Value?)
      && Values(feeds).Keys == Predecessors(edges, order[k].id)
      && (forall s :: s in Values(feeds) ==> s in outputs && outputs[s] == Values(feeds)[s])
  {
    forall s | s in Predecessors(edges, order[k].id) ensures s in outputs && s in m && m[s] == Value(outputs[s]) {
      assert HasEdge(edges, s, order[k].id);
      var j :| 0 <= j < k && order[j].id == s;
      assert order[..k][j].id == s;
    }
  }

  lemma RecordStep(order: seq<Node>, k: nat, m: map<string, Meaning>, outputs: map<string, Json>, v: Json)
    requires k < |order| && Recorded(order, k, m, outputs)
    requires order[k].id in m && m[order[k].id] == Value(v)
    ensures Recorded(order, k + 1, m, outputs[order[k].id := v])
  {
    NodeSetsStep(order, k);
  }

  /** The reported node failed on the recorded outputs that feed it. */
  ghost predicate FailedOn(
      d: Definition, f: Executor, payload: Json, outputs: map<string, Json>, nodeId: string, code: string)
  {
    exists node :: node in d.nodes && node.id == nodeId && RanTo(d, f, payload, outputs, node, Failed(code))
  }

  /** The loop computes, node by node, any solution of the dataflow equations, and runs every node on what the nodes
      that feed it have put out. */
  method RunInOrder(d: Definition, order: seq<Node>, f: Executor, payload: Json, ghost m: map<string, Meaning>)
    returns (r: RunResult, outputs: map<string, Json>)
    requires Runnable(d) && Distinct(order) && EdgesForward(d.edges, order) && TriggersFirst(order)
    requires forall i :: 0 <= i < |order| ==> order[i] in d.nodes
    requires Solves(d, f, payload, m)
    ensures RanAllOf(d, f, payload, outputs)
    ensures r.NodeFailed? ==> FailedOn(d, f, payload, outputs, r.nodeId, r.code)
    ensures r.Completed? ==> Recorded(order, |order|, m, outputs) && r.nodeCount == |order|
    ensures r.Completed? && order != [] ==> LastOutput(order, m) == Value(r.finalOutput)
    ensures r.NodeFailed? ==> StoppedAt(order, m, outputs, r.nodeId, r.code)
  {
    outputs := map[];
    var current := payload;
    for k := 0 to |order|
      invariant Recorded(order, k, m, outputs) && RanAllOf(d, f, payload, outputs)
      invariant AllTriggers(order, k) ==> current == payload
      invariant k > 0 ==> order[k - 1].id in m && m[order[k - 1].id] == Value(current)
    {
      StepIsMeaning(d, f, payload, order, k, m, outputs, current);
      StepRuns(d, f, payload, order, k, outputs, current);
      var node := order[k];
      var input := GetNodeInput(node, d, outputs, current);
      match Execute(f, node, input) {
        case Failed(code) =>
          return NodeFailed(node.id, code), outputs;
        case Output(v) =>
          RecordStep(order, k, m, outputs, v);
          NotYetRun(order, k);
          RanOneMore(d, f, payload, outputs, node, v);
          outputs := outputs[node.id := v];
          current := v;
      }
    }
    r := Completed(|order|, current);
  }

  lemma NotYetRun(order: seq<Node>, k: nat)
    requires Distinct(order) && k < |order|
    ensures order[k].id !in NodeIds(order[..k])
  {
  }

  ghost function LastOutput(order: seq<Node>, m: map<string, Meaning>): Meaning
    requires order != []
  {
    var n := order[|order| - 1].id;
    if n in m then m[n] else Starved
  }

  /** The run stopped at a node whose own meaning is an error, having recorded exactly what ran before it. */
  ghost predicate StoppedAt(
      order: seq<Node>, m: map<string, Meaning>, outputs: map<string, Json>, nodeId: string, code: string)
  {
    exists k :: 0 <= k < |order| && order[k].id == nodeId && Recorded(order, k, m, outputs)
      && nodeId in m && m[nodeId] == Error(code)
  }

  /** The run of an accepted definition computes its meaning: it completes exactly when every node has a
      value, and otherwise stops at a node whose meaning is the reported error. */
  method ExecuteWorkflowNodes(d: Definition, order: seq<Node>, f: Executor, payload: Json)
    returns (r: RunResult, outputs: map<string, Json>)
    requires Accepted(d) && IsExecutionOrder(d, order)
    ensures forall n :: n in outputs ==>
      n in NodeIds(d.nodes) && Meanings(d, f, payload)[n] == Value(outputs[n])
    ensures r.Completed? <==> forall n :: n in NodeIds(d.nodes) ==> Meanings(d, f, payload)[n].Value?
    ensures RanAllOf(d, f, payload, outputs)
    ensures r.NodeFailed? ==> FailedOn(d, f, payload, outputs, r.nodeId, r.code)
    ensures r.Completed? ==> outputs.Keys == NodeIds(d.nodes) && r.nodeCount == |d.nodes|
    ensures r.Completed? ==> order != [] && LastOutput(order, Meanings(d, f, payload)) == Value(r.finalOutput)
    ensures r.NodeFailed? ==> StoppedAt(order, Meanings(d, f, payload), outputs, r.nodeId, r.code)
  {
    AcceptedIsRunnable(d);
    OrderSize(d, order);
    MeaningsSolve(d, f, payload);
    ghost var m := Meanings(d, f, payload);
    r, outputs := RunInOrder(d, order, f, payload, m);
    CompletionIsTotal(d, order, m, r, outputs);
  }

  lemma CompletionIsTotal(
      d: Definition, order: seq<Node>, m: map<string, Meaning>, r: RunResult, outputs: map<string, Json>)
    requires m.Keys == NodeIds(d.nodes) == NodeIds(order)
    requires r.Completed? ==> Recorded(order, |order|, m, outputs)
    requires r.NodeFailed? ==> StoppedAt(order, m, outputs, r.nodeId, r.code)
    ensures r.Completed? ==> outputs.Keys == NodeIds(d.nodes)
    ensures r.Completed? <==> forall n :: n in NodeIds(d.nodes) ==> m[n].Value?
    ensures forall n :: n in outputs ==> n in NodeIds(d.nodes) && m[n] == Value(outputs[n])
  {
    assert order[..|order|] == order;
  }

  /** However many triggers a definition has, each of them means the original payload. */
  lemma TriggersMeanThePayload(d: Definition, f: Executor, payload: Json, node: Node)
    requires Accepted(d) && node in d.nodes && node.kind.ManualTrigger?
    ensures node.id in Meanings(d, f, payload) && Meanings(d, f, payload)[node.id] == Value(payload)
  {
    AcceptedIsRunnable(d);
    MeaningsSolve(d, f, payload);
    UnfedTriggerSolution(d, f, payload, Meanings(d, f, payload), node);
  }

  lemma UnfedTriggerSolution(d: Definition, f: Executor, payload: Json, m: map<string, Meaning>, node: Node)
    requires Solves(d, f, payload, m) && node in d.nodes && node.kind.ManualTrigger?
    requires Predecessors(d.edges, node.id) == {}
    ensures node.id in m && m[node.id] == Value(payload)
  {
    assert Feeds(d.edges, m, node.id) == map[];
    assert Values(map[]) == map[];
    var i :| 0 <= i < |d.nodes| && d.nodes[i] == node;
    assert d.nodes[i].id in NodeIds(d.nodes);
  }

  // ---- What the meaning of a node is, source by source ----

  lemma EquationOf(d: Definition, f: Executor, payload: Json, node: Node)
    requires Accepted(d) && node in d.nodes
    ensures var m := Meanings(d, f, payload);
      && node.id in m && Predecessors(d.edges, node.id) <= m.Keys
      && Feeds(d.edges, m, node.id).Keys == Predecessors(d.edges, node.id)
      && m[node.id] == Evaluate(f, node, payload, Feeds(d.edges, m, node.id))
  {
    MeaningsSolve(d, f, payload);
  }

  lemma EvaluateAll(f: Executor, node: Node, payload: Json, feeds: map<string, Meaning>, values: map<string, Json>)
    requires feeds.Keys == values.Keys && forall s :: s in values ==> feeds[s] == Value(values[s])
    ensures exists input ::
      FeedsInput(payload, values, input) && Evaluate(f, node, payload, feeds) == Yield(Execute(f, node, input))
  {
    assert Values(feeds) == values && |values| == |values.Keys|;
    var input := Merge(payload, values);
    if |values.Keys| == 1 {
      var s :| s in values;
      SingletonKey(values, s);
    }
    assert FeedsInput(payload, values, input);
  }

  /** A node whose sources all have values means what its executor makes of the one there is, as it is, or of the
      record of several, by the ids of the sources. */
  lemma SourcesAreHandedOn(
      d: Definition, f: Executor, payload: Json, node: Node, values: map<string, Json>)
    requires Accepted(d) && node in d.nodes && values.Keys == Predecessors(d.edges, node.id)
    requires forall s :: s in values ==> s in Meanings(d, f, payload) && Meanings(d, f, payload)[s] == Value(values[s])
    ensures node.id in Meanings(d, f, payload)
    ensures var meaning := Meanings(d, f, payload)[node.id];
      && (forall s :: values.Keys == {s} ==> meaning == Yield(Execute(f, node, values[s])))
      && (|values.Keys| > 1 ==> meaning == Yield(Execute(f, node, Record(values))))
      && (values.Keys == {} ==> meaning == Yield(Execute(f, node, payload)))
  {
    EquationOf(d, f, payload, node);
    EvaluateAll(f, node, payload, Feeds(d.edges, Meanings(d, f, payload), node.id), values);
  }

  /** A node some source of which has no value is not run. */
  lemma WithoutAValueStarved(d: Definition, f: Executor, payload: Json, node: Node, s: string)
    requires Accepted(d) && node in d.nodes && s in Predecessors(d.edges, node.id)
    requires s in Meanings(d, f, payload) && !Meanings(d, f, payload)[s].Value?
    ensures node.id in Meanings(d, f, payload) && Meanings(d, f, payload)[node.id].Starved?
  {
    EquationOf(d, f, payload, node);
    assert s in Feeds(d.edges, Meanings(d, f, payload), node.id);
  }

  /** The node that runs last feeds nobody. */
  lemma LastNodeIsSink(d: Definition, order: seq<Node>, m: string)
    requires Accepted(d) && IsExecutionOrder(d, order)
    ensures order != [] && !HasEdge(d.edges, order[|order| - 1].id, m)
  {
    OrderSize(d, order);
    if HasEdge(d.edges, order[|order| - 1].id, m) {
      SinkContradiction(d.edges, order, m);
    }
  }

  lemma SinkContradiction(edges: seq<Edge>, order: seq<Node>, m: string)
    requires Distinct(order) && EdgesForward(edges, order) && order != [] && m in NodeIds(order)
    ensures !HasEdge(edges, order[|order| - 1].id, m)
  {
    var i :| 0 <= i < |order| && order[i].id == m;
  }

  // ---- Parsing, ordering and running together ----

  datatype DefinitionResult =
    | DefinitionInvalid
    | DefinitionUnordered
    | Ran(result: RunResult)

  /** From a stored definition to its result: an invalid definition is refused, an accepted one is always
      ordered, and completes exactly when every node has a value. */
  method RunDefinition(d: Definition, f: Executor, payload: Json)
    returns (r: DefinitionResult, outputs: map<string, Json>)
    ensures r.DefinitionInvalid? <==> !Accepted(d)
    ensures !r.DefinitionUnordered?
    ensures r.Ran? ==> forall n :: n in outputs ==>
      n in NodeIds(d.nodes) && Meanings(d, f, payload)[n] == Value(outputs[n])
    ensures r.Ran? ==>
      (r.result.Completed? <==> forall n :: n in NodeIds(d.nodes) ==> Meanings(d, f, payload)[n].Value?)
    ensures r.Ran? ==> RanAllOf(d, f, payload, outputs)
    ensures r.Ran? && r.result.NodeFailed? ==> FailedOn(d, f, payload, outputs, r.result.nodeId, r.result.code)
    ensures r.Ran? && r.result.Completed? ==> outputs.Keys == NodeIds(d.nodes) && r.result.nodeCount == |d.nodes|
    ensures r.Ran? && r.result.Completed? ==>
      exists n :: IsSinkValue(d, Meanings(d, f, payload), n, r.result.finalOutput)
    ensures r.Ran? && r.result.NodeFailed? ==>
      r.result.nodeId in NodeIds(d.nodes) && Meanings(d, f, payload)[r.result.nodeId] == Error(r.result.code)
  {
    outputs := map[];
    var success := Parse(d);
    if !success {
      return DefinitionInvalid, outputs;
    }
    AcceptedIsOrderable(d);
    var order := OrderWorkflowNodes(d);
    if order.Unordered? {
      return DefinitionUnordered, outputs;
    }
    var run, outs := ExecuteWorkflowNodes(d, order.nodes, f, payload);
    if run.Completed? { FinalOutputIsSinkValue(d, order.nodes, Meanings(d, f, payload), run.finalOutput); }
    return Ran(run), outs;
  }

  /** `v` is the meaning of node `n`, which feeds nobody. */
  ghost predicate IsSinkValue(d: Definition, m: map<string, Meaning>, n: string, v: Json) {
    n in NodeIds(d.nodes) && n in m && m[n] == Value(v) && forall b :: !HasEdge(d.edges, n, b)
  }

  lemma FinalOutputIsSinkValue(d: Definition, order: seq<Node>, m: map<string, Meaning>, v: Json)
    requires Accepted(d) && IsExecutionOrder(d, order) && m.Keys == NodeIds(d.nodes)
    requires order != [] ==> LastOutput(order, m) == Value(v)
    ensures exists n :: IsSinkValue(d, m, n, v)
  {
    OrderSize(d, order);
    LastNodeIsSink(d, order, "");
    var n := order[|order| - 1].id;
    forall b ensures !HasEdge(d.edges, n, b) { LastNodeIsSink(d, order, b); }
    assert order[|order| - 1].id in NodeIds(order);
    assert IsSinkValue(d, m, n, v);
  }
}
