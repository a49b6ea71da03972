/** The level computation that lays out the canvas
    (getNodeLevels in apps/web/src/features/workflow-canvas/workflow-canvas.tsx).
    Nodes are queued again whenever an edge leads to them, with no visited set, and the editor calls it on
    drafts that no validator has seen: edges may dangle and cycles may exist. */
module CanvasLevels {
  import opened WorkflowGraph
  import opened WorkflowValidator

  // ---- The graph that the loop walks ----

  /** The edges between nodes that exist: only these lead to another turn of the loop. */
  function Live(edges: seq<Edge>, ids: set<string>): seq<Edge> {
    if edges == [] then []
    else
      var e := edges[|edges| - 1];
      Live(edges[..|edges| - 1], ids) + (if e.source in ids && e.target in ids then [e] else [])
  }

  function Known(ts: seq<string>, ids: set<string>): seq<string> {
    if ts == [] then []
    else Known(ts[..|ts| - 1], ids) + (if ts[|ts| - 1] in ids then [ts[|ts| - 1]] else [])
  }

  lemma {:induction false} KnownElements(ts: seq<string>, ids: set<string>, t: string)
    ensures t in Known(ts, ids) <==> t in ts && t in ids
  {
    if ts != [] {
      KnownElements(ts[..|ts| - 1], ids, t);
      assert ts == ts[..|ts| - 1] + [ts[|ts| - 1]];
    }
  }

  lemma {:induction false} KnownAppend(ts: seq<string>, t: string, ids: set<string>)
    ensures Known(ts + [t], ids) == Known(ts, ids) + (if t in ids then [t] else [])
  {
    assert (ts + [t])[..|ts|] == ts;
  }

  lemma TargetsAppend(edges: seq<Edge>, e: Edge, n: string)
    ensures Targets(edges + [e], n) == Targets(edges, n) + (if e.source == n then [e.target] else [])
  {
    assert (edges + [e])[..|edges|] == edges;
  }

  /** The live edges out of a node lead to its known targets. */
  lemma {:induction false} LiveTargets(edges: seq<Edge>, ids: set<string>, n: string)
    requires n in ids
    ensures Targets(Live(edges, ids), n) == Known(Targets(edges, n), ids)
  {
    if edges != [] {
      var front, e := edges[..|edges| - 1], edges[|edges| - 1];
      LiveTargets(front, ids, n);
      if e.source in ids && e.target in ids {
        TargetsAppend(Live(front, ids), e, n);
      } else {
        assert Live(edges, ids) == Live(front, ids);
      }
      if e.source == n {
        KnownAppend(Targets(front, n), e.target, ids);
      } else {
        assert Targets(edges, n) == Targets(front, n);
      }
    }
  }

  ghost predicate IsRoot(edges: seq<Edge>, n: string) { forall a :: !HasEdge(edges, a, n) }

  /** The nodes without incoming edges, in order. */
  function RootIds(nodes: seq<Node>, edges: seq<Edge>): seq<string> {
    if nodes == [] then []
    else
      var n := nodes[|nodes| - 1].id;
      RootIds(nodes[..|nodes| - 1], edges) + (if PendingInDegree(edges, n, {}) == 0 then [n] else [])
  }

  lemma {:induction false} RootIdsAreRoots(nodes: seq<Node>, edges: seq<Edge>, n: string)
    ensures n in RootIds(nodes, edges) <==> n in NodeIds(nodes) && IsRoot(edges, n)
  {
    if nodes != [] {
      var k := |nodes| - 1;
      RootIdsAreRoots(nodes[..k], edges, n);
      NodeSetsStep(nodes, k);
      assert nodes[..k + 1] == nodes;
      PendingZero(edges, nodes[k].id, {});
    }
  }

  /** One turn of the loop: the head gives way to its known targets. */
  function Turn(d: Definition, queue: seq<string>): seq<string> {
    if queue == [] then [] else queue[1..] + Known(Targets(d.edges, queue[0]), NodeIds(d.nodes))
  }

  function Turns(d: Definition, queue: seq<string>, k: nat): seq<string>
    decreases k
  {
    if k == 0 then queue else Turns(d, Turn(d, queue), k - 1)
  }

  ghost predicate AreNodes(d: Definition, queue: seq<string>) { forall q :: q in queue ==> q in NodeIds(d.nodes) }

  function LiveOf(d: Definition): seq<Edge> { Live(d.edges, NodeIds(d.nodes)) }

  lemma TurnFollowsLive(d: Definition, queue: seq<string>)
    requires AreNodes(d, queue)
    ensures AreNodes(d, Turn(d, queue))
    ensures queue != [] ==> Turn(d, queue) == queue[1..] + Targets(LiveOf(d), queue[0])
  {
    if queue != [] {
      LiveTargets(d.edges, NodeIds(d.nodes), queue[0]);
      forall q | q in Turn(d, queue) ensures q in NodeIds(d.nodes) {
        if q !in queue[1..] { KnownElements(Targets(d.edges, queue[0]), NodeIds(d.nodes), q); }
      }
    }
  }

  // ---- Without a reachable cycle, the queue is measured by the walks that leave it ----

  /** Past a node that reaches no cycle, everything that can still be reached shrinks. */
  lemma SafeStep(live: seq<Edge>, a: string, b: string)
    requires !CyclicFrom(live, a) && HasEdge(live, a, b)
    ensures !CyclicFrom(live, b) && Descendants(live, b) < Descendants(live, a)
  {
    EdgeReaches(live, a, b);
    forall c | c == b || Reaches(live, b, c) ensures Reaches(live, a, c) {
      if c != b { ReachesTransitive(live, a, b, c); }
    }
    assert b in Descendants(live, a) && b !in Descendants(live, b);
  }

  /** The number of walks that start at a node. */
  ghost function Fan(live: seq<Edge>, n: string): nat
    requires !CyclicFrom(live, n)
    decreases Descendants(live, n), |Targets(live, n)| + 1
  {
    TargetsLeave(live, n);
    1 + FanList(live, n, Targets(live, n))
  }

  ghost function FanList(live: seq<Edge>, n: string, ts: seq<string>): nat
    requires !CyclicFrom(live, n) && forall t :: t in ts ==> HasEdge(live, n, t)
    decreases Descendants(live, n), |ts|
  {
    if ts == [] then 0
    else
      SafeStep(live, n, ts[|ts| - 1]);
      FanList(live, n, ts[..|ts| - 1]) + Fan(live, ts[|ts| - 1])
  }

  lemma TargetsLeave(edges: seq<Edge>, n: string)
    ensures forall t :: t in Targets(edges, n) <==> HasEdge(edges, n, t)
  {
    forall t ensures t in Targets(edges, n) <==> HasEdge(edges, n, t) { TargetsAreEdges(edges, n, t); }
  }

  ghost predicate AllSafe(live: seq<Edge>, queue: seq<string>) { forall q :: q in queue ==> !CyclicFrom(live, q) }

  ghost function QueueFan(live: seq<Edge>, queue: seq<string>): nat
    requires AllSafe(live, queue)
  {
    if queue == [] then 0 else QueueFan(live, queue[..|queue| - 1]) + Fan(live, queue[|queue| - 1])
  }

  lemma {:induction false} QueueFanConcat(live: seq<Edge>, q: seq<string>, r: seq<string>)
    requires AllSafe(live, q) && AllSafe(live, r)
    ensures AllSafe(live, q + r) && QueueFan(live, q + r) == QueueFan(live, q) + QueueFan(live, r)
  {
    if r == [] {
      assert q + r == q;
    } else {
      QueueFanConcat(live, q, r[..|r| - 1]);
      assert (q + r)[..|q + r| - 1] == q + r[..|r| - 1];
    }
  }

  lemma {:induction false} QueueFanOfTargets(live: seq<Edge>, n: string, ts: seq<string>)
    requires !CyclicFrom(live, n) && forall t :: t in ts ==> HasEdge(live, n, t)
    ensures AllSafe(live, ts) && QueueFan(live, ts) == FanList(live, n, ts)
  {
    forall t | t in ts ensures !CyclicFrom(live, t) { SafeStep(live, n, t); }
    if ts != [] {
      QueueFanOfTargets(live, n, ts[..|ts| - 1]);
    }
  }

  // ---- The measure counts walks ----

  /** A walk from `n`, given by the numbers of the edges it takes. */
  predicate IsEdgeWalk(live: seq<Edge>, n: string, w: seq<nat>)
    decreases |w|
  {
    w != [] ==> w[0] < |live| && live[w[0]].source == n && IsEdgeWalk(live, live[w[0]].target, w[1..])
  }

  /** `ws` are the walks from `n` that are not empty and begin with one of the first `k` edges. */
  ghost predicate AreWalks(live: seq<Edge>, n: string, k: nat, ws: set<seq<nat>>) {
    forall w {:trigger w in ws} :: w in ws <==> w != [] && w[0] < k && IsEdgeWalk(live, n, w)
  }

  ghost predicate AreAllWalks(live: seq<Edge>, n: string, ws: set<seq<nat>>) {
    forall w {:trigger w in ws} :: w in ws <==> IsEdgeWalk(live, n, w)
  }

  function Prefixed(i: nat, ws: set<seq<nat>>): set<seq<nat>> { set w | w in ws :: [i] + w }

  lemma InPrefixed(i: nat, ws: set<seq<nat>>, w: seq<nat>)
    ensures w in Prefixed(i, ws) <==> w != [] && w[0] == i && w[1..] in ws
  {
    if w in Prefixed(i, ws) {
      var v :| v in ws && w == [i] + v;
      assert w[1..] == v;
    }
    if w != [] && w[0] == i { assert w == [i] + w[1..]; }
  }

  lemma {:induction false} PrefixedSize(i: nat, ws: set<seq<nat>>)
    ensures |Prefixed(i, ws)| == |ws|
  {
    if ws != {} {
      var x :| x in ws;
      PrefixedSize(i, ws - {x});
      forall w ensures w in Prefixed(i, ws) <==> w in Prefixed(i, ws - {x}) || w == [i] + x {
        InPrefixed(i, ws, w);
        InPrefixed(i, ws - {x}, w);
        assert ([i] + x)[1..] == x;
      }
      InPrefixed(i, ws - {x}, [i] + x);
      assert Prefixed(i, ws) == Prefixed(i, ws - {x}) + {[i] + x};
    }
  }

  /** There are as many walks from a node as its fan says: one that stays, and those over its targets. */
  lemma {:induction false} FanCountsWalks(live: seq<Edge>, n: string) returns (ws: set<seq<nat>>)
    requires !CyclicFrom(live, n)
    ensures AreAllWalks(live, n, ws) && |ws| == Fan(live, n)
    decreases Descendants(live, n), |live| + 1
  {
    TargetsLeave(live, n);
    assert live[..|live|] == live;
    var further := FanListCountsWalks(live, n, |live|);
    ws := further + {[]};
    forall w ensures w in ws <==> IsEdgeWalk(live, n, w) { assert w in further <==> w in ws && w != []; }
  }

  lemma {:induction false} FanListCountsWalks(live: seq<Edge>, n: string, k: nat) returns (ws: set<seq<nat>>)
    requires !CyclicFrom(live, n) && k <= |live|
    ensures forall t :: t in Targets(live[..k], n) ==> HasEdge(live, n, t)
    ensures AreWalks(live, n, k, ws) && |ws| == FanList(live, n, Targets(live[..k], n))
    decreases Descendants(live, n), k
  {
    TargetsOfPrefix(live, n, k);
    if k == 0 {
      ws := {};
    } else {
      var before := FanListCountsWalks(live, n, k - 1);
      FanListNext(live, n, k);
      if live[k - 1].source == n {
        var rest := FanCountsWalks(live, live[k - 1].target);
        NewWalks(live, n, k, before, rest);
        ws := before + Prefixed(k - 1, rest);
      } else {
        NoNewWalks(live, n, k, before);
        ws := before;
      }
    }
  }

  lemma FanListNext(live: seq<Edge>, n: string, k: nat)
    requires !CyclicFrom(live, n) && 0 < k <= |live|
    requires forall t :: t in Targets(live[..k], n) ==> HasEdge(live, n, t)
    requires forall t :: t in Targets(live[..k - 1], n) ==> HasEdge(live, n, t)
    ensures live[k - 1].source == n ==>
      !CyclicFrom(live, live[k - 1].target) && Descendants(live, live[k - 1].target) < Descendants(live, n)
    ensures FanList(live, n, Targets(live[..k], n)) == FanList(live, n, Targets(live[..k - 1], n))
      + if live[k - 1].source == n then Fan(live, live[k - 1].target) else 0
  {
    assert live[..k][..k - 1] == live[..k - 1];
    if live[k - 1].source == n {
      var ts := Targets(live[..k], n);
      assert ts == Targets(live[..k - 1], n) + [live[k - 1].target];
      assert ts[..|ts| - 1] == Targets(live[..k - 1], n);
      SafeStep(live, n, live[k - 1].target);
    } else {
      assert Targets(live[..k], n) == Targets(live[..k - 1], n);
    }
  }

  lemma NoNewWalks(live: seq<Edge>, n: string, k: nat, ws: set<seq<nat>>)
    requires 0 < k <= |live| && live[k - 1].source != n && AreWalks(live, n, k - 1, ws)
    ensures AreWalks(live, n, k, ws)
  {
  }

  lemma TargetsOfPrefix(live: seq<Edge>, n: string, k: nat)
    requires k <= |live|
    ensures forall t :: t in Targets(live[..k], n) ==> HasEdge(live, n, t)
  {
    forall t | t in Targets(live[..k], n) ensures HasEdge(live, n, t) {
      TargetsAreEdges(live[..k], n, t);
      var i :| 0 <= i < k && live[..k][i].source == n && live[..k][i].target == t;
      assert live[i].source == n && live[i].target == t;
    }
  }

  /** One walk: it begins with an edge before the last one, or takes the last one and goes on from there. */
  lemma NewWalk(live: seq<Edge>, n: string, k: nat, before: set<seq<nat>>, rest: set<seq<nat>>, w: seq<nat>)
    requires 0 < k <= |live| && live[k - 1].source == n
    requires w in before <==> w != [] && w[0] < k - 1 && IsEdgeWalk(live, n, w)
    requires w != [] ==> (w[1..] in rest <==> IsEdgeWalk(live, live[k - 1].target, w[1..]))
    ensures w in before || w in Prefixed(k - 1, rest) <==> w != [] && w[0] < k && IsEdgeWalk(live, n, w)
    ensures w in before ==> w !in Prefixed(k - 1, rest)
  {
    InPrefixed(k - 1, rest, w);
  }

  lemma NewWalks(live: seq<Edge>, n: string, k: nat, before: set<seq<nat>>, rest: set<seq<nat>>)
    requires 0 < k <= |live| && live[k - 1].source == n && AreWalks(live, n, k - 1, before)
    requires AreAllWalks(live, live[k - 1].target, rest)
    ensures AreWalks(live, n, k, before + Prefixed(k - 1, rest))
    ensures |before + Prefixed(k - 1, rest)| == |before| + |rest|
  {
    forall w ensures w in before + Prefixed(k - 1, rest) <==> w != [] && w[0] < k && IsEdgeWalk(live, n, w) {
      assert w != [] ==> (w[1..] in rest <==> IsEdgeWalk(live, live[k - 1].target, w[1..]));
      NewWalk(live, n, k, before, rest, w);
    }
    forall w | w in before ensures w !in Prefixed(k - 1, rest) { InPrefixed(k - 1, rest, w); }
    assert before !! Prefixed(k - 1, rest);
    PrefixedSize(k - 1, rest);
  }

  /** A turn lowers the measure by exactly one. */
  lemma PopLowersFan(live: seq<Edge>, queue: seq<string>)
    requires queue != [] && AllSafe(live, queue)
    ensures var next := queue[1..] + Targets(live, queue[0]);
      AllSafe(live, next) && QueueFan(live, next) == QueueFan(live, queue) - 1
  {
    var n := queue[0];
    TargetsLeave(live, n);
    QueueFanOfTargets(live, n, Targets(live, n));
    QueueFanConcat(live, queue[1..], Targets(live, n));
    assert queue == [n] + queue[1..] && AllSafe(live, [n]);
    QueueFanConcat(live, [n], queue[1..]);
    assert QueueFan(live, [n]) == QueueFan(live, []) + Fan(live, n) by { assert [n][..0] == []; }
  }

  lemma TurnLowersFan(d: Definition, queue: seq<string>)
    requires queue != [] && AreNodes(d, queue) && AllSafe(LiveOf(d), queue)
    ensures AreNodes(d, Turn(d, queue)) && AllSafe(LiveOf(d), Turn(d, queue))
    ensures QueueFan(LiveOf(d), Turn(d, queue)) == QueueFan(LiveOf(d), queue) - 1
  {
    TurnFollowsLive(d, queue);
    PopLowersFan(LiveOf(d), queue);
  }

  lemma {:induction false} SafeQueueEmpties(d: Definition, queue: seq<string>)
    requires AreNodes(d, queue) && AllSafe(LiveOf(d), queue)
    ensures Turns(d, queue, QueueFan(LiveOf(d), queue)) == []
    decreases QueueFan(LiveOf(d), queue)
  {
    if queue != [] {
      TurnLowersFan(d, queue);
      SafeQueueEmpties(d, Turn(d, queue));
    }
  }

  // ---- With one, the queue is never empty ----

  /** From a node that reaches a cycle, some edge leads to another such node. */
  lemma CyclicStep(live: seq<Edge>, a: string) returns (b: string)
    requires CyclicFrom(live, a)
    ensures HasEdge(live, a, b) && CyclicFrom(live, b)
  {
    var c :| (c == a || Reaches(live, a, c)) && Reaches(live, c, c);
    b := FirstEdge(live, a, c);
  }

  /** Only nodes are queued, and one of them reaches a cycle. */
  ghost predicate CycleAhead(d: Definition, queue: seq<string>) {
    AreNodes(d, queue) && exists q :: q in queue && CyclicFrom(LiveOf(d), q)
  }

  lemma CycleStaysAhead(d: Definition, queue: seq<string>)
    requires CycleAhead(d, queue)
    ensures CycleAhead(d, Turn(d, queue))
  {
    var q :| q in queue && CyclicFrom(LiveOf(d), q);
    TurnFollowsLive(d, queue);
    if q !in queue[1..] {
      var b := CyclicStep(LiveOf(d), q);
      TargetsAreEdges(LiveOf(d), q, b);
      assert b in Turn(d, queue);
    }
  }

  lemma AheadIsNotEmpty(d: Definition, queue: seq<string>)
    requires CycleAhead(d, queue)
    ensures queue != []
  {
  }

  lemma {:induction false} CyclicQueueNeverEmpties(d: Definition, queue: seq<string>, k: nat)
    requires CycleAhead(d, queue)
    ensures Turns(d, queue, k) != []
    decreases k
  {
    if k == 0 {
      AheadIsNotEmpty(d, queue);
    } else {
      CycleStaysAhead(d, queue);
      CyclicQueueNeverEmpties(d, Turn(d, queue), k - 1);
    }
  }

  /** Some node without incoming edges leads, over existing nodes, into a cycle. */
  ghost predicate Hangs(d: Definition) {
    exists r :: r in NodeIds(d.nodes) && IsRoot(d.edges, r) && CyclicFrom(LiveOf(d), r)
  }

  predicate EndsAfter(d: Definition, k: nat) { Turns(d, RootIds(d.nodes, d.edges), k) == [] }

  /** The loop ends exactly when no cycle can be reached from a node without incoming edges. */
  lemma EndsExactlyWithoutCycle(d: Definition)
    ensures (exists k :: EndsAfter(d, k)) <==> !Hangs(d)
  {
    var roots := RootIds(d.nodes, d.edges);
    forall r ensures r in roots <==> r in NodeIds(d.nodes) && IsRoot(d.edges, r) {
      RootIdsAreRoots(d.nodes, d.edges, r);
    }
    if Hangs(d) {
      var r :| r in NodeIds(d.nodes) && IsRoot(d.edges, r) && CyclicFrom(LiveOf(d), r);
      assert r in roots && CycleAhead(d, roots);
      forall k: nat ensures !EndsAfter(d, k) { CyclicQueueNeverEmpties(d, roots, k); }
    } else {
      RootsAreSafe(d);
      SafeQueueEmpties(d, roots);
      assert EndsAfter(d, QueueFan(LiveOf(d), roots));
    }
  }

  // ---- Levels ----

  /** A walk from a node without incoming edges to `n`, over existing nodes. */
  ghost predicate Leads(d: Definition, p: seq<string>, n: string) {
    && IsWalk(d.edges, p) && IsRoot(d.edges, p[0]) && p[|p| - 1] == n && p[0] in NodeIds(d.nodes)
    && forall i :: 0 <= i < |p| - 1 ==> p[i] in NodeIds(d.nodes)
  }

  ghost predicate HasWalk(d: Definition, n: string, edges: nat) { exists p :: Leads(d, p, n) && |p| - 1 == edges }

  /** The number of edges of a longest walk to `n`. */
  ghost predicate IsLongest(d: Definition, n: string, v: nat) {
    HasWalk(d, n, v) && forall p :: Leads(d, p, n) ==> |p| - 1 <= v
  }

  lemma WalkOn(d: Definition, a: string, b: string, v: nat)
    requires HasWalk(d, a, v) && a in NodeIds(d.nodes) && HasEdge(d.edges, a, b)
    ensures HasWalk(d, b, v + 1)
  {
    var p :| Leads(d, p, a) && |p| - 1 == v;
    var q := p + [b];
    forall i | 0 <= i < |q| - 1 ensures HasEdge(d.edges, q[i], q[i + 1]) && q[i] in NodeIds(d.nodes) {
      if i < |p| - 1 { assert HasEdge(d.edges, p[i], p[i + 1]); }
    }
    assert Leads(d, q, b);
  }

  function LevelOr0(levels: map<string, nat>, n: string): nat {
    if n in levels then levels[n] else 0
  }

  function Max(a: nat, b: nat): nat { if a > b then a else b }

  /** Every target is at `nextLevel` or where it was above that; nothing else moves. */
  ghost predicate IsRaise(levels: map<string, nat>, targets: seq<string>, nextLevel: nat, raised: map<string, nat>) {
    && (forall t :: t in raised <==> t in levels || t in targets)
    && (forall t :: t in raised ==>
          raised[t] == if t in targets then Max(LevelOr0(levels, t), nextLevel) else levels[t])
  }

  lemma RaiseStep(levels: map<string, nat>, targets: seq<string>, k: nat, nextLevel: nat, raised: map<string, nat>)
    requires k < |targets| && IsRaise(levels, targets[..k], nextLevel, raised)
    ensures IsRaise(levels, targets[..k + 1], nextLevel,
      raised[targets[k] := Max(LevelOr0(raised, targets[k]), nextLevel)])
  {
    assert targets[..k + 1] == targets[..k] + [targets[k]];
  }

  /** The successors of `a` are all at least one level up. */
  ghost predicate Settled(edges: seq<Edge>, levels: map<string, nat>, a: string)
    requires a in levels
  {
    forall b :: HasEdge(edges, a, b) ==> b in levels && levels[b] >= levels[a] + 1
  }

  ghost predicate Witnessed(d: Definition, levels: map<string, nat>) {
    forall n :: n in levels ==> HasWalk(d, n, levels[n])
  }

  ghost predicate RootsLevelled(d: Definition, levels: map<string, nat>) {
    forall r :: r in RootIds(d.nodes, d.edges) ==> r in levels
  }

  ghost predicate QueueLevelled(levels: map<string, nat>, queue: seq<string>) { forall q :: q in queue ==> q in levels }

  ghost predicate QueuedOrSettled(d: Definition, levels: map<string, nat>, queue: seq<string>) {
    forall a :: a in levels && a in NodeIds(d.nodes) && a !in queue ==> Settled(d.edges, levels, a)
  }

  /** Every level belongs to a walk, and every levelled node is queued or has passed its level on. */
  ghost predicate LevelState(d: Definition, levels: map<string, nat>, queue: seq<string>) {
    && Witnessed(d, levels) && RootsLevelled(d, levels)
    && QueueLevelled(levels, queue) && QueuedOrSettled(d, levels, queue)
  }

  lemma RaiseKeepsWitness(d: Definition, levels: map<string, nat>, raised: map<string, nat>, n: string)
    requires n in levels && n in NodeIds(d.nodes) && Witnessed(d, levels)
    requires IsRaise(levels, Targets(d.edges, n), levels[n] + 1, raised)
    ensures Witnessed(d, raised)
  {
    forall m | m in raised ensures HasWalk(d, m, raised[m]) {
      if m in Targets(d.edges, n) && raised[m] == levels[n] + 1 {
        TargetsAreEdges(d.edges, n, m);
        WalkOn(d, n, m, levels[n]);
      }
    }
  }

  lemma RaiseKeepsSettled(edges: seq<Edge>, levels: map<string, nat>, raised: map<string, nat>, n: string, a: string)
    requires n in levels && a in levels && a !in Targets(edges, n) && (a == n || Settled(edges, levels, a))
    requires IsRaise(levels, Targets(edges, n), levels[n] + 1, raised)
    ensures Settled(edges, raised, a)
  {
    TargetsLeave(edges, n);
  }

  lemma InTurn(d: Definition, queue: seq<string>, a: string)
    requires queue != [] && a in NodeIds(d.nodes)
    ensures a in Turn(d, queue) <==> a in queue[1..] || a in Targets(d.edges, queue[0])
  {
    KnownElements(Targets(d.edges, queue[0]), NodeIds(d.nodes), a);
  }

  lemma TurnKeepsSettled(d: Definition, levels: map<string, nat>, raised: map<string, nat>, queue: seq<string>)
    requires queue != [] && queue[0] in levels && QueuedOrSettled(d, levels, queue)
    requires IsRaise(levels, Targets(d.edges, queue[0]), levels[queue[0]] + 1, raised)
    ensures QueuedOrSettled(d, raised, Turn(d, queue))
  {
    forall a | a in raised && a in NodeIds(d.nodes) && a !in Turn(d, queue) ensures Settled(d.edges, raised, a) {
      InTurn(d, queue, a);
      RaiseKeepsSettled(d.edges, levels, raised, queue[0], a);
    }
  }

  lemma TurnKeepsLevelled(d: Definition, levels: map<string, nat>, raised: map<string, nat>, queue: seq<string>)
    requires queue != [] && AreNodes(d, queue) && QueueLevelled(levels, queue)
    requires IsRaise(levels, Targets(d.edges, queue[0]), levels[queue[0]] + 1, raised)
    ensures QueueLevelled(raised, Turn(d, queue))
  {
    TurnFollowsLive(d, queue);
    forall q | q in Turn(d, queue) ensures q in raised { InTurn(d, queue, q); }
  }

  lemma TurnKeepsLevelState(d: Definition, levels: map<string, nat>, raised: map<string, nat>, queue: seq<string>)
    requires queue != [] && AreNodes(d, queue) && LevelState(d, levels, queue)
    requires IsRaise(levels, Targets(d.edges, queue[0]), levels[queue[0]] + 1, raised)
    ensures LevelState(d, raised, Turn(d, queue))
  {
    RaiseKeepsWitness(d, levels, raised, queue[0]);
    TurnKeepsLevelled(d, levels, raised, queue);
    TurnKeepsSettled(d, levels, raised, queue);
    RaiseKeepsRoots(d, levels, raised, queue[0]);
  }

  lemma RaiseKeepsRoots(d: Definition, levels: map<string, nat>, raised: map<string, nat>, n: string)
    requires n in levels && RootsLevelled(d, levels) && IsRaise(levels, Targets(d.edges, n), levels[n] + 1, raised)
    ensures RootsLevelled(d, raised)
  {
  }

  lemma AllButLast(d: Definition, p: seq<string>, n: string)
    requires |p| > 1 && Leads(d, p, n)
    ensures Leads(d, p[..|p| - 1], p[|p| - 2])
    ensures p[|p| - 2] in NodeIds(d.nodes) && HasEdge(d.edges, p[|p| - 2], n)
  {
    assert HasEdge(d.edges, p[|p| - 2], p[|p| - 1]);
  }

  /** With nothing queued, no walk is longer than the level of its end. */
  lemma {:induction false} LevelsBoundWalks(d: Definition, levels: map<string, nat>, p: seq<string>, n: string)
    requires LevelState(d, levels, []) && Leads(d, p, n)
    ensures n in levels && |p| - 1 <= levels[n]
    decreases |p|
  {
    if |p| > 1 {
      AllButLast(d, p, n);
      LevelsBoundWalks(d, levels, p[..|p| - 1], p[|p| - 2]);
      assert Settled(d.edges, levels, p[|p| - 2]);
    } else {
      RootIdsAreRoots(d.nodes, d.edges, n);
    }
  }

  lemma RootsStart(d: Definition, levels: map<string, nat>)
    requires forall n :: n in levels <==> n in RootIds(d.nodes, d.edges)
    requires forall n :: n in levels ==> levels[n] == 0
    ensures LevelState(d, levels, RootIds(d.nodes, d.edges)) && AreNodes(d, RootIds(d.nodes, d.edges))
  {
    forall n ensures n in RootIds(d.nodes, d.edges) <==> n in NodeIds(d.nodes) && IsRoot(d.edges, n) {
      RootIdsAreRoots(d.nodes, d.edges, n);
    }
    forall n | n in levels ensures HasWalk(d, n, 0) { assert Leads(d, [n], n); }
  }

  // ---- The algorithm ----

  method Roots(nodes: seq<Node>, counts: map<string, int>, ghost edges: seq<Edge>)
    returns (queue: seq<Node>, levels: map<string, nat>)
    requires forall n :: CountOf(counts, n) == PendingInDegree(edges, n, {})
    ensures IdList(queue) == RootIds(nodes, edges)
    ensures forall n :: n in levels <==> n in RootIds(nodes, edges)
    ensures forall n :: n in levels ==> levels[n] == 0
  {
    queue, levels := [], map[];
    for k := 0 to |nodes|
      invariant IdList(queue) == RootIds(nodes[..k], edges)
      invariant forall n :: n in levels <==> n in RootIds(nodes[..k], edges)
      invariant forall n :: n in levels ==> levels[n] == 0
    {
      assert nodes[..k + 1][..k] == nodes[..k];
      var node := nodes[k];
      if CountOf(counts, node.id) == 0 {
        queue := queue + [node];
        levels := levels[node.id := 0];
      }
    }
    assert nodes[..|nodes|] == nodes;
  }

  /** The first node with an id, as a list of at most one. */
  method FindNode(nodes: seq<Node>, id: string) returns (found: seq<Node>)
    ensures IdList(found) == if id in NodeIds(nodes) then [id] else []
  {
    for i := 0 to |nodes|
      invariant forall j :: 0 <= j < i ==> nodes[j].id != id
    {
      if nodes[i].id == id {
        return [nodes[i]];
      }
    }
    return [];
  }

  lemma IdListConcat(a: seq<Node>, b: seq<Node>)
    ensures IdList(a + b) == IdList(a) + IdList(b)
  {
  }

  /** The inner loop: raise every target to `nextLevel` at least, and queue those that exist again. */
  method RaiseTargets(nodes: seq<Node>, targets: seq<string>, nextLevel: nat, levels: map<string, nat>)
    returns (raised: map<string, nat>, pushed: seq<Node>)
    ensures IsRaise(levels, targets, nextLevel, raised)
    ensures IdList(pushed) == Known(targets, NodeIds(nodes))
  {
    raised, pushed := levels, [];
    for k := 0 to |targets|
      invariant IsRaise(levels, targets[..k], nextLevel, raised)
      invariant IdList(pushed) == Known(targets[..k], NodeIds(nodes))
    {
      var t := targets[k];
      RaiseStep(levels, targets, k, nextLevel, raised);
      raised := raised[t := Max(LevelOr0(raised, t), nextLevel)];
      var found := FindNode(nodes, t);
      IdListConcat(pushed, found);
      KnownAppend(targets[..k], t, NodeIds(nodes));
      assert targets[..k + 1] == targets[..k] + [t];
      pushed := pushed + found;
    }
    assert targets[..|targets|] == targets;
  }

  /** One turn of the loop: the head of the queue raises its targets. */
  method RaiseFrom(d: Definition, out: map<string, seq<string>>, queue: seq<Node>, levels: map<string, nat>)
    returns (queue': seq<Node>, raised: map<string, nat>)
    requires IsAdjacency(out, d.edges) && queue != []
    ensures IdList(queue') == Turn(d, IdList(queue))
    ensures IsRaise(levels, Targets(d.edges, IdList(queue)[0]), LevelOr0(levels, IdList(queue)[0]) + 1, raised)
  {
    var node := queue[0];
    var pushed: seq<Node>;
    raised, pushed := RaiseTargets(d.nodes, Successors(out, node.id), LevelOr0(levels, node.id) + 1, levels);
    queue' := queue[1..] + pushed;
    IdListConcat(queue[1..], pushed);
    assert IdList(queue[1..]) == IdList(queue)[1..];
  }

  ghost predicate InLoop(d: Definition, levels: map<string, nat>, queue: seq<string>) {
    AreNodes(d, queue) && AllSafe(LiveOf(d), queue) && LevelState(d, levels, queue)
  }

  lemma TurnKeepsLoop(d: Definition, levels: map<string, nat>, raised: map<string, nat>, queue: seq<string>)
    requires queue != [] && InLoop(d, levels, queue)
    requires IsRaise(levels, Targets(d.edges, queue[0]), LevelOr0(levels, queue[0]) + 1, raised)
    ensures InLoop(d, raised, Turn(d, queue))
    ensures QueueFan(LiveOf(d), Turn(d, queue)) == QueueFan(LiveOf(d), queue) - 1
  {
    HeadIsLevelled(levels, queue);
    TurnLowersFan(d, queue);
    TurnKeepsLevelState(d, levels, raised, queue);
  }

  lemma HeadIsLevelled(levels: map<string, nat>, queue: seq<string>)
    requires queue != [] && QueueLevelled(levels, queue)
    ensures queue[0] in levels
  {
    assert queue[0] in queue;
  }

  /** The loop itself, from a queue that no cycle can be reached from. */
  method RaiseAll(d: Definition, out: map<string, seq<string>>, queue0: seq<Node>, levels0: map<string, nat>)
    returns (levels: map<string, nat>)
    requires IsAdjacency(out, d.edges) && InLoop(d, levels0, IdList(queue0))
    ensures LevelState(d, levels, [])
  {
    var queue := queue0;
    levels := levels0;
    while queue != []
      invariant InLoop(d, levels, IdList(queue))
      decreases QueueFan(LiveOf(d), IdList(queue))
    {
      ghost var ids, before := IdList(queue), levels;
      queue, levels := RaiseFrom(d, out, queue, levels);
      TurnKeepsLoop(d, before, levels, ids);
    }
    assert IdList(queue) == [];
  }

  /** Where the loop ends, the levelled ids are those that a walk over nodes leads to, each at the number of
      edges of a longest such walk. */
  method GetNodeLevels(d: Definition) returns (levels: map<string, nat>)
    requires !Hangs(d)
    ensures forall n :: n in levels <==> exists v :: HasWalk(d, n, v)
    ensures forall n :: n in levels ==> IsLongest(d, n, levels[n])
  {
    var out, counts := IndexEdges(d.edges, map[]);
    var queue, levels0 := Roots(d.nodes, counts, d.edges);
    RootsStart(d, levels0);
    RootsAreSafe(d);
    levels := RaiseAll(d, out, queue, levels0);
    LevelsAreLongest(d, levels);
  }

  lemma LevelsAreLongest(d: Definition, levels: map<string, nat>)
    requires LevelState(d, levels, [])
    ensures forall n :: n in levels <==> exists v :: HasWalk(d, n, v)
    ensures forall n :: n in levels ==> IsLongest(d, n, levels[n])
  {
    forall n, p | Leads(d, p, n) ensures n in levels && |p| - 1 <= levels[n] { LevelsBoundWalks(d, levels, p, n); }
    forall n, v | HasWalk(d, n, v) ensures n in levels {
      var p :| Leads(d, p, n) && |p| - 1 == v;
    }
  }

  lemma RootsAreSafe(d: Definition)
    requires !Hangs(d)
    ensures AllSafe(LiveOf(d), RootIds(d.nodes, d.edges))
  {
    forall r | r in RootIds(d.nodes, d.edges) ensures !CyclicFrom(LiveOf(d), r) {
      RootIdsAreRoots(d.nodes, d.edges, r);
    }
  }

  /** Levels strictly increase along the edges of levelled nodes. */
  lemma LevelsIncrease(d: Definition, a: string, b: string, v: nat, w: nat)
    requires a in NodeIds(d.nodes) && HasEdge(d.edges, a, b) && IsLongest(d, a, v) && IsLongest(d, b, w)
    ensures v < w
  {
    WalkOn(d, a, b, v);
  }

  // ---- Acyclic definitions, in particular accepted ones ----

  lemma {:induction false} LiveIsPart(edges: seq<Edge>, ids: set<string>, e: Edge)
    requires e in Live(edges, ids)
    ensures e in edges
  {
    var k := |edges| - 1;
    if e in Live(edges[..k], ids) { LiveIsPart(edges[..k], ids, e); }
  }

  lemma LiveEdges(edges: seq<Edge>, ids: set<string>, a: string, b: string)
    requires HasEdge(Live(edges, ids), a, b)
    ensures HasEdge(edges, a, b)
  {
    var live := Live(edges, ids);
    var i :| 0 <= i < |live| && live[i].source == a && live[i].target == b;
    LiveIsPart(edges, ids, live[i]);
  }

  lemma LiveWalks(d: Definition, a: string, b: string)
    requires Reaches(LiveOf(d), a, b)
    ensures Reaches(d.edges, a, b)
  {
    var p :| |p| >= 2 && IsWalkBetween(LiveOf(d), p, a, b);
    forall i | 0 <= i < |p| - 1 ensures HasEdge(d.edges, p[i], p[i + 1]) {
      LiveEdges(d.edges, NodeIds(d.nodes), p[i], p[i + 1]);
    }
    assert IsWalkBetween(d.edges, p, a, b);
  }

  lemma {:induction false} EveryNodeIsLedTo(d: Definition, n: string)
    requires Acyclic(d.edges) && EndpointsExist(d) && n in NodeIds(d.nodes)
    ensures exists v :: HasWalk(d, n, v)
    decreases Ancestors(d.edges, n)
  {
    if IsRoot(d.edges, n) {
      assert Leads(d, [n], n);
      assert HasWalk(d, n, 0);
    } else {
      var a :| HasEdge(d.edges, a, n);
      AncestorsGrow(d.edges, a, n);
      EveryNodeIsLedTo(d, a);
      var v :| HasWalk(d, a, v);
      WalkOn(d, a, n, v);
    }
  }

  /** On acyclic definitions, so on everything the validator accepts, the loop ends and levels every node. */
  lemma AcyclicIsLevelled(d: Definition)
    requires Acyclic(d.edges) && EndpointsExist(d)
    ensures !Hangs(d)
    ensures forall n :: n in NodeIds(d.nodes) ==> exists v :: HasWalk(d, n, v)
  {
    forall r, c | Reaches(LiveOf(d), c, c) && (c == r || Reaches(LiveOf(d), r, c)) ensures false {
      LiveWalks(d, c, c);
    }
    forall n | n in NodeIds(d.nodes) ensures exists v :: HasWalk(d, n, v) { EveryNodeIsLedTo(d, n); }
  }

  // ---- A draft on which the loop hangs ----

  const HANGING := Definition(
    [Node("a", ManualTrigger, ""), Node("b", Transform, "")], [Edge("1", "a", "b"), Edge("2", "b", "b")])

  /** One edge from the trigger to a node that feeds itself is enough. */
  lemma HangingDraft()
    ensures Hangs(HANGING) && forall k :: !EndsAfter(HANGING, k)
  {
    var ids := NodeIds(HANGING.nodes);
    assert HANGING.nodes[0].id in ids && HANGING.nodes[1].id in ids;
    var one, two := HANGING.edges[..1], HANGING.edges[0];
    assert HANGING.edges[..0] == [] && one[..0] == [] && HANGING.edges[..1] == [two];
    assert Live([], ids) == [] && Live(one, ids) == one;
    assert LiveOf(HANGING) == HANGING.edges;
    assert HANGING.edges[0].source == "a" && HANGING.edges[1].source == "b";
    assert HasEdge(HANGING.edges, "a", "b") && HasEdge(HANGING.edges, "b", "b");
    EdgeReaches(HANGING.edges, "a", "b");
    EdgeReaches(HANGING.edges, "b", "b");
    assert CyclicFrom(LiveOf(HANGING), "a");
    assert IsRoot(HANGING.edges, "a");
    EndsExactlyWithoutCycle(HANGING);
  }
}
