/** Workflow definitions as directed graphs: walks, cycles, and the ancestor sets
    that every descent argument of the project is measured by. */
module WorkflowGraph {

  datatype NodeType = ManualTrigger | Transform | Condition | HttpRequest | AiPrompt

  /** `config` stands for the type-specific part of a node; only executors look at it. */
  datatype Node = Node(id: string, kind: NodeType, config: string)
  datatype Edge = Edge(id: string, source: string, target: string)
  datatype Definition = Definition(nodes: seq<Node>, edges: seq<Edge>)

  function NodeIds(nodes: seq<Node>): set<string> {
    set i | 0 <= i < |nodes| :: nodes[i].id
  }

  function TriggerIds(nodes: seq<Node>): set<string> {
    set i | 0 <= i < |nodes| && nodes[i].kind.ManualTrigger? :: nodes[i].id
  }

  function Elements(s: seq<string>): set<string> {
    set x | x in s
  }

  predicate HasEdge(edges: seq<Edge>, a: string, b: string) {
    exists i :: 0 <= i < |edges| && edges[i].source == a && edges[i].target == b
  }

  /** A nonempty sequence of ids, each joined to the next by an edge. */
  ghost predicate IsWalk(edges: seq<Edge>, p: seq<string>) {
    |p| > 0 && forall i :: 0 <= i < |p| - 1 ==> HasEdge(edges, p[i], p[i + 1])
  }

  ghost predicate IsWalkBetween(edges: seq<Edge>, p: seq<string>, a: string, b: string) {
    IsWalk(edges, p) && p[0] == a && p[|p| - 1] == b
  }

  /** `b` can be reached from `a` over one or more edges. */
  ghost predicate Reaches(edges: seq<Edge>, a: string, b: string) {
    exists p :: |p| >= 2 && IsWalkBetween(edges, p, a, b)
  }

  ghost predicate Acyclic(edges: seq<Edge>) {
    forall n :: !Reaches(edges, n, n)
  }

  function Sources(edges: seq<Edge>): set<string> {
    set i | 0 <= i < |edges| :: edges[i].source
  }

  function EdgeTargets(edges: seq<Edge>): set<string> {
    set i | 0 <= i < |edges| :: edges[i].target
  }

  lemma EdgeReaches(edges: seq<Edge>, a: string, b: string)
    requires HasEdge(edges, a, b)
    ensures Reaches(edges, a, b)
  {
    assert IsWalkBetween(edges, [a, b], a, b);
  }

  lemma WalkConcat(edges: seq<Edge>, p: seq<string>, q: seq<string>)
    requires IsWalk(edges, p) && IsWalk(edges, q) && p[|p| - 1] == q[0]
    ensures IsWalk(edges, p + q[1..])
  {
    var r := p + q[1..];
    forall i | 0 <= i < |r| - 1
      ensures HasEdge(edges, r[i], r[i + 1])
    {
      if i >= |p| - 1 {
        assert r[i] == q[i - (|p| - 1)] && r[i + 1] == q[i - (|p| - 1) + 1];
      }
    }
  }

  lemma ReachesTransitive(edges: seq<Edge>, a: string, b: string, c: string)
    requires Reaches(edges, a, b) && Reaches(edges, b, c)
    ensures Reaches(edges, a, c)
  {
    var p :| |p| >= 2 && IsWalkBetween(edges, p, a, b);
    var q :| |q| >= 2 && IsWalkBetween(edges, q, b, c);
    WalkConcat(edges, p, q);
    assert IsWalkBetween(edges, p + q[1..], a, c);
  }

  /** Every way of leaving `a` starts with an edge out of it. */
  lemma FirstEdge(edges: seq<Edge>, a: string, b: string) returns (m: string)
    requires Reaches(edges, a, b)
    ensures HasEdge(edges, a, m) && (m == b || Reaches(edges, m, b))
  {
    var p :| |p| >= 2 && IsWalkBetween(edges, p, a, b);
    m := p[1];
    assert HasEdge(edges, p[0], p[1]);
    if |p| > 2 {
      assert IsWalkBetween(edges, p[1..], m, b);
    }
  }

  /** A set that edges do not leave is not left by walks either. */
  lemma {:induction false} ClosedUnderWalks(edges: seq<Edge>, S: set<string>, p: seq<string>)
    requires forall a, b :: a in S && HasEdge(edges, a, b) ==> b in S
    requires IsWalk(edges, p) && p[0] in S
    ensures forall i :: 0 <= i < |p| ==> p[i] in S
  {
    if |p| > 1 {
      assert HasEdge(edges, p[0], p[1]);
      ClosedUnderWalks(edges, S, p[1..]);
      forall i | 0 <= i < |p| ensures p[i] in S {
        if i > 0 { assert p[i] == p[1..][i - 1]; }
      }
    }
  }

  // ---- Ancestors and descendants: finite sets that grow or shrink along edges ----

  ghost function Ancestors(edges: seq<Edge>, n: string): set<string> {
    set m | m in Sources(edges) && Reaches(edges, m, n)
  }

  ghost function Descendants(edges: seq<Edge>, n: string): set<string> {
    set m | m in EdgeTargets(edges) && Reaches(edges, n, m)
  }

  lemma AncestorsGrow(edges: seq<Edge>, a: string, b: string)
    requires Acyclic(edges) && HasEdge(edges, a, b)
    ensures Ancestors(edges, a) < Ancestors(edges, b)
  {
    EdgeReaches(edges, a, b);
    forall m | m in Ancestors(edges, a) ensures m in Ancestors(edges, b) {
      ReachesTransitive(edges, m, a, b);
    }
    assert a in Ancestors(edges, b) && a !in Ancestors(edges, a);
  }

  // ---- Adjacency lists and pending in-degrees, as the algorithms tabulate them ----

  /** The targets of the edges leaving `n`, in edge order. */
  function Targets(edges: seq<Edge>, n: string): (r: seq<string>) {
    if edges == [] then []
    else
      var e := edges[|edges| - 1];
      Targets(edges[..|edges| - 1], n) + (if e.source == n then [e.target] else [])
  }

  /** The number of edges into `t` whose source is not in `done`. */
  function PendingInDegree(edges: seq<Edge>, t: string, done: set<string>): nat {
    if edges == [] then 0
    else
      var e := edges[|edges| - 1];
      PendingInDegree(edges[..|edges| - 1], t, done)
      + (if e.target == t && e.source !in done then 1 else 0)
  }

  function Occurrences(s: seq<string>, t: string): nat {
    if s == [] then 0
    else Occurrences(s[..|s| - 1], t) + (if s[|s| - 1] == t then 1 else 0)
  }

  lemma {:induction false} TargetsAreEdges(edges: seq<Edge>, n: string, t: string)
    ensures t in Targets(edges, n) <==> HasEdge(edges, n, t)
  {
    if edges != [] {
      var k := |edges| - 1;
      TargetsAreEdges(edges[..k], n, t);
      if HasEdge(edges[..k], n, t) {
        var i :| 0 <= i < k && edges[..k][i].source == n && edges[..k][i].target == t;
        assert edges[i].source == n && edges[i].target == t;
      }
      if HasEdge(edges, n, t) && !(edges[k].source == n && edges[k].target == t) {
        var i :| 0 <= i < |edges| && edges[i].source == n && edges[i].target == t;
        assert edges[..k][i] == edges[i];
      }
    }
  }

  lemma {:induction false} OccurrencesPositive(s: seq<string>, t: string)
    ensures Occurrences(s, t) > 0 <==> t in s
  {
    if s != [] {
      OccurrencesPositive(s[..|s| - 1], t);
      assert s == s[..|s| - 1] + [s[|s| - 1]];
    }
  }

  lemma {:induction false} OccurrencesAppend(s: seq<string>, x: string, t: string)
    ensures Occurrences(s + [x], t) == Occurrences(s, t) + (if x == t then 1 else 0)
  {
    assert (s + [x])[..|s|] == s;
  }

  /** Finishing `n` settles exactly the edges that `n` lists for `t`. */
  lemma {:induction false} PendingAfterDone(edges: seq<Edge>, t: string, done: set<string>, n: string)
    requires n !in done
    ensures PendingInDegree(edges, t, done + {n}) ==
            PendingInDegree(edges, t, done) - Occurrences(Targets(edges, n), t)
  {
    if edges != [] {
      var k := |edges| - 1;
      PendingAfterDone(edges[..k], t, done, n);
      if edges[k].source == n {
        OccurrencesAppend(Targets(edges[..k], n), edges[k].target, t);
      } else {
        assert Targets(edges, n) == Targets(edges[..k], n);
      }
    }
  }

  lemma {:induction false} PendingZero(edges: seq<Edge>, t: string, done: set<string>)
    ensures PendingInDegree(edges, t, done) == 0 <==>
            forall a :: HasEdge(edges, a, t) ==> a in done
  {
    if edges != [] {
      var k := |edges| - 1;
      PendingZero(edges[..k], t, done);
      forall a ensures HasEdge(edges, a, t) <==>
        HasEdge(edges[..k], a, t) || (edges[k].source == a && edges[k].target == t) {
        if HasEdge(edges[..k], a, t) {
          var i :| 0 <= i < k && edges[..k][i].source == a && edges[..k][i].target == t;
          assert edges[i].source == a && edges[i].target == t;
        }
        if HasEdge(edges, a, t) && !(edges[k].source == a && edges[k].target == t) {
          var i :| 0 <= i < |edges| && edges[i].source == a && edges[i].target == t;
          assert edges[..k][i] == edges[i];
        }
      }
    }
  }

  // ---- The index maps built by the validator, the worker and the canvas ----

  function Successors(out: map<string, seq<string>>, n: string): seq<string> {
    if n in out then out[n] else []
  }

  function CountOf(counts: map<string, int>, n: string): int {
    if n in counts then counts[n] else 0
  }

  ghost predicate IsAdjacency(out: map<string, seq<string>>, edges: seq<Edge>) {
    forall n :: Successors(out, n) == Targets(edges, n)
  }

  lemma AdjacencyEdges(out: map<string, seq<string>>, edges: seq<Edge>)
    requires IsAdjacency(out, edges)
    ensures forall a, b :: b in Successors(out, a) <==> HasEdge(edges, a, b)
  {
    forall a, b ensures b in Successors(out, a) <==> HasEdge(edges, a, b) {
      TargetsAreEdges(edges, a, b);
    }
  }

  method IndexEdges(edges: seq<Edge>, counts0: map<string, int>)
    returns (out: map<string, seq<string>>, counts: map<string, int>)
    requires forall n :: CountOf(counts0, n) == 0
    ensures IsAdjacency(out, edges)
    ensures forall n :: CountOf(counts, n) == PendingInDegree(edges, n, {})
    ensures EdgeTargets(edges) <= counts.Keys
  {
    out, counts := map[], counts0;
    for k := 0 to |edges|
      invariant IsAdjacency(out, edges[..k])
      invariant forall n :: CountOf(counts, n) == PendingInDegree(edges[..k], n, {})
      invariant forall i :: 0 <= i < k ==> edges[i].target in counts
    {
      var e := edges[k];
      assert edges[..k + 1][..k] == edges[..k];
      out := out[e.source := Successors(out, e.source) + [e.target]];
      counts := counts[e.target := CountOf(counts, e.target) + 1];
    }
    assert edges[..|edges|] == edges;
  }
}
