/** The cycle check over contract graphs: Kahn's algorithm over a node set and an
    edge list that may name unknown nodes and repeat edges. */
module ContractGraph {
  import opened Contracts

  type Node = string

  datatype GraphError = UnknownEdge(source: Node, target: Node) | Cycle

  type Edge = (Node, Node)

  predicate Known(nodes: set<Node>, e: Edge)
  {
    e.0 in nodes && e.1 in nodes
  }

  function KnownEdges(nodes: set<Node>, edges: seq<Edge>): (r: seq<Edge>)
    ensures forall e :: e in r <==> e in edges && Known(nodes, e)
  {
    if edges == [] then []
    else
      var rest := KnownEdges(nodes, edges[..|edges| - 1]);
      if Known(nodes, edges[|edges| - 1]) then rest + [edges[|edges| - 1]] else rest
  }

  function UnknownErrors(nodes: set<Node>, edges: seq<Edge>): seq<GraphError>
  {
    if edges == [] then []
    else
      var rest := UnknownErrors(nodes, edges[..|edges| - 1]);
      var e := edges[|edges| - 1];
      if Known(nodes, e) then rest else rest + [UnknownEdge(e.0, e.1)]
  }

  /******* Cycles *******/

  /** A walk along the edges. */
  predicate Walk(edges: seq<Edge>, p: seq<Node>)
  {
    p != [] && (|p| > 1 ==> (p[0], p[1]) in edges && Walk(edges, p[1..]))
  }

  ghost predicate HasCycle(edges: seq<Edge>)
  {
    exists p :: Walk(edges, p) && |p| >= 2 && p[0] == p[|p| - 1]
  }

  /** Every edge goes forward in the order. */
  ghost predicate Topological(nodes: set<Node>, edges: seq<Edge>, order: seq<Node>)
  {
    && (forall n :: n in nodes <==> n in order)
    && (forall i, j :: 0 <= i < j < |order| ==> order[i] != order[j])
    && (forall i, j :: 0 <= i < |order| && 0 <= j < |order| && (order[i], order[j]) in edges ==> i < j)
  }

  function IndexOf(order: seq<Node>, n: Node): (i: nat)
    requires n in order
    ensures i < |order| && order[i] == n
  {
    if order[0] == n then 0 else 1 + IndexOf(order[1..], n)
  }

  lemma {:induction false} WalkGoesForward(nodes: set<Node>, edges: seq<Edge>, order: seq<Node>, p: seq<Node>)
    requires Topological(nodes, edges, order) && Walk(edges, p) && |p| >= 2
    requires forall e :: e in edges ==> Known(nodes, e)
    ensures p[0] in order && p[|p| - 1] in order && IndexOf(order, p[0]) < IndexOf(order, p[|p| - 1])
  {
    assert Known(nodes, (p[0], p[1]));
    assert (order[IndexOf(order, p[0])], order[IndexOf(order, p[1])]) in edges;
    if |p| > 2 { WalkGoesForward(nodes, edges, order, p[1..]); }
  }

  lemma TopologicalMeansAcyclic(nodes: set<Node>, edges: seq<Edge>, order: seq<Node>)
    requires Topological(nodes, edges, order) && forall e :: e in edges ==> Known(nodes, e)
    ensures !HasCycle(edges)
  {
    if HasCycle(edges) {
      var p :| Walk(edges, p) && |p| >= 2 && p[0] == p[|p| - 1];
      WalkGoesForward(nodes, edges, order, p);
    }
  }

  /** Every node of the set has a predecessor in the set. */
  ghost predicate Closed(edges: seq<Edge>, rest: set<Node>)
  {
    forall n {:trigger HasSource(edges, rest, n)} :: n in rest ==> HasSource(edges, rest, n)
  }

  predicate HasSource(edges: seq<Edge>, rest: set<Node>, n: Node)
  {
    exists m :: m in rest && (m, n) in edges
  }

  lemma {:induction false} WalkBackwards(edges: seq<Edge>, rest: set<Node>, length: nat) returns (p: seq<Node>)
    requires rest != {} && Closed(edges, rest) && length >= 1
    ensures |p| == length && Walk(edges, p) && forall i :: 0 <= i < |p| ==> p[i] in rest
  {
    if length == 1 {
      var n :| n in rest;
      p := [n];
    } else {
      var q := WalkBackwards(edges, rest, length - 1);
      assert HasSource(edges, rest, q[0]);
      var m :| m in rest && (m, q[0]) in edges;
      p := [m] + q;
      assert p[1..] == q;
    }
  }

  lemma {:induction false} SubWalk(edges: seq<Edge>, p: seq<Node>, i: nat, j: nat)
    requires Walk(edges, p) && i < j <= |p|
    ensures Walk(edges, p[i..j])
    decreases |p|
  {
    if i > 0 {
      SubWalk(edges, p[1..], i - 1, j - 1);
      assert p[1..][i - 1..j - 1] == p[i..j];
    } else if j > 1 {
      SubWalk(edges, p[1..], 0, j - 1);
      assert p[1..][..j - 1] == p[0..j][1..];
    }
  }

  lemma {:induction false} Pigeonhole(p: seq<Node>, rest: set<Node>)
    requires |p| > |rest| && forall i :: 0 <= i < |p| ==> p[i] in rest
    ensures exists i, j :: 0 <= i < j < |p| && p[i] == p[j]
    decreases |p|
  {
    var last := p[|p| - 1];
    var q := p[..|p| - 1];
    if k :| 0 <= k < |q| && q[k] == last {
      assert p[k] == p[|p| - 1];
    } else {
      assert forall i :: 0 <= i < |q| ==> q[i] in rest - {last};
      Pigeonhole(q, rest - {last});
      var i, j :| 0 <= i < j < |q| && q[i] == q[j];
      assert p[i] == p[j];
    }
  }

  lemma ClosedMeansCyclic(edges: seq<Edge>, rest: set<Node>)
    requires rest != {} && Closed(edges, rest)
    ensures HasCycle(edges)
  {
    var p := WalkBackwards(edges, rest, |rest| + 1);
    Pigeonhole(p, rest);
    var i, j :| 0 <= i < j < |p| && p[i] == p[j];
    SubWalk(edges, p, i, j + 1);
    assert p[i..j + 1][0] == p[i..j + 1][j - i];
  }

  /******* Degrees *******/

  /** Edges into a node from nodes not yet popped, repetitions counted. */
  function Incoming(edges: seq<Edge>, n: Node, popped: set<Node>): nat
  {
    if edges == [] then 0
    else
      var e := edges[|edges| - 1];
      Incoming(edges[..|edges| - 1], n, popped) + if e.1 == n && e.0 !in popped then 1 else 0
  }

  function Outgoing(edges: seq<Edge>, n: Node): seq<Node>
  {
    if edges == [] then []
    else
      var e := edges[|edges| - 1];
      Outgoing(edges[..|edges| - 1], n) + if e.0 == n then [e.1] else []
  }

  function Occurrences(targets: seq<Node>, n: Node): nat
  {
    if targets == [] then 0
    else Occurrences(targets[..|targets| - 1], n) + if targets[|targets| - 1] == n then 1 else 0
  }

  lemma OccurrencesAppend(targets: seq<Node>, t: Node, n: Node)
    ensures Occurrences(targets + [t], n) == Occurrences(targets, n) + if t == n then 1 else 0
  {
    assert (targets + [t])[..|targets|] == targets;
  }

  /** Popping a node takes its outgoing edges off its targets' degrees. */
  lemma {:induction false} PopLowers(edges: seq<Edge>, n: Node, popped: set<Node>, node: Node)
    requires node !in popped
    ensures Incoming(edges, n, popped) == Incoming(edges, n, popped + {node}) + Occurrences(Outgoing(edges, node), n)
  {
    if edges != [] {
      var rest, e := edges[..|edges| - 1], edges[|edges| - 1];
      PopLowers(rest, n, popped, node);
      if e.0 == node { OccurrencesAppend(Outgoing(rest, node), e.1, n); }
      else { assert Outgoing(rest, node) + [] == Outgoing(rest, node); }
    }
  }

  lemma {:induction false} PositiveHasSource(edges: seq<Edge>, n: Node, popped: set<Node>)
    ensures Incoming(edges, n, popped) > 0 <==> exists e :: e in edges && e.1 == n && e.0 !in popped
  {
    if edges != [] {
      var rest, e := edges[..|edges| - 1], edges[|edges| - 1];
      PositiveHasSource(rest, n, popped);
      assert forall x :: x in edges <==> x in rest || x == e;
    }
  }

  lemma {:induction false} OutgoingAreEdges(edges: seq<Edge>, n: Node, k: nat)
    requires k < |Outgoing(edges, n)|
    ensures (n, Outgoing(edges, n)[k]) in edges
  {
    var rest, e := edges[..|edges| - 1], edges[|edges| - 1];
    if k < |Outgoing(rest, n)| { OutgoingAreEdges(rest, n, k); }
    else { assert (n, e.1) == edges[|edges| - 1]; }
  }

  lemma {:induction false} OccurrencesOfPrefix(targets: seq<Node>, k: nat, n: Node)
    requires k <= |targets|
    ensures Occurrences(targets[..k], n) <= Occurrences(targets, n)
  {
    if k < |targets| {
      OccurrencesOfPrefix(targets[..|targets| - 1], k, n);
      assert targets[..|targets| - 1][..k] == targets[..k];
    } else {
      assert targets[..k] == targets;
    }
  }

  /** A target still to be lowered has a degree left to take off. */
  lemma TargetHasDegree(edges: seq<Edge>, node: Node, popped: set<Node>, k: nat)
    requires node !in popped && k < |Outgoing(edges, node)|
    ensures var targets := Outgoing(edges, node);
            && (node, targets[k]) in edges
            && Incoming(edges, targets[k], popped) >= Occurrences(targets[..k], targets[k]) + 1
  {
    var targets := Outgoing(edges, node);
    OutgoingAreEdges(edges, node, k);
    PopLowers(edges, targets[k], popped, node);
    assert targets[..k + 1] == targets[..k] + [targets[k]];
    OccurrencesAppend(targets[..k], targets[k], targets[k]);
    OccurrencesOfPrefix(targets, k + 1, targets[k]);
  }

  /** `list.sort()` after an append to a sorted list. */
  predicate Below(a: Node, b: Node)
  {
    if a == [] then true
    else if b == [] then false
    else if a[0] != b[0] then a[0] < b[0]
    else Below(a[1..], b[1..])
  }

  function Inserted(ready: seq<Node>, n: Node): (r: seq<Node>)
    ensures |r| == |ready| + 1
    ensures forall x :: x in r <==> x in ready || x == n
  {
    if ready == [] then [n]
    else if Below(n, ready[0]) then [n] + ready
    else
      var rest := Inserted(ready[1..], n);
      assert forall x :: x in ready <==> x == ready[0] || x in ready[1..];
      [ready[0]] + rest
  }

  /******* The check *******/

  predicate Distinct(s: seq<Node>)
  {
    forall i, j :: 0 <= i < j < |s| ==> s[i] != s[j]
  }

  lemma {:induction false} InsertedDistinct(ready: seq<Node>, n: Node)
    requires Distinct(ready) && n !in ready
    ensures Distinct(Inserted(ready, n))
  {
    if ready != [] && !Below(n, ready[0]) {
      InsertedDistinct(ready[1..], n);
      assert ready[0] !in ready[1..];
    }
  }

  function Members(s: seq<Node>): set<Node>
  {
    set n | n in s
  }

  lemma {:induction false} DistinctSize(s: seq<Node>)
    requires Distinct(s)
    ensures |Members(s)| == |s|
  {
    if s != [] {
      var rest, last := s[..|s| - 1], s[|s| - 1];
      DistinctSize(rest);
      assert last !in rest;
      assert s == rest + [last];
      assert Members(s) == Members(rest) + {last};
    }
  }

  lemma SubsetOfSameSize(a: set<Node>, b: set<Node>)
    requires a <= b
    ensures |a| == |b| <==> a == b
  {
    assert b == a + (b - a);
  }

  /** What holds between two iterations: the degrees count the edges out of nodes
      not popped, exactly the nodes of degree zero are popped or ready, and no
      edge leads back. */
  ghost predicate Progress(nodes: set<Node>, known: seq<Edge>, incoming: map<Node, nat>, ready: seq<Node>, order: seq<Node>)
  {
    && incoming.Keys == nodes
    && (forall n :: n in nodes ==> incoming[n] == Incoming(known, n, Members(order)))
    && Distinct(order) && Distinct(ready)
    && (forall n :: n in ready ==> n in nodes && n !in order && incoming[n] == 0)
    && (forall n :: n in order ==> n in nodes && incoming[n] == 0)
    && (forall n :: n in nodes && incoming[n] == 0 ==> n in order || n in ready)
    && (forall i, j :: 0 <= i < |order| && 0 <= j < |order| && (order[i], order[j]) in known ==> i < j)
  }

  lemma PoppedKeepsOrder(nodes: set<Node>, known: seq<Edge>, incoming: map<Node, nat>, ready: seq<Node>, order: seq<Node>)
    requires Progress(nodes, known, incoming, ready, order) && ready != []
    ensures var o := order + [ready[0]];
            Distinct(o) && forall i, j :: 0 <= i < |o| && 0 <= j < |o| && (o[i], o[j]) in known ==> i < j
  {
    var node, o := ready[0], order + [ready[0]];
    assert node in ready;
    forall i, j | 0 <= i < |o| && 0 <= j < |o| && (o[i], o[j]) in known ensures i < j {
      PositiveHasSource(known, o[j], Members(order));
      assert (node, o[j]) !in known;
    }
  }

  /** The verdict the exhausted loop supports. */
  lemma Exhausted(nodes: set<Node>, known: seq<Edge>, incoming: map<Node, nat>, order: seq<Node>)
    requires Progress(nodes, known, incoming, [], order) && forall e :: e in known ==> Known(nodes, e)
    ensures HasCycle(known) <==> |order| != |nodes|
    ensures |order| == |nodes| ==> Topological(nodes, known, order)
  {
    DistinctSize(order);
    assert Members(order) <= nodes;
    SubsetOfSameSize(Members(order), nodes);
    if |order| == |nodes| {
      assert forall n :: n in nodes <==> n in Members(order);
      TopologicalMeansAcyclic(nodes, known, order);
    } else {
      var rest := nodes - Members(order);
      if rest == {} {
        forall n | n in nodes ensures n in Members(order) { assert n !in rest; }
      }
      forall n | n in rest ensures HasSource(known, rest, n) {
        PositiveHasSource(known, n, Members(order));
        var e :| e in known && e.1 == n && e.0 !in Members(order);
        assert e == (e.0, n) && Known(nodes, e);
      }
      ClosedMeansCyclic(known, rest);
    }
  }

  /** `acyclic`: reports every unknown edge, and a cycle exactly when the edges
      between known nodes have one; otherwise the pop order is topological. */
  method Acyclic(nodes: set<Node>, edges: seq<Edge>) returns (errors: seq<GraphError>, ghost order: seq<Node>)
    ensures errors == UnknownErrors(nodes, edges) + if HasCycle(KnownEdges(nodes, edges)) then [Cycle] else []
    ensures !HasCycle(KnownEdges(nodes, edges)) ==> Topological(nodes, KnownEdges(nodes, edges), order)
  {
    var incoming, outgoing;
    incoming, outgoing, errors := Degrees(nodes, edges);
    ghost var known := KnownEdges(nodes, edges);
    var ready := Roots(nodes, incoming);
    var visited := 0;
    order := [];
    assert Members(order) == {};
    while ready != []
      invariant Progress(nodes, known, incoming, ready, order) && visited == |order|
      invariant errors == UnknownErrors(nodes, edges)
      decreases nodes - Members(order)
    {
      var node := ready[0];
      PoppedKeepsOrder(nodes, known, incoming, ready, order);
      incoming, ready := Lower(nodes, known, outgoing[node], incoming, ready, order);
      assert node in Members(order + [node]) && node !in Members(order);
      order := order + [node];
      visited := visited + 1;
    }
    Exhausted(nodes, known, incoming, order);
    if visited != |nodes| { errors := errors + [Cycle]; }
  }

  lemma OneMoreEdge(nodes: set<Node>, edges: seq<Edge>, i: nat)
    requires i < |edges|
    ensures var before, e := KnownEdges(nodes, edges[..i]), edges[i];
            && KnownEdges(nodes, edges[..i + 1]) == (if Known(nodes, e) then before + [e] else before)
            && UnknownErrors(nodes, edges[..i + 1]) ==
               UnknownErrors(nodes, edges[..i]) + if Known(nodes, e) then [] else [UnknownEdge(e.0, e.1)]
  {
    assert edges[..i + 1][..i] == edges[..i] && edges[..i + 1][i] == edges[i];
  }

  predicate EdgeCounts(edges: seq<Edge>, e: Edge, n: Node)
  {
    && Incoming(edges + [e], n, {}) == Incoming(edges, n, {}) + (if e.1 == n then 1 else 0)
    && Outgoing(edges + [e], n) == Outgoing(edges, n) + if e.0 == n then [e.1] else []
  }

  lemma EdgeAppended(edges: seq<Edge>, e: Edge, n: Node)
    ensures EdgeCounts(edges, e, n)
  {
    assert (edges + [e])[..|edges|] == edges;
  }

  method Degrees(nodes: set<Node>, edges: seq<Edge>)
    returns (incoming: map<Node, nat>, outgoing: map<Node, seq<Node>>, errors: seq<GraphError>)
    ensures incoming.Keys == nodes && outgoing.Keys == nodes && errors == UnknownErrors(nodes, edges)
    ensures forall n :: n in nodes ==> incoming[n] == Incoming(KnownEdges(nodes, edges), n, {})
    ensures forall n :: n in nodes ==> outgoing[n] == Outgoing(KnownEdges(nodes, edges), n)
  {
    incoming, outgoing, errors := map n | n in nodes :: 0, map n | n in nodes :: [], [];
    for i := 0 to |edges|
      invariant incoming.Keys == nodes && outgoing.Keys == nodes && errors == UnknownErrors(nodes, edges[..i])
      invariant forall n :: n in nodes ==> incoming[n] == Incoming(KnownEdges(nodes, edges[..i]), n, {})
      invariant forall n :: n in nodes ==> outgoing[n] == Outgoing(KnownEdges(nodes, edges[..i]), n)
    {
      var e := edges[i];
      OneMoreEdge(nodes, edges, i);
      if !Known(nodes, e) {
        errors := errors + [UnknownEdge(e.0, e.1)];
      } else {
        forall n ensures EdgeCounts(KnownEdges(nodes, edges[..i]), e, n) { EdgeAppended(KnownEdges(nodes, edges[..i]), e, n); }
        incoming := incoming[e.1 := incoming[e.1] + 1];
        outgoing := outgoing[e.0 := outgoing[e.0] + [e.1]];
      }
    }
    assert edges[..|edges|] == edges;
  }

  /** The sorted nodes of degree zero. */
  method Roots(nodes: set<Node>, incoming: map<Node, nat>) returns (ready: seq<Node>)
    requires incoming.Keys == nodes
    ensures Distinct(ready) && forall n :: n in ready <==> n in nodes && incoming[n] == 0
  {
    ready := [];
    var rest := nodes;
    while rest != {}
      invariant rest <= nodes && Distinct(ready)
      invariant forall n :: n in ready <==> n in nodes && n !in rest && incoming[n] == 0
      decreases rest
    {
      var n :| n in rest;
      rest := rest - {n};
      if incoming[n] == 0 {
        InsertedDistinct(ready, n);
        ready := Inserted(ready, n);
      }
    }
  }

  /** What the inner loop starts from: the queue's first node, just popped. */
  ghost predicate Pops(nodes: set<Node>, known: seq<Edge>, before: map<Node, nat>, queue: seq<Node>, order: seq<Node>)
  {
    && Progress(nodes, known, before, queue, order) && queue != []
    && (forall e :: e in known ==> Known(nodes, e))
    && var o := order + [queue[0]];
       Distinct(o) && forall i, j :: 0 <= i < |o| && 0 <= j < |o| && (o[i], o[j]) in known ==> i < j
  }

  /** A target still to be lowered is a node neither popped nor without degree. */
  lemma TargetIsOpen(nodes: set<Node>, known: seq<Edge>, before: map<Node, nat>, queue: seq<Node>, order: seq<Node>, k: nat)
    requires Pops(nodes, known, before, queue, order) && k < |Outgoing(known, queue[0])|
    ensures var targets := Outgoing(known, queue[0]);
            && targets[k] in nodes && targets[k] in before && targets[k] !in order + [queue[0]]
            && before[targets[k]] >= Occurrences(targets[..k], targets[k]) + 1
  {
    hide Outgoing, Incoming, Occurrences;
    assert queue[0] in queue;
    var targets := Outgoing(known, queue[0]);
    TargetHasDegree(known, queue[0], Members(order), k);
    assert Known(nodes, (queue[0], targets[k]));
  }

  lemma QueueRest(nodes: set<Node>, known: seq<Edge>, before: map<Node, nat>, queue: seq<Node>, order: seq<Node>)
    requires Pops(nodes, known, before, queue, order)
    ensures before.Keys == nodes && Distinct(queue[1..])
    ensures forall n :: n in queue[1..] ==> n in nodes && n !in order + [queue[0]] && before[n] == 0
    ensures forall n :: n in nodes && before[n] == 0 ==> n in order + [queue[0]] || n in queue[1..]
  {
    hide Incoming;
    assert forall n :: n in queue <==> n == queue[0] || n in queue[1..];
  }

  lemma Lowered(nodes: set<Node>, known: seq<Edge>, before: map<Node, nat>, queue: seq<Node>, order: seq<Node>,
                incoming: map<Node, nat>, ready: seq<Node>)
    requires Pops(nodes, known, before, queue, order) && incoming.Keys == nodes && Distinct(ready)
    requires forall n :: n in nodes ==> incoming[n] + Occurrences(Outgoing(known, queue[0]), n) == before[n]
    requires forall n :: n in ready ==> n in nodes && n !in order + [queue[0]] && incoming[n] == 0
    requires forall n :: n in nodes && incoming[n] == 0 ==> n in order + [queue[0]] || n in ready
    ensures Progress(nodes, known, incoming, ready, order + [queue[0]])
  {
    hide Incoming, Outgoing, Occurrences;
    var node, o := queue[0], order + [queue[0]];
    assert node in queue;
    forall n | n in nodes ensures incoming[n] == Incoming(known, n, Members(o)) {
      PopLowers(known, n, Members(order), node);
      assert Members(o) == Members(order) + {node};
    }
  }

  /** The inner loop: lowers the degree of every target of the popped node and
      readies those that reach zero. */
  method Lower(nodes: set<Node>, ghost known: seq<Edge>, targets: seq<Node>, before: map<Node, nat>, queue: seq<Node>,
               ghost order: seq<Node>)
    returns (incoming: map<Node, nat>, ready: seq<Node>)
    requires Pops(nodes, known, before, queue, order) && targets == Outgoing(known, queue[0])
    ensures Progress(nodes, known, incoming, ready, order + [queue[0]])
  {
    incoming, ready := before, queue[1..];
    ghost var o := order + [queue[0]];
    QueueRest(nodes, known, before, queue, order);
    forall n ensures Occurrences(targets[..0], n) == 0 {}
    hide Progress, Pops, Outgoing, Occurrences;
    for k := 0 to |targets|
      invariant incoming.Keys == nodes && Distinct(ready)
      invariant forall n :: n in nodes ==> incoming[n] + Occurrences(targets[..k], n) == before[n]
      invariant forall n :: n in ready ==> n in nodes && n !in o && incoming[n] == 0
      invariant forall n :: n in nodes && incoming[n] == 0 ==> n in o || n in ready
    {
      var target := targets[k];
      assert targets[..k + 1] == targets[..k] + [target];
      forall n ensures Occurrences(targets[..k + 1], n) == Occurrences(targets[..k], n) + if target == n then 1 else 0 {
        OccurrencesAppend(targets[..k], target, n);
      }
      TargetIsOpen(nodes, known, before, queue, order, k);
      incoming := incoming[target := incoming[target] - 1];
      if incoming[target] == 0 {
        InsertedDistinct(ready, target);
        ready := Inserted(ready, target);
      }
    }
    assert targets[..|targets|] == targets;
    Lowered(nodes, known, before, queue, order, incoming, ready);
  }
}
