/** How an approved plan becomes tasks (apps/api/src/orchestrator/graph.ts): topologicalOrder, and the
    AgentTask rows createGraphRows writes in that order. */
module PlanTasks {
  import opened Options
  import opened TaskGraph
  import opened TaskGraphShape
  import opened TaskGraphAcceptance
  import Kahn

  /** Every dependency is listed and has a lower number (a node on its own id has none). */
  ghost predicate Orders(nodes: seq<Node>, rank: map<NodeId, nat>) {
    forall i :: 0 <= i < |nodes| ==>
      nodes[i].id in rank
      && forall d :: d in nodes[i].deps ==> IsId(nodes, d) && d in rank && rank[d] < rank[nodes[i].id]
  }

  ghost predicate Orderable(nodes: seq<Node>) {
    exists rank :: Orders(nodes, rank)
  }

  predicate HasId(nodes: seq<Node>, id: NodeId) {
    exists n :: n in nodes && n.id == id
  }

  /** Each node comes after all it depends on. */
  ghost predicate DepsFirst(nodes: seq<Node>) {
    forall i, d :: 0 <= i < |nodes| && d in nodes[i].deps ==> HasId(nodes[..i], d)
  }

  function Filter(nodes: seq<Node>, test: Node -> bool): (kept: seq<Node>)
    ensures forall n :: n in kept <==> n in nodes && test(n)
  {
    if nodes == [] then []
    else if test(nodes[0]) then [nodes[0]] + Filter(nodes[1..], test)
    else Filter(nodes[1..], test)
  }

  lemma {:induction false} FilterSplits(nodes: seq<Node>, yes: Node -> bool, no: Node -> bool)
    requires forall n :: n in nodes ==> yes(n) != no(n)
    ensures multiset(Filter(nodes, yes)) + multiset(Filter(nodes, no)) == multiset(nodes)
    ensures |Filter(nodes, yes)| + |Filter(nodes, no)| == |nodes|
  {
    if nodes != [] {
      FilterSplits(nodes[1..], yes, no);
      assert nodes == [nodes[0]] + nodes[1..];
    }
  }

  lemma {:induction false} FilterSame(nodes: seq<Node>, one: Node -> bool, other: Node -> bool)
    requires forall n :: n in nodes ==> one(n) == other(n)
    ensures Filter(nodes, one) == Filter(nodes, other)
  {
    if nodes != [] {
      FilterSame(nodes[1..], one, other);
    }
  }

  lemma {:induction false} FilterDistinct(nodes: seq<Node>, test: Node -> bool)
    requires DistinctIds(nodes)
    ensures DistinctIds(Filter(nodes, test))
  {
    if nodes != [] {
      assert DistinctIds(nodes[1..]);
      FilterDistinct(nodes[1..], test);
      var rest := Filter(nodes[1..], test);
      forall k | 0 <= k < |rest| ensures rest[k].id != nodes[0].id {
        assert rest[k] in nodes[1..];
      }
    }
  }

  lemma DistinctMembers(nodes: seq<Node>, m: Node, n: Node)
    requires DistinctIds(nodes) && m in nodes && n in nodes && m != n
    ensures m.id != n.id
  {
    var i :| 0 <= i < |nodes| && nodes[i] == m;
    var j :| 0 <= j < |nodes| && nodes[j] == n;
    assert i < j ==> nodes[i].id != nodes[j].id;
    assert j < i ==> nodes[j].id != nodes[i].id;
  }

  /** With distinct ids, what is left after the ready nodes are placed is what was not ready. */
  lemma PlacedLeave(remaining: seq<Node>, placed: set<NodeId>, ready: seq<Node>, after: set<NodeId>)
    requires DistinctIds(remaining) && forall n :: n in remaining ==> n.id !in placed
    requires ready == Filter(remaining, (n: Node) => forall d :: d in n.deps ==> d in placed)
    requires after == placed + set n | n in ready :: n.id
    ensures multiset(ready) + multiset(Filter(remaining, (n: Node) => n.id !in after)) == multiset(remaining)
    ensures |Filter(remaining, (n: Node) => n.id !in after)| == |remaining| - |ready|
    ensures DistinctIds(Filter(remaining, (n: Node) => n.id !in after))
  {
    var isReady := (n: Node) => forall d :: d in n.deps ==> d in placed;
    var unready := (n: Node) => !isReady(n);
    var unplaced := (n: Node) => n.id !in after;
    forall n | n in remaining ensures unready(n) == unplaced(n) {
      if isReady(n) {
        assert n in ready;
      } else {
        forall m | m in ready ensures m.id != n.id {
          DistinctMembers(remaining, m, n);
        }
      }
    }
    FilterSame(remaining, unready, unplaced);
    FilterSplits(remaining, isReady, unready);
    FilterDistinct(remaining, unplaced);
  }

  /** When nothing is ready nothing ever was: each remaining node waits on another, in any numbering. */
  lemma {:induction false} NothingReady(nodes: seq<Node>, ordered: seq<Node>, remaining: seq<Node>, n: Node, rank: map<NodeId, nat>)
    requires multiset(ordered) + multiset(remaining) == multiset(nodes)
    requires forall m :: m in remaining ==> exists d :: d in m.deps && !HasId(ordered, d)
    requires n in remaining
    ensures !Orders(nodes, rank)
    decreases if n.id in rank then rank[n.id] else 0
  {
    assert n in multiset(nodes);
    var i :| 0 <= i < |nodes| && nodes[i] == n;
    var d :| d in n.deps && !HasId(ordered, d);
    if IsId(nodes, d) && d in rank && n.id in rank && rank[d] < rank[n.id] {
      var k :| 0 <= k < |nodes| && nodes[k].id == d;
      assert nodes[k] in multiset(nodes);
      assert nodes[k] !in ordered;
      NothingReady(nodes, ordered, remaining, nodes[k], rank);
    }
  }

  lemma {:induction false} PositionOf(ordered: seq<Node>) returns (rank: map<NodeId, nat>)
    requires DistinctIds(ordered)
    ensures forall k :: 0 <= k < |ordered| ==> ordered[k].id in rank && rank[ordered[k].id] == k
  {
    rank := map k | 0 <= k < |ordered| :: ordered[k].id := k;
  }

  lemma SamePlaces(nodes: seq<Node>, ordered: seq<Node>)
    requires multiset(ordered) == multiset(nodes)
    ensures forall n :: n in nodes <==> n in ordered
  {
    assert forall n :: n in nodes <==> n in multiset(nodes);
    assert forall n :: n in ordered <==> n in multiset(ordered);
  }

  lemma OrderedIsOrderable(nodes: seq<Node>, ordered: seq<Node>)
    requires DistinctIds(ordered) && multiset(ordered) == multiset(nodes) && DepsFirst(ordered)
    ensures Orderable(nodes)
  {
    var rank := PositionOf(ordered);
    SamePlaces(nodes, ordered);
    forall i, d | 0 <= i < |nodes| && d in nodes[i].deps
      ensures IsId(nodes, d) && d in rank && nodes[i].id in rank && rank[d] < rank[nodes[i].id]
    {
      assert nodes[i] in ordered;
      var k :| 0 <= k < |ordered| && ordered[k] == nodes[i];
      assert HasId(ordered[..k], d);
      var m :| m in ordered[..k] && m.id == d;
      var j :| 0 <= j < k && ordered[j] == m;
      assert m in nodes;
    }
    forall i | 0 <= i < |nodes| ensures nodes[i].id in rank {
      assert nodes[i] in ordered;
    }
    assert Orders(nodes, rank);
  }

  /** The inner loop: the ready nodes are placed, in their order. */
  method Place(ready: seq<Node>, before: set<NodeId>, done: seq<Node>) returns (placed: set<NodeId>, ordered: seq<Node>)
    requires forall id :: id in before <==> HasId(done, id)
    requires DepsFirst(done) && forall n, d :: n in ready && d in n.deps ==> d in before
    ensures ordered == done + ready && placed == before + set n | n in ready :: n.id
    ensures forall id :: id in placed <==> HasId(ordered, id)
    ensures DepsFirst(ordered)
  {
    placed, ordered := before, done;
    for k := 0 to |ready|
      invariant ordered == done + ready[..k] && placed == before + set n | n in ready[..k] :: n.id
    {
      placed := placed + {ready[k].id};
      ordered := ordered + [ready[k]];
      assert ready[..k + 1] == ready[..k] + [ready[k]];
    }
    assert ready[..|ready|] == ready;
    forall i, d | 0 <= i < |ordered| && d in ordered[i].deps ensures HasId(ordered[..i], d) {
      if i < |done| {
        assert ordered[..i] == done[..i];
      } else {
        assert ordered[i] == ready[i - |done|] && ordered[i] in ready;
        assert HasId(done, d);
        var m :| m in done && m.id == d;
        var j :| 0 <= j < |done| && done[j] == m;
        assert ordered[..i][j] == m;
      }
    }
    forall id ensures id in placed <==> HasId(ordered, id) {
      assert forall n :: n in ordered <==> n in done || n in ready;
    }
  }

  /** topologicalOrder; no result where the source throws. */
  method TopologicalOrder(nodes: seq<Node>) returns (ordered: Option<seq<Node>>)
    ensures DistinctIds(nodes) ==> (ordered.Some? <==> Orderable(nodes))
    ensures DistinctIds(nodes) && ordered.Some? ==> multiset(ordered.value) == multiset(nodes)
    ensures ordered.Some? ==> DepsFirst(ordered.value)
  {
    var placed: set<NodeId> := {};
    var done, remaining := [], nodes;
    while remaining != []
      invariant forall id :: id in placed <==> HasId(done, id)
      invariant forall n :: n in remaining ==> n.id !in placed
      invariant DepsFirst(done)
      invariant DistinctIds(nodes) ==>
                  DistinctIds(remaining) && multiset(done) + multiset(remaining) == multiset(nodes)
      decreases |remaining|
    {
      var ready := Filter(remaining, (n: Node) => forall d :: d in n.deps ==> d in placed);
      if ready == [] {
        NoneOrdered(nodes, placed, done, remaining);
        return None;
      }
      ghost var before := placed;
      placed, done := Place(ready, placed, done);
      if DistinctIds(nodes) {
        PlacedLeave(remaining, before, ready, placed);
      }
      FilterShrinks(remaining, (n: Node) => n.id !in placed, ready[0]);
      remaining := Filter(remaining, (n: Node) => n.id !in placed);
    }
    if DistinctIds(nodes) {
      SameIdsDistinct(nodes, done);
      OrderedIsOrderable(nodes, done);
    }
    return Some(done);
  }

  lemma {:induction false} FilterShrinks(nodes: seq<Node>, test: Node -> bool, n: Node)
    requires n in nodes && !test(n)
    ensures |Filter(nodes, test)| < |nodes|
  {
    FilterAtMost(nodes[1..], test);
    if nodes[0] != n {
      FilterShrinks(nodes[1..], test, n);
    }
  }

  lemma {:induction false} FilterAtMost(nodes: seq<Node>, test: Node -> bool)
    ensures |Filter(nodes, test)| <= |nodes|
  {
    if nodes != [] {
      FilterAtMost(nodes[1..], test);
    }
  }

  lemma NoneOrdered(nodes: seq<Node>, placed: set<NodeId>, done: seq<Node>, remaining: seq<Node>)
    requires remaining != [] && Filter(remaining, (n: Node) => forall d :: d in n.deps ==> d in placed) == []
    requires forall id :: id in placed <==> HasId(done, id)
    ensures multiset(done) + multiset(remaining) == multiset(nodes) ==> !Orderable(nodes)
  {
    forall m | m in remaining ensures exists d :: d in m.deps && !HasId(done, d) {
      assert m !in Filter(remaining, (n: Node) => forall d :: d in n.deps ==> d in placed);
    }
    if multiset(done) + multiset(remaining) == multiset(nodes) {
      forall rank ensures !Orders(nodes, rank) {
        NothingReady(nodes, done, remaining, remaining[0], rank);
      }
    }
  }

  /** A rearrangement of nodes with distinct ids has distinct ids. */
  lemma SameIdsDistinct(nodes: seq<Node>, ordered: seq<Node>)
    requires DistinctIds(nodes) && multiset(ordered) == multiset(nodes)
    ensures DistinctIds(ordered)
  {
    SamePlaces(nodes, ordered);
    forall i, j | 0 <= i < j < |ordered| ensures ordered[i].id != ordered[j].id {
      assert ordered[i] in nodes && ordered[j] in nodes;
      var a :| 0 <= a < |nodes| && nodes[a] == ordered[i];
      var b :| 0 <= b < |nodes| && nodes[b] == ordered[j];
      if a == b {
        TwiceIn(ordered, i, j);
        OnceIn(nodes, a);
      }
    }
  }

  lemma TwiceIn(nodes: seq<Node>, i: nat, j: nat)
    requires i < j < |nodes| && nodes[i] == nodes[j]
    ensures multiset(nodes)[nodes[i]] >= 2
  {
    assert nodes == nodes[..i] + [nodes[i]] + nodes[i + 1..j] + [nodes[j]] + nodes[j + 1..];
  }

  lemma OnceIn(nodes: seq<Node>, a: nat)
    requires DistinctIds(nodes) && a < |nodes|
    ensures multiset(nodes)[nodes[a]] == 1
  {
    assert nodes == nodes[..a] + [nodes[a]] + nodes[a + 1..];
    assert nodes[a] !in nodes[..a] && nodes[a] !in nodes[a + 1..];
  }

  // ---------------------------------------------------------------- rows

  /** An AgentTask row; rows are numbered in the order they are created. */
  datatype Task = Task(nodeKey: NodeId, agent: Agent, action: Action, post: Option<PostRef>, dependsOn: seq<nat>)

  /** The rows stand for the nodes: one each, with the dependencies turned into rows created before. */
  ghost predicate Instantiates(tasks: seq<Task>, nodes: seq<Node>) {
    && |tasks| == |nodes|
    && forall k :: 0 <= k < |tasks| ==>
         && tasks[k].nodeKey == nodes[k].id && tasks[k].agent == nodes[k].agent
         && tasks[k].action == nodes[k].action && tasks[k].post == nodes[k].postRef
         && |tasks[k].dependsOn| == |nodes[k].deps|
         && forall j :: 0 <= j < |nodes[k].deps| ==> tasks[k].dependsOn[j] < k && tasks[tasks[k].dependsOn[j]].nodeKey == nodes[k].deps[j]
  }

  /** The row ids of a node's dependencies, or nothing where the lookup fails and the source throws. */
  method RowsOf(deps: seq<NodeId>, taskIdByNode: map<NodeId, nat>) returns (rows: Option<seq<nat>>)
    ensures rows.Some? <==> forall d :: d in deps ==> d in taskIdByNode
    ensures rows.Some? ==> |rows.value| == |deps| && forall j :: 0 <= j < |deps| ==> rows.value[j] == taskIdByNode[deps[j]]
  {
    var found := [];
    for j := 0 to |deps|
      invariant |found| == j && forall i :: 0 <= i < j ==> deps[i] in taskIdByNode && found[i] == taskIdByNode[deps[i]]
    {
      if deps[j] !in taskIdByNode {
        return None;
      }
      found := found + [taskIdByNode[deps[j]]];
    }
    return Some(found);
  }

  /** The loop of createGraphRows over the ordered nodes: no lookup fails. */
  method CreateTasks(ordered: seq<Node>) returns (tasks: Option<seq<Task>>)
    ensures DepsFirst(ordered) && DistinctIds(ordered) ==> tasks.Some? && Instantiates(tasks.value, ordered)
  {
    var taskIdByNode: map<NodeId, nat> := map[];
    var rows: seq<Task> := [];
    for k := 0 to |ordered|
      invariant |rows| == k
      invariant forall id :: id in taskIdByNode ==> taskIdByNode[id] < k && ordered[taskIdByNode[id]].id == id
      invariant forall i :: 0 <= i < k ==> ordered[i].id in taskIdByNode
      invariant DepsFirst(ordered) && DistinctIds(ordered) ==> Instantiates(rows, ordered[..k])
    {
      var node := ordered[k];
      var dependsOn := RowsOf(node.deps, taskIdByNode);
      if dependsOn.None? {
        assert !DepsFirst(ordered) by { UnknownMeansNotFirst(ordered, k, taskIdByNode); }
        return None;
      }
      rows := rows + [Task(node.id, node.agent, node.action, node.postRef, dependsOn.value)];
      taskIdByNode := taskIdByNode[node.id := k];
    }
    assert ordered[..|ordered|] == ordered;
    return Some(rows);
  }

  lemma UnknownMeansNotFirst(ordered: seq<Node>, k: nat, taskIdByNode: map<NodeId, nat>)
    requires k < |ordered| && exists d :: d in ordered[k].deps && d !in taskIdByNode
    requires forall i :: 0 <= i < k ==> ordered[i].id in taskIdByNode
    ensures !DepsFirst(ordered)
  {
    var d :| d in ordered[k].deps && d !in taskIdByNode;
    assert !HasId(ordered[..k], d);
  }

  ghost predicate DepsKnown(nodes: seq<Node>, i: nat)
    requires i < |nodes|
  {
    forall d :: d in nodes[i].deps ==> d != nodes[i].id && IsId(nodes, d)
  }

  lemma AcceptedParts(nodes: seq<Node>, refs: seq<PostRef>, enabled: set<Action>)
    requires Accepted(nodes, refs, enabled)
    ensures DistinctIds(nodes) && forall i :: 0 <= i < |nodes| ==> DepsKnown(nodes, i)
  {
    hide Wanted, ChainFits, PerPost;
    NoLocalIssues(nodes, refs, enabled);
    forall i | 0 <= i < |nodes| ensures DepsKnown(nodes, i) {
      assert NodeFits(nodes, refs, enabled, i);
      forall d | d in nodes[i].deps ensures d != nodes[i].id && IsId(nodes, d) {
        var j :| 0 <= j < |nodes[i].deps| && nodes[i].deps[j] == d;
        assert DepFits(nodes, i, j);
      }
    }
  }

  /** Approving a plan nodeIssues accepted never throws. */
  lemma AcceptedIsOrderable(nodes: seq<Node>, refs: seq<PostRef>, enabled: set<Action>)
    requires Accepted(nodes, refs, enabled)
    ensures DistinctIds(nodes) && Orderable(nodes)
  {
    AcceptedParts(nodes, refs, enabled);
    var edges := Edges(nodes);
    var rank :| Kahn.Ranks(edges, rank);
    hide Edges, Accepted, IsId;
    forall i | 0 <= i < |nodes|
      ensures nodes[i].id in rank
      ensures forall d :: d in nodes[i].deps ==> IsId(nodes, d) && d in rank && rank[d] < rank[nodes[i].id]
    {
      EdgesAt(nodes, i);
      assert DepsKnown(nodes, i);
    }
    assert Orders(nodes, rank);
  }

  /** createGraphRows on a validated plan: every node becomes a row, after the rows it waits for. */
  method Instantiate(nodes: seq<Node>, ghost refs: seq<PostRef>, ghost enabled: set<Action>) returns (ordered: seq<Node>, tasks: seq<Task>)
    requires Accepted(nodes, refs, enabled)
    ensures multiset(ordered) == multiset(nodes) && Instantiates(tasks, ordered)
  {
    AcceptedIsOrderable(nodes, refs, enabled);
    var order := TopologicalOrder(nodes);
    ordered := order.value;
    SameIdsDistinct(nodes, ordered);
    var rows := CreateTasks(ordered);
    tasks := rows.value;
  }
}
