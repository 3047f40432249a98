/** The plan code that works step by step: canonicalGraph, nodeIssues with Kahn's algorithm, and the
    instantiation of an approved plan (apps/api/src/orchestrator/graph.ts). */
module TaskGraphValidator {
  import opened Options
  import opened TaskGraph
  import opened TaskGraphShape
  import opened TaskGraphAcceptance
  import Kahn

  /** One post's nodes, each depending on the one before it. */
  method AppendChain(nodes: seq<Node>, ref: PostRef, actions: seq<Action>, strategyId: Option<NodeId>) returns (longer: seq<Node>)
    ensures longer == nodes + Chain(ref, actions, |nodes| + 1, strategyId)
  {
    hide IdOf;
    longer := nodes;
    var previous := strategyId;
    for k := 0 to |actions|
      invariant longer + Chain(ref, actions[k..], |longer| + 1, previous) == nodes + Chain(ref, actions, |nodes| + 1, strategyId)
    {
      var id := IdOf(|longer| + 1);
      assert actions[k..][1..] == actions[k + 1..];
      longer := longer + [Node(id, AgentFor(actions[k]), actions[k], Some(ref),
                               if previous.Some? then [previous.value] else [], None)];
      previous := Some(id);
    }
  }

  lemma ChainsFrom(refs: seq<PostRef>, r: nat, actions: seq<Action>, nodes: seq<Node>, strategyId: Option<NodeId>)
    requires r < |refs|
    ensures nodes + Chains(refs[r..], actions, |nodes| + 1, strategyId)
         == (nodes + Chain(refs[r], actions, |nodes| + 1, strategyId))
            + Chains(refs[r + 1..], actions, |nodes| + |actions| + 1, strategyId)
  {
    hide Chain;
    assert refs[r..][1..] == refs[r + 1..];
  }

  method BuildCanonicalGraph(refs: seq<PostRef>, enabled: set<Action>) returns (nodes: seq<Node>)
    ensures nodes == CanonicalGraph(refs, enabled)
  {
    hide IdOf, PerPost, Chain;
    var actions := PerPost(enabled);
    nodes := [];
    var strategyId := None;
    if Strategy in enabled {
      strategyId := Some(IdOf(1));
      nodes := nodes + [Node(IdOf(1), AgentFor(Strategy), Strategy, None, [], None)];
    }
    assert nodes + Chains(refs, actions, |nodes| + 1, strategyId) == CanonicalGraph(refs, enabled);
    assert refs[0..] == refs;
    hide CanonicalGraph;
    for r := 0 to |refs|
      invariant nodes + Chains(refs[r..], actions, |nodes| + 1, strategyId) == CanonicalGraph(refs, enabled)
    {
      ChainsFrom(refs, r, actions, nodes, strategyId);
      nodes := AppendChain(nodes, refs[r], actions, strategyId);
    }
    assert refs[|refs|..] == [];
  }

  // ---------------------------------------------------------------- nodeIssues

  /** The byId map: each id with the first node that has it. */
  ghost predicate Indexes(nodes: seq<Node>, upTo: nat, byId: map<NodeId, Node>)
    requires upTo <= |nodes|
  {
    && (forall id :: id in byId <==> exists i :: 0 <= i < upTo && nodes[i].id == id)
    && (forall id :: id in byId ==> IsId(nodes, id) && byId[id] == NodeOf(nodes, id))
  }

  lemma {:induction false} FirstNode(nodes: seq<Node>, i: nat)
    requires i < |nodes| && !UsedBefore(nodes, i)
    ensures NodeOf(nodes, nodes[i].id) == nodes[i]
    decreases i
  {
    if i > 0 {
      assert nodes[0].id != nodes[i].id;
      var rest := nodes[1..];
      assert forall k :: 0 <= k < i - 1 ==> rest[k] == nodes[k + 1];
      FirstNode(rest, i - 1);
    }
  }

  method IndexNodes(nodes: seq<Node>) returns (issues: seq<Issue>, byId: map<NodeId, Node>)
    ensures issues == IdIssues(nodes, |nodes|) && Indexes(nodes, |nodes|, byId)
  {
    issues, byId := [], map[];
    for i := 0 to |nodes|
      invariant issues == IdIssues(nodes, i) && Indexes(nodes, i, byId)
    {
      if nodes[i].id in byId {
        issues := issues + [IdUsedTwice(i)];
      } else {
        FirstNode(nodes, i);
        byId := byId[nodes[i].id := nodes[i]];
      }
    }
  }

  method CheckDeps(nodes: seq<Node>, byId: map<NodeId, Node>, i: nat) returns (issues: seq<Issue>)
    requires i < |nodes| && Indexes(nodes, |nodes|, byId)
    ensures issues == DepIssues(nodes, i, |nodes[i].deps|)
  {
    var deps := nodes[i].deps;
    var seenDeps: set<NodeId> := {};
    issues := [];
    for j := 0 to |deps|
      invariant issues == DepIssues(nodes, i, j) && forall d :: d in seenDeps <==> d in deps[..j]
    {
      if deps[j] == nodes[i].id {
        issues := issues + [DependsOnItself(i, j)];
      } else if deps[j] !in byId {
        issues := issues + [UnknownDep(i, j)];
      } else if deps[j] in seenDeps {
        issues := issues + [DepListedTwice(i, j)];
      }
      seenDeps := seenDeps + {deps[j]};
      assert deps[..j + 1] == deps[..j] + [deps[j]];
    }
  }

  method CheckNodes(nodes: seq<Node>, refs: seq<PostRef>, enabled: set<Action>, byId: map<NodeId, Node>)
    returns (issues: seq<Issue>)
    requires Indexes(nodes, |nodes|, byId)
    ensures issues == NodeIssuesUpTo(nodes, refs, enabled, |nodes|)
  {
    hide Indexes, DepIssues;
    var postRefs := set r | r in refs;
    issues := [];
    for i := 0 to |nodes|
      invariant issues == NodeIssuesUpTo(nodes, refs, enabled, i)
    {
      var node := nodes[i];
      ghost var before := issues;
      if node.agent != AgentFor(node.action) {
        issues := issues + [WrongAgent(i)];
      }
      if node.action !in enabled {
        issues := issues + [NotEnabled(i)];
      }
      assert issues == before + (if node.agent != AgentFor(node.action) then [WrongAgent(i)] else [])
                       + (if node.action !in enabled then [NotEnabled(i)] else []);
      ghost var own := issues;
      if node.action == Strategy {
        if node.postRef.Some? {
          issues := issues + [StrategyNamesPost(i)];
        }
      } else if node.postRef.None? {
        issues := issues + [NamesNoPost(i)];
      } else if node.postRef.value !in postRefs {
        issues := issues + [UnknownPost(i)];
      }
      assert issues == own + PostIssue(node, i, refs);
      var depIssues := CheckDeps(nodes, byId, i);
      issues := issues + depIssues;
    }
  }

  /** chainIssues for one post: first its actions without exactly one node, then the links. */
  method CheckChain(nodes: seq<Node>, ref: PostRef, actions: seq<Action>, first: Upstream) returns (issues: seq<Issue>)
    ensures issues == MatchIssues(nodes, ref, actions, |actions|) + LinkIssues(nodes, ref, actions, first, |actions|)
  {
    hide Matches, DependsExactlyOn;
    issues := [];
    var chain: seq<Option<nat>> := [];
    for k := 0 to |actions|
      invariant issues == MatchIssues(nodes, ref, actions, k) && |chain| == k
      invariant forall m :: 0 <= m < k ==> chain[m] == SoleMatch(nodes, ref, actions[m])
    {
      var matches := Matches(nodes, actions[k], ref);
      if |matches| == 0 {
        issues := issues + [ActionMissing(ref, actions[k])];
      } else if |matches| > 1 {
        issues := issues + [ActionRepeated(ref, actions[k], Ids(nodes, matches))];
      }
      chain := chain + [if |matches| == 1 then Some(matches[0]) else None];
    }
    ghost var found := issues;
    for k := 0 to |actions|
      invariant issues == found + LinkIssues(nodes, ref, actions, first, k)
    {
      if chain[k].Some? {
        var upstream := if k == 0 then first
                        else if chain[k - 1].Some? then On(nodes[chain[k - 1].value].id) else Unsure;
        if !DependsExactlyOn(nodes[chain[k].value], upstream) {
          issues := issues + [WrongUpstream(chain[k].value)];
        }
      }
    }
  }

  method CheckChains(nodes: seq<Node>, refs: seq<PostRef>, actions: seq<Action>, first: Upstream) returns (issues: seq<Issue>)
    ensures issues == ChainIssues(nodes, refs, actions, first, |refs|)
  {
    hide MatchIssues, LinkIssues;
    issues := [];
    for r := 0 to |refs|
      invariant issues == ChainIssues(nodes, refs, actions, first, r)
    {
      var chainIssues := CheckChain(nodes, refs[r], actions, first);
      issues := issues + chainIssues;
    }
  }

  function SoleMatch(nodes: seq<Node>, ref: PostRef, action: Action): (i: Option<nat>)
    ensures i.Some? ==> i.value < |nodes|
  {
    var found := Matches(nodes, action, ref);
    if |found| == 1 then Some(found[0]) else None
  }

  /** cycleIssues on the nodes the ids name. */
  method CycleIssues(nodes: seq<Node>, byId: map<NodeId, Node>) returns (issues: seq<Issue>)
    requires Indexes(nodes, |nodes|, byId)
    ensures if Acyclic(nodes) then issues == []
            else |issues| == 1 && issues[0].Cycle? && forall id :: id in issues[0].stuck <==> Kahn.Stuck(Edges(nodes), id)
  {
    var deps := map id | id in byId :: byId[id].deps;
    assert deps == DepsById(nodes) by {
      assert forall id :: IsId(nodes, id) ==> exists n :: n in nodes && n.id == id;
    }
    var order := seq(|nodes|, i requires 0 <= i < |nodes| => nodes[i].id);
    assert forall i :: 0 <= i < |nodes| ==> order[i] == nodes[i].id;
    var stuck := Kahn.StuckIds(deps, order);
    issues := if stuck == [] then [] else [Cycle(stuck)];
  }

  /** nodeIssues: everything it reports, and that it reports nothing exactly when the graph is
      accepted. */
  method NodeIssues(nodes: seq<Node>, refs: seq<PostRef>, enabled: set<Action>) returns (issues: seq<Issue>)
    ensures LocalIssues(nodes, refs, enabled) <= issues
    ensures var more := issues[|LocalIssues(nodes, refs, enabled)|..];
            if Acyclic(nodes) then more == []
            else |more| == 1 && more[0].Cycle? && forall id :: id in more[0].stuck <==> Kahn.Stuck(Edges(nodes), id)
    ensures issues == [] <==> Accepted(nodes, refs, enabled)
  {
    hide Acyclic, Edges, Indexes, IdIssues, NodeIssuesUpTo, ChainIssues, FirstUpstream, PerPost;
    issues := [];
    var limit := 4 * |refs| + 1;
    if |nodes| > limit {
      issues := issues + [TooManyNodes(|nodes|, limit)];
    }
    var idIssues, byId := IndexNodes(nodes);
    var perNode := CheckNodes(nodes, refs, enabled, byId);
    issues := issues + idIssues + perNode;
    var strategyNodes := StrategyIndices(nodes);
    if |strategyNodes| > 1 {
      issues := issues + [SeveralStrategies];
    } else if |strategyNodes| == 0 && Strategy in enabled {
      issues := issues + [NoStrategy];
    }
    var chainIssues := CheckChains(nodes, refs, PerPost(enabled), FirstUpstream(nodes, enabled));
    issues := issues + chainIssues;
    assert issues == LocalIssues(nodes, refs, enabled);
    var cycle := CycleIssues(nodes, byId);
    issues := issues + cycle;
    assert issues[|LocalIssues(nodes, refs, enabled)|..] == cycle;
  }
}
