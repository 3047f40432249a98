/** nodeIssues reports nothing exactly for graphs of the canonical shape. */
module TaskGraphAcceptance {
  import opened Options
  import opened TaskGraph
  import opened TaskGraphShape
  import opened Kahn

  // ---------------------------------------------------------------- each list is empty exactly when

  lemma {:induction false} NoIdIssues(nodes: seq<Node>, upTo: nat)
    requires upTo <= |nodes|
    ensures IdIssues(nodes, upTo) == [] <==> forall i :: 0 <= i < upTo ==> !UsedBefore(nodes, i)
  {
    if upTo > 0 {
      NoIdIssues(nodes, upTo - 1);
    }
  }

  predicate DepFits(nodes: seq<Node>, i: nat, j: nat)
    requires i < |nodes| && j < |nodes[i].deps|
  {
    var deps := nodes[i].deps;
    deps[j] != nodes[i].id && IsId(nodes, deps[j]) && deps[j] !in deps[..j]
  }

  lemma {:induction false} NoDepIssues(nodes: seq<Node>, i: nat, upTo: nat)
    requires i < |nodes| && upTo <= |nodes[i].deps|
    ensures DepIssues(nodes, i, upTo) == [] <==> forall j :: 0 <= j < upTo ==> DepFits(nodes, i, j)
    decreases upTo
  {
    if upTo > 0 {
      var j, deps := upTo - 1, nodes[i].deps;
      NoDepIssues(nodes, i, j);
      assert DepFits(nodes, i, j) <==> deps[j] != nodes[i].id && IsId(nodes, deps[j]) && deps[j] !in deps[..j];
    }
  }

  ghost predicate NodeFits(nodes: seq<Node>, refs: seq<PostRef>, enabled: set<Action>, i: nat)
    requires i < |nodes|
  {
    && nodes[i].agent == AgentFor(nodes[i].action)
    && Wanted(KeyOf(nodes[i]), refs, enabled)
    && forall j :: 0 <= j < |nodes[i].deps| ==> DepFits(nodes, i, j)
  }

  lemma {:induction false} NoNodeIssues(nodes: seq<Node>, refs: seq<PostRef>, enabled: set<Action>, upTo: nat)
    requires upTo <= |nodes|
    ensures NodeIssuesUpTo(nodes, refs, enabled, upTo) == []
       <==> forall i :: 0 <= i < upTo ==> NodeFits(nodes, refs, enabled, i)
  {
    if upTo > 0 {
      NoNodeIssues(nodes, refs, enabled, upTo - 1);
      var i := upTo - 1;
      NoDepIssues(nodes, i, |nodes[i].deps|);
      assert NodeFits(nodes, refs, enabled, i) <==>
        && nodes[i].agent == AgentFor(nodes[i].action) && nodes[i].action in enabled
        && PostIssue(nodes[i], i, refs) == [] && DepIssues(nodes, i, |nodes[i].deps|) == [];
    }
  }

  ghost predicate Alone(nodes: seq<Node>, ref: PostRef, action: Action) {
    |Matches(nodes, action, ref)| == 1
  }

  lemma {:induction false} NoMatchIssues(nodes: seq<Node>, ref: PostRef, actions: seq<Action>, upTo: nat)
    requires upTo <= |actions|
    ensures MatchIssues(nodes, ref, actions, upTo) == [] <==> forall k :: 0 <= k < upTo ==> Alone(nodes, ref, actions[k])
  {
    if upTo > 0 {
      NoMatchIssues(nodes, ref, actions, upTo - 1);
    }
  }

  ghost predicate Linked(nodes: seq<Node>, ref: PostRef, actions: seq<Action>, k: nat, first: Upstream)
    requires k < |actions|
  {
    var found := Matches(nodes, actions[k], ref);
    |found| == 1 ==> DependsExactlyOn(nodes[found[0]], UpstreamOf(nodes, ref, actions, k, first))
  }

  lemma {:induction false} NoLinkIssues(nodes: seq<Node>, ref: PostRef, actions: seq<Action>, first: Upstream, upTo: nat)
    requires upTo <= |actions|
    ensures LinkIssues(nodes, ref, actions, first, upTo) == []
       <==> forall k :: 0 <= k < upTo ==> Linked(nodes, ref, actions, k, first)
  {
    hide DependsExactlyOn, UpstreamOf, Matches;
    if upTo > 0 {
      var k := upTo - 1;
      NoLinkIssues(nodes, ref, actions, first, k);
      var found := Matches(nodes, actions[k], ref);
      assert Linked(nodes, ref, actions, k, first) <==>
        !(|found| == 1 && !DependsExactlyOn(nodes[found[0]], UpstreamOf(nodes, ref, actions, k, first)));
    }
  }

  ghost predicate ChainFits(nodes: seq<Node>, ref: PostRef, actions: seq<Action>, first: Upstream) {
    forall k :: 0 <= k < |actions| ==> Alone(nodes, ref, actions[k]) && Linked(nodes, ref, actions, k, first)
  }

  lemma {:induction false} NoChainIssues(nodes: seq<Node>, refs: seq<PostRef>, actions: seq<Action>, first: Upstream, upTo: nat)
    requires upTo <= |refs|
    ensures ChainIssues(nodes, refs, actions, first, upTo) == []
       <==> forall r :: 0 <= r < upTo ==> ChainFits(nodes, refs[r], actions, first)
  {
    hide Alone, Linked, MatchIssues, LinkIssues;
    if upTo > 0 {
      NoChainIssues(nodes, refs, actions, first, upTo - 1);
      NoMatchIssues(nodes, refs[upTo - 1], actions, |actions|);
      NoLinkIssues(nodes, refs[upTo - 1], actions, first, |actions|);
    }
  }

  ghost predicate LocalFits(nodes: seq<Node>, refs: seq<PostRef>, enabled: set<Action>) {
    && |nodes| <= 4 * |refs| + 1
    && DistinctIds(nodes)
    && (forall i :: 0 <= i < |nodes| ==> NodeFits(nodes, refs, enabled, i))
    && |StrategyIndices(nodes)| <= 1
    && (Strategy in enabled ==> |StrategyIndices(nodes)| == 1)
    && (forall r :: 0 <= r < |refs| ==> ChainFits(nodes, refs[r], PerPost(enabled), FirstUpstream(nodes, enabled)))
  }

  lemma NoLocalIssues(nodes: seq<Node>, refs: seq<PostRef>, enabled: set<Action>)
    ensures LocalIssues(nodes, refs, enabled) == [] <==> LocalFits(nodes, refs, enabled)
  {
    hide NodeFits, ChainFits, PerPost, FirstUpstream;
    NoIdIssues(nodes, |nodes|);
    if forall i :: 0 <= i < |nodes| ==> !UsedBefore(nodes, i) {
      forall i, j | 0 <= i < j < |nodes| ensures nodes[i].id != nodes[j].id {
        assert !UsedBefore(nodes, j);
      }
    }
    NoNodeIssues(nodes, refs, enabled, |nodes|);
    NoChainIssues(nodes, refs, PerPost(enabled), FirstUpstream(nodes, enabled), |refs|);
  }

  // ---------------------------------------------------------------- accepted graphs are shaped

  lemma {:induction false} NodeOfIs(nodes: seq<Node>, i: nat)
    requires DistinctIds(nodes) && i < |nodes|
    ensures IsId(nodes, nodes[i].id) && NodeOf(nodes, nodes[i].id) == nodes[i]
    decreases i
  {
    if i > 0 {
      assert nodes[0].id != nodes[i].id;
      var rest := nodes[1..];
      assert forall a, b :: 0 <= a < b < |rest| ==> rest[a] == nodes[a + 1] && rest[b] == nodes[b + 1];
      NodeOfIs(rest, i - 1);
    }
  }

  lemma AtMostOne(found: seq<nat>)
    requires |found| <= 1
    ensures forall i, j :: i in found && j in found ==> i == j
  {
  }

  lemma EdgesAt(nodes: seq<Node>, i: nat)
    requires DistinctIds(nodes) && i < |nodes|
    ensures nodes[i].id in Edges(nodes)
    ensures Edges(nodes)[nodes[i].id] == set d | d in nodes[i].deps && d != nodes[i].id && IsId(nodes, d)
  {
    NodeOfIs(nodes, i);
    assert nodes[i] in nodes;
    forall d | IsId(nodes, d) ensures d in DepsById(nodes) {
      var k :| 0 <= k < |nodes| && nodes[k].id == d;
      assert nodes[k] in nodes;
    }
  }

  lemma KeysApart(nodes: seq<Node>, refs: seq<PostRef>, enabled: set<Action>, i: nat, j: nat)
    requires LocalFits(nodes, refs, enabled) && i < |nodes| && j < |nodes| && i != j
    ensures KeyOf(nodes[i]) != KeyOf(nodes[j])
  {
    assert NodeFits(nodes, refs, enabled, i);
    if nodes[i].action == Strategy {
      AtMostOne(StrategyIndices(nodes));
      assert i in StrategyIndices(nodes);
      assert j !in StrategyIndices(nodes);
    } else {
      AloneInChain(nodes, refs, enabled, KeyOf(nodes[i]));
      var found := Matches(nodes, nodes[i].action, nodes[i].postRef.value);
      AtMostOne(found);
      assert i in found;
      assert j !in found;
    }
  }

  lemma AloneInChain(nodes: seq<Node>, refs: seq<PostRef>, enabled: set<Action>, key: Key)
    requires LocalFits(nodes, refs, enabled) && Wanted(key, refs, enabled) && key.action != Strategy
    ensures key.action in PerPost(enabled)
    ensures Alone(nodes, key.postRef.value, key.action)
    ensures Linked(nodes, key.postRef.value, PerPost(enabled), PlaceOf(PerPost(enabled), key.action), FirstUpstream(nodes, enabled))
  {
    hide NodeFits, Alone, Linked, FirstUpstream;
    var r :| 0 <= r < |refs| && refs[r] == key.postRef.value;
    assert ChainFits(nodes, refs[r], PerPost(enabled), FirstUpstream(nodes, enabled));
    assert PerPost(enabled)[PlaceOf(PerPost(enabled), key.action)] == key.action;
  }

  lemma WantedIsThere(nodes: seq<Node>, refs: seq<PostRef>, enabled: set<Action>, key: Key)
    requires LocalFits(nodes, refs, enabled) && Wanted(key, refs, enabled)
    ensures HasNode(nodes, key)
  {
    if key.action == Strategy {
      var i := StrategyIndices(nodes)[0];
      assert i in StrategyIndices(nodes);
      assert NodeFits(nodes, refs, enabled, i);
      assert KeyOf(nodes[i]) == key;
    } else {
      AloneInChain(nodes, refs, enabled, key);
      var i := Matches(nodes, key.action, key.postRef.value)[0];
      assert i in Matches(nodes, key.action, key.postRef.value);
      assert KeyOf(nodes[i]) == key;
    }
  }

  /** A list without repetition that holds exactly one id is that id. */
  lemma ExactlyOne(nodes: seq<Node>, i: nat, id: NodeId)
    requires i < |nodes| && forall j :: 0 <= j < |nodes[i].deps| ==> DepFits(nodes, i, j)
    requires DependsExactlyOn(nodes[i], On(id))
    ensures nodes[i].deps == [id]
  {
    var deps := nodes[i].deps;
    assert deps[0] in deps;
    forall a, b | 0 <= a < b < |deps| ensures deps[a] != deps[b] {
      assert DepFits(nodes, i, b) && deps[..b][a] == deps[a];
    }
    OnlyMember(deps, id);
  }

  /** The only node of a piece of work is where the search for it finds it. */
  lemma OnlyMatch(nodes: seq<Node>, i: nat, ref: PostRef, action: Action)
    requires i < |nodes| && KeyOf(nodes[i]) == Key(action, Some(ref)) && Alone(nodes, ref, action)
    ensures Matches(nodes, action, ref) == [i]
  {
    assert i in Matches(nodes, action, ref);
  }

  lemma PerPostDeps(nodes: seq<Node>, refs: seq<PostRef>, enabled: set<Action>, i: nat)
    requires LocalFits(nodes, refs, enabled) && i < |nodes| && nodes[i].action != Strategy
    ensures DepsFollow(nodes, i, enabled)
  {
    hide PerPost, LocalFits, Wanted, DepFits, Alone;
    FitsAt(nodes, refs, enabled);
    assert NodeFits(nodes, refs, enabled, i);
    var key := KeyOf(nodes[i]);
    WantedParts(key, refs, enabled);
    AloneInChain(nodes, refs, enabled, key);
    OnlyMatch(nodes, i, key.postRef.value, key.action);
    var before := Before(key, enabled);
    if before.Some? {
      var j := OnlyOneOf(nodes, refs, enabled, before.value);
      assert DependsExactlyOn(nodes[i], On(nodes[j].id));
      ExactlyOne(nodes, i, nodes[j].id);
    }
  }

  lemma WantedParts(key: Key, refs: seq<PostRef>, enabled: set<Action>)
    requires Wanted(key, refs, enabled)
    ensures key.action in enabled && (key.action == Strategy <==> key.postRef.None?)
    ensures key.action != Strategy ==> key.action in PerPost(enabled) && key.postRef.value in refs
    ensures forall before :: Before(key, enabled) == Some(before) ==> Wanted(before, refs, enabled)
  {
  }

  /** The node that does a piece of work, found as chainIssues finds it. */
  lemma OnlyOneOf(nodes: seq<Node>, refs: seq<PostRef>, enabled: set<Action>, key: Key) returns (j: nat)
    requires LocalFits(nodes, refs, enabled) && Wanted(key, refs, enabled)
    ensures j < |nodes| && KeyOf(nodes[j]) == key
    ensures key.action == Strategy ==> StrategyIndices(nodes) == [j] && FirstUpstream(nodes, enabled) == On(nodes[j].id)
    ensures key.action != Strategy ==> Matches(nodes, key.action, key.postRef.value) == [j]
  {
    hide PerPost;
    if key.action == Strategy {
      j := StrategyIndices(nodes)[0];
      assert j in StrategyIndices(nodes);
      assert NodeFits(nodes, refs, enabled, j);
    } else {
      AloneInChain(nodes, refs, enabled, key);
      j := Matches(nodes, key.action, key.postRef.value)[0];
      assert j in Matches(nodes, key.action, key.postRef.value);
    }
  }

  /** The one node a piece of per-post work waits for comes before it in every numbering. */
  lemma DepRanksLower(nodes: seq<Node>, rank: map<NodeId, nat>, i: nat, j: nat)
    requires DistinctIds(nodes) && Ranks(Edges(nodes), rank) && i < |nodes| && j < |nodes| && i != j
    requires nodes[j].id in nodes[i].deps
    ensures nodes[i].id in rank && nodes[j].id in rank && rank[nodes[j].id] < rank[nodes[i].id]
  {
    EdgesAt(nodes, i);
    assert IsId(nodes, nodes[j].id);
    assert nodes[j].id in Edges(nodes)[nodes[i].id];
  }

  function RankOf(key: Key, enabled: set<Action>): nat {
    if key.action in PerPost(enabled) then 1 + PlaceOf(PerPost(enabled), key.action) else 0
  }

  /** Every per-post node comes after the strategy node. */
  lemma {:induction false} AfterStrategy(nodes: seq<Node>, rank: map<NodeId, nat>, refs: seq<PostRef>, enabled: set<Action>,
                                         i: nat, s: nat)
    requires LocalFits(nodes, refs, enabled) && Ranks(Edges(nodes), rank)
    requires i < |nodes| && nodes[i].action != Strategy && s < |nodes| && nodes[s].action == Strategy
    ensures nodes[s].id in rank && nodes[i].id in rank && rank[nodes[s].id] < rank[nodes[i].id]
    decreases if i < |nodes| then RankOf(KeyOf(nodes[i]), enabled) else 0
  {
    hide PerPost, Ranks, LocalFits;
    assert NodeFits(nodes, refs, enabled, i) && NodeFits(nodes, refs, enabled, s) by { FitsAt(nodes, refs, enabled); }
    FitsAt(nodes, refs, enabled);
    PerPostDeps(nodes, refs, enabled, i);
    var before := Before(KeyOf(nodes[i]), enabled).value;
    var j :| 0 <= j < |nodes| && KeyOf(nodes[j]) == before && nodes[i].deps == [nodes[j].id];
    assert nodes[i].deps[0] == nodes[j].id && DepFits(nodes, i, 0);
    DepRanksLower(nodes, rank, i, j);
    if before.action == Strategy {
      OnlyStrategy(nodes, refs, enabled, s, j);
    } else {
      PerPostPlaces(enabled);
      AfterStrategy(nodes, rank, refs, enabled, j, s);
    }
  }

  lemma OnlyStrategy(nodes: seq<Node>, refs: seq<PostRef>, enabled: set<Action>, s: nat, j: nat)
    requires LocalFits(nodes, refs, enabled) && s < |nodes| && j < |nodes|
    requires nodes[s].action == Strategy && nodes[j].action == Strategy
    ensures s == j
  {
    AtMostOne(StrategyIndices(nodes));
    assert s in StrategyIndices(nodes) && j in StrategyIndices(nodes);
  }

  lemma FitsAt(nodes: seq<Node>, refs: seq<PostRef>, enabled: set<Action>)
    requires LocalFits(nodes, refs, enabled)
    ensures DistinctIds(nodes) && forall i :: 0 <= i < |nodes| ==> NodeFits(nodes, refs, enabled, i)
  {
  }

  /** So the strategy node can depend on nothing: on itself it may not, and anything else follows it. */
  lemma StrategyIsFree(nodes: seq<Node>, refs: seq<PostRef>, enabled: set<Action>, s: nat)
    requires LocalFits(nodes, refs, enabled) && TaskGraph.Acyclic(nodes) && s < |nodes| && nodes[s].action == Strategy
    ensures nodes[s].deps == []
  {
    hide LocalFits, Ranks, PerPost;
    FitsAt(nodes, refs, enabled);
    assert NodeFits(nodes, refs, enabled, s);
    var rank :| Ranks(Edges(nodes), rank);
    if nodes[s].deps != [] {
      assert DepFits(nodes, s, 0);
      var i :| 0 <= i < |nodes| && nodes[i].id == nodes[s].deps[0];
      DepRanksLower(nodes, rank, s, i);
      if nodes[i].action == Strategy {
        OnlyStrategy(nodes, refs, enabled, s, i);
      } else {
        AfterStrategy(nodes, rank, refs, enabled, i, s);
      }
    }
  }

  lemma AcceptedIsShaped(nodes: seq<Node>, refs: seq<PostRef>, enabled: set<Action>)
    requires Accepted(nodes, refs, enabled)
    ensures Shaped(nodes, refs, enabled)
  {
    hide LocalFits, LocalIssues, TaskGraph.Acyclic, DepsFollow, Wanted, HasNode;
    NoLocalIssues(nodes, refs, enabled);
    FitsAt(nodes, refs, enabled);
    forall i, j | 0 <= i < j < |nodes| ensures KeyOf(nodes[i]) != KeyOf(nodes[j]) {
      KeysApart(nodes, refs, enabled, i, j);
    }
    forall key | Wanted(key, refs, enabled) ensures HasNode(nodes, key) {
      WantedIsThere(nodes, refs, enabled, key);
    }
    forall i | 0 <= i < |nodes|
      ensures DepsFollow(nodes, i, enabled)
      ensures Wanted(KeyOf(nodes[i]), refs, enabled) && nodes[i].agent == AgentFor(nodes[i].action)
    {
      assert NodeFits(nodes, refs, enabled, i);
      if nodes[i].action == Strategy {
        StrategyIsFree(nodes, refs, enabled, i);
        StrategyFollows(nodes, i, enabled);
      } else {
        PerPostDeps(nodes, refs, enabled, i);
      }
    }
  }

  lemma StrategyFollows(nodes: seq<Node>, i: nat, enabled: set<Action>)
    requires i < |nodes| && nodes[i].action == Strategy && nodes[i].deps == []
    ensures DepsFollow(nodes, i, enabled)
  {
  }

  // ---------------------------------------------------------------- shaped graphs are accepted

  ghost function ShapeRanks(nodes: seq<Node>, enabled: set<Action>): map<NodeId, nat> {
    map id | id in (set i | 0 <= i < |nodes| :: nodes[i].id) && IsId(nodes, id) :: RankOf(KeyOf(NodeOf(nodes, id)), enabled)
  }

  lemma ShapeRankAt(nodes: seq<Node>, enabled: set<Action>, i: nat)
    requires DistinctIds(nodes) && i < |nodes|
    ensures var rank := ShapeRanks(nodes, enabled);
            nodes[i].id in rank && rank[nodes[i].id] == RankOf(KeyOf(nodes[i]), enabled)
  {
    hide RankOf, PerPost;
    NodeOfIs(nodes, i);
  }

  /** The one dependency of a shaped node has the rank of the work before. */
  lemma ShapeEdge(nodes: seq<Node>, refs: seq<PostRef>, enabled: set<Action>, i: nat)
    requires Shaped(nodes, refs, enabled) && i < |nodes|
    ensures forall d :: d in nodes[i].deps ==>
              exists j :: 0 <= j < |nodes| && nodes[j].id == d && RankOf(KeyOf(nodes[j]), enabled) < RankOf(KeyOf(nodes[i]), enabled)
  {
    hide Wanted, HasNode, PerPost, PlaceOf;
    assert DepsFollow(nodes, i, enabled);
    PerPostPlaces(enabled);
  }

  lemma ShapedIsAcyclic(nodes: seq<Node>, refs: seq<PostRef>, enabled: set<Action>)
    requires Shaped(nodes, refs, enabled)
    ensures TaskGraph.Acyclic(nodes)
  {
    ShapedIds(nodes, refs, enabled);
    var rank, edges := ShapeRanks(nodes, enabled), Edges(nodes);
    EdgesAreIds(nodes);
    hide Shaped, ShapeRanks, Edges, RankOf, KeyOf;
    forall id | id in edges
      ensures id in rank && forall d :: d in edges[id] ==> d in rank && rank[d] < rank[id]
    {
      var i :| 0 <= i < |nodes| && nodes[i].id == id;
      EdgesAt(nodes, i);
      ShapeRankAt(nodes, enabled, i);
      ShapeEdge(nodes, refs, enabled, i);
      forall d | d in edges[id] ensures d in rank && rank[d] < rank[id] {
        var j :| 0 <= j < |nodes| && nodes[j].id == d && RankOf(KeyOf(nodes[j]), enabled) < RankOf(KeyOf(nodes[i]), enabled);
        ShapeRankAt(nodes, enabled, j);
      }
    }
    assert Ranks(edges, rank);
  }

  lemma EdgesAreIds(nodes: seq<Node>)
    ensures forall id :: id in Edges(nodes) ==> exists i :: 0 <= i < |nodes| && nodes[i].id == id
  {
  }

  lemma OnlyMember<T>(found: seq<T>, x: T)
    requires Distinct(found) && forall y :: y in found <==> y == x
    ensures found == [x]
  {
    SizeOfMembers(found);
    assert x in found;
    forall k | 0 <= k < |found| ensures found[k] == x {
      assert found[k] in found;
    }
    assert (set k | 0 <= k < |found| :: found[k]) == {x};
  }

  lemma FirstIsIn<T>(found: seq<T>)
    requires found != []
    ensures found[0] in found
  {
  }

  lemma NoMember<T>(found: seq<T>)
    requires forall x :: x !in found
    ensures found == []
  {
    if found != [] {
      FirstIsIn(found);
    }
  }

  lemma ShapedStrategies(nodes: seq<Node>, refs: seq<PostRef>, enabled: set<Action>)
    requires Shaped(nodes, refs, enabled)
    ensures |StrategyIndices(nodes)| <= 1
    ensures Strategy in enabled ==> |StrategyIndices(nodes)| == 1
  {
    hide DepsFollow;
    var found := StrategyIndices(nodes);
    forall i | 0 <= i < |nodes| && nodes[i].action == Strategy
      ensures Strategy in enabled && KeyOf(nodes[i]) == Key(Strategy, None)
    {
      assert Wanted(KeyOf(nodes[i]), refs, enabled);
    }
    if Strategy in enabled {
      assert HasNode(nodes, Key(Strategy, None));
      OnlyMember(found, Find(nodes, Key(Strategy, None)));
    } else {
      NoMember(found);
    }
  }

  lemma ShapedIsAlone(nodes: seq<Node>, refs: seq<PostRef>, enabled: set<Action>, ref: PostRef, action: Action)
    requires Shaped(nodes, refs, enabled) && Wanted(Key(action, Some(ref)), refs, enabled)
    ensures Alone(nodes, ref, action)
  {
    hide DepsFollow;
    assert HasNode(nodes, Key(action, Some(ref)));
    OnlyMember(Matches(nodes, action, ref), Find(nodes, Key(action, Some(ref))));
  }

  lemma ShapedIsLinked(nodes: seq<Node>, refs: seq<PostRef>, enabled: set<Action>, ref: PostRef, k: nat)
    requires Shaped(nodes, refs, enabled) && ref in refs && k < |PerPost(enabled)|
    ensures Linked(nodes, ref, PerPost(enabled), k, FirstUpstream(nodes, enabled))
  {
    hide PerPost, HasNode;
    var actions := PerPost(enabled);
    PerPostPlaces(enabled);
    ShapedStrategies(nodes, refs, enabled);
    var found := Matches(nodes, actions[k], ref);
    if |found| == 1 {
      var i := found[0];
      assert i in found;
      assert DepsFollow(nodes, i, enabled);
      var before := Before(KeyOf(nodes[i]), enabled);
      if before.Some? {
        var j :| 0 <= j < |nodes| && KeyOf(nodes[j]) == before.value && nodes[i].deps == [nodes[j].id];
        if k > 0 {
          ShapedIsAlone(nodes, refs, enabled, ref, actions[k - 1]);
          OnlyMatch(nodes, j, ref, actions[k - 1]);
        } else {
          assert j in StrategyIndices(nodes);
        }
      }
    }
  }

  lemma ShapedDepsFit(nodes: seq<Node>, refs: seq<PostRef>, enabled: set<Action>, i: nat)
    requires Shaped(nodes, refs, enabled) && i < |nodes|
    ensures NodeFits(nodes, refs, enabled, i)
  {
    hide HasNode, PerPost, PlaceOf;
    assert DepsFollow(nodes, i, enabled);
    var before := Before(KeyOf(nodes[i]), enabled);
    if before.Some? {
      PerPostPlaces(enabled);
      var j :| 0 <= j < |nodes| && KeyOf(nodes[j]) == before.value && nodes[i].deps == [nodes[j].id];
      assert KeyOf(nodes[j]) != KeyOf(nodes[i]);
      assert IsId(nodes, nodes[j].id);
    }
  }

  function Below(n: nat): (below: set<nat>)
    ensures |below| == n
    ensures forall i :: i in below <==> 0 <= i < n
  {
    if n == 0 then {} else Below(n - 1) + {n - 1}
  }

  /** Distinct numbers below n are at most n. */
  lemma Pigeonhole(at: seq<nat>, n: nat)
    requires Distinct(at) && forall k :: 0 <= k < |at| ==> at[k] < n
    ensures |at| <= n
  {
    var members := set k | 0 <= k < |at| :: at[k];
    SizeOfMembers(at);
    SubsetSize(members, Below(n));
  }

  lemma {:induction false} SizeOfMembers<T>(at: seq<T>)
    requires Distinct(at)
    ensures |set k | 0 <= k < |at| :: at[k]| == |at|
  {
    if at != [] {
      var init := at[..|at| - 1];
      SizeOfMembers(init);
      var last := at[|at| - 1];
      assert (set k | 0 <= k < |at| :: at[k]) == (set k | 0 <= k < |init| :: init[k]) + {last};
      assert last !in (set k | 0 <= k < |init| :: init[k]);
    }
  }

  lemma {:induction false} SubsetSize(a: set<nat>, b: set<nat>)
    requires a <= b
    ensures |a| <= |b|
  {
    if a != {} {
      var x :| x in a;
      SubsetSize(a - {x}, b - {x});
    }
  }

  lemma ShapedIsSmall(nodes: seq<Node>, refs: seq<PostRef>, enabled: set<Action>)
    requires Shaped(nodes, refs, enabled) && Distinct(refs)
    ensures |nodes| <= 4 * |refs| + 1
  {
    hide Shaped, CanonicalGraph;
    var canonical := CanonicalGraph(refs, enabled);
    CanonicalIsShaped(refs, enabled);
    AllKeysThere(nodes, canonical, refs, enabled);
    KeyPlacesAreAll(canonical, nodes, refs, enabled);
    Pigeonhole(PlacesIn(canonical, nodes), |canonical|);
  }

  lemma AllKeysThere(nodes: seq<Node>, other: seq<Node>, refs: seq<PostRef>, enabled: set<Action>)
    requires Shaped(nodes, refs, enabled) && Shaped(other, refs, enabled)
    ensures forall k :: 0 <= k < |nodes| ==> HasNode(other, KeyOf(nodes[k]))
  {
  }

  lemma ShapedIsAccepted(nodes: seq<Node>, refs: seq<PostRef>, enabled: set<Action>)
    requires Shaped(nodes, refs, enabled) && Distinct(refs)
    ensures Accepted(nodes, refs, enabled)
  {
    hide NodeFits, Alone, Linked, LocalIssues, TaskGraph.Acyclic, Shaped, PerPost;
    ShapedIsSmall(nodes, refs, enabled);
    ShapedStrategies(nodes, refs, enabled);
    ShapedIds(nodes, refs, enabled);
    forall i | 0 <= i < |nodes| ensures NodeFits(nodes, refs, enabled, i) {
      ShapedDepsFit(nodes, refs, enabled, i);
    }
    forall r, k | 0 <= r < |refs| && 0 <= k < |PerPost(enabled)|
      ensures Alone(nodes, refs[r], PerPost(enabled)[k])
      ensures Linked(nodes, refs[r], PerPost(enabled), k, FirstUpstream(nodes, enabled))
    {
      assert PerPost(enabled)[k] in PerPost(enabled);
      ShapedIsAlone(nodes, refs, enabled, refs[r], PerPost(enabled)[k]);
      ShapedIsLinked(nodes, refs, enabled, refs[r], k);
    }
    NoLocalIssues(nodes, refs, enabled);
    ShapedIsAcyclic(nodes, refs, enabled);
  }

  lemma ShapedIds(nodes: seq<Node>, refs: seq<PostRef>, enabled: set<Action>)
    requires Shaped(nodes, refs, enabled)
    ensures DistinctIds(nodes)
  {
  }

  // ---------------------------------------------------------------- the theorem

  /** For a plan that names its posts apart, nodeIssues accepts exactly the canonical graph and its
      disguises. */
  lemma AcceptsExactlyTheCanonicalGraph(nodes: seq<Node>, refs: seq<PostRef>, enabled: set<Action>)
    requires Distinct(refs)
    ensures Accepted(nodes, refs, enabled)
       <==> exists at, names :: SameUpToNames(nodes, CanonicalGraph(refs, enabled), at, names)
  {
    hide Accepted, SameUpToNames, Shaped, CanonicalGraph;
    var canonical := CanonicalGraph(refs, enabled);
    CanonicalIsShaped(refs, enabled);
    if Accepted(nodes, refs, enabled) {
      AcceptedIsShaped(nodes, refs, enabled);
      ShapedGraphsAgree(nodes, canonical, refs, enabled);
    }
    if at, names :| SameUpToNames(nodes, canonical, at, names) {
      DisguiseKeepsShape(nodes, canonical, at, names, refs, enabled);
      ShapedIsAccepted(nodes, refs, enabled);
    }
  }
}
