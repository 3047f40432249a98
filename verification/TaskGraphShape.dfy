/** The graphs nodeIssues accepts are the canonical graph and its disguises: the same nodes under
    other ids, in another order, with other instructions. */
module TaskGraphShape {
  import opened Options
  import opened TaskGraph
  import opened Kahn

  // ---------------------------------------------------------------- what a node is there for

  /** The work a node stands for: one action on one post, or the strategy. */
  datatype Key = Key(action: Action, postRef: Option<PostRef>)

  function KeyOf(node: Node): Key {
    Key(node.action, node.postRef)
  }

  predicate Wanted(key: Key, refs: seq<PostRef>, enabled: set<Action>) {
    key.action in enabled
    && if key.action == Strategy then key.postRef.None? else key.postRef.Some? && key.postRef.value in refs
  }

  function PlaceOf(actions: seq<Action>, a: Action): (k: nat)
    requires a in actions
    ensures k < |actions| && actions[k] == a
  {
    if actions[0] == a then 0 else 1 + PlaceOf(actions[1..], a)
  }

  /** The work a piece of work waits for. */
  function Before(key: Key, enabled: set<Action>): Option<Key> {
    var actions := PerPost(enabled);
    if key.action !in actions then None
    else if PlaceOf(actions, key.action) > 0 then Some(Key(actions[PlaceOf(actions, key.action) - 1], key.postRef))
    else if Strategy in enabled then Some(Key(Strategy, None))
    else None
  }

  ghost predicate DistinctIds(nodes: seq<Node>) {
    forall i, j :: 0 <= i < j < |nodes| ==> nodes[i].id != nodes[j].id
  }

  predicate HasNode(nodes: seq<Node>, key: Key) {
    exists i :: 0 <= i < |nodes| && KeyOf(nodes[i]) == key
  }

  ghost predicate DepsFollow(nodes: seq<Node>, i: nat, enabled: set<Action>)
    requires i < |nodes|
  {
    match Before(KeyOf(nodes[i]), enabled)
    case None => nodes[i].deps == []
    case Some(key) => exists j :: 0 <= j < |nodes| && KeyOf(nodes[j]) == key && nodes[i].deps == [nodes[j].id]
  }

  /** Exactly one node per piece of wanted work, each by its agent, each waiting for exactly the one
      before it. */
  ghost predicate Shaped(nodes: seq<Node>, refs: seq<PostRef>, enabled: set<Action>) {
    && DistinctIds(nodes)
    && (forall i :: 0 <= i < |nodes| ==>
          Wanted(KeyOf(nodes[i]), refs, enabled) && nodes[i].agent == AgentFor(nodes[i].action))
    && (forall i, j :: 0 <= i < j < |nodes| ==> KeyOf(nodes[i]) != KeyOf(nodes[j]))
    && (forall key :: Wanted(key, refs, enabled) ==> HasNode(nodes, key))
    && (forall i :: 0 <= i < |nodes| ==> DepsFollow(nodes, i, enabled))
  }

  lemma PerPostPlaces(enabled: set<Action>)
    ensures var actions := PerPost(enabled);
            && Distinct(actions)
            && (forall k :: 0 <= k < |actions| ==> PlaceOf(actions, actions[k]) == k)
  {
    EnabledDistinct(PER_POST_ACTIONS, enabled);
  }

  // ---------------------------------------------------------------- the canonical graph is shaped

  ghost predicate LinkInChain(nodes: seq<Node>, i: nat, ref: PostRef, actions: seq<Action>, k: nat,
                              next: nat, upstream: Option<NodeId>)
    requires i < |nodes|
  {
    && k < |actions| && k <= i
    && nodes[i] == Node(IdOf(next + i), AgentFor(actions[k]), actions[k], Some(ref),
                        if k > 0 then [IdOf(next + i - 1)] else if upstream.Some? then [upstream.value] else [], None)
    && (k > 0 ==> KeyOf(nodes[i - 1]) == Key(actions[k - 1], Some(ref)))
  }

  lemma {:induction false} ChainLinks(ref: PostRef, actions: seq<Action>, next: nat, upstream: Option<NodeId>, i: nat)
    requires i < |actions|
    ensures LinkInChain(Chain(ref, actions, next, upstream), i, ref, actions, i, next, upstream)
    decreases |actions|
  {
    hide IdOf, AgentFor;
    var nodes := Chain(ref, actions, next, upstream);
    var rest := Chain(ref, actions[1..], next + 1, Some(IdOf(next)));
    assert nodes[1..] == rest;
    if i > 0 {
      ChainLinks(ref, actions[1..], next + 1, Some(IdOf(next)), i - 1);
      assert nodes[i] == rest[i - 1];
      if i > 1 {
        assert nodes[i - 1] == rest[i - 2];
      }
    }
  }

  ghost predicate LinkIn(nodes: seq<Node>, i: nat, refs: seq<PostRef>, actions: seq<Action>, next: nat, upstream: Option<NodeId>)
    requires i < |nodes|
  {
    exists r, k :: 0 <= r < |refs| && 0 <= k < |actions| && LinkInChain(nodes, i, refs[r], actions, k, next, upstream)
  }

  lemma {:induction false} ChainsLinks(refs: seq<PostRef>, actions: seq<Action>, next: nat, upstream: Option<NodeId>, i: nat)
    requires i < |Chains(refs, actions, next, upstream)|
    ensures LinkIn(Chains(refs, actions, next, upstream), i, refs, actions, next, upstream)
    decreases |refs|
  {
    hide IdOf, AgentFor, Chain;
    var first := Chain(refs[0], actions, next, upstream);
    var rest := Chains(refs[1..], actions, next + |actions|, upstream);
    var nodes := Chains(refs, actions, next, upstream);
    if i < |actions| {
      ChainLinks(refs[0], actions, next, upstream, i);
      assert LinkInChain(nodes, i, refs[0], actions, i, next, upstream);
    } else {
      var i' := i - |actions|;
      ChainsLinks(refs[1..], actions, next + |actions|, upstream, i');
      var r, k :| 0 <= r < |refs[1..]| && 0 <= k < |actions|
                  && LinkInChain(rest, i', refs[1..][r], actions, k, next + |actions|, upstream);
      assert nodes[i] == rest[i'];
      if k > 0 {
        assert nodes[i - 1] == rest[i' - 1];
      }
      assert LinkInChain(nodes, i, refs[r + 1], actions, k, next, upstream);
    }
  }

  lemma {:induction false} ChainsKeys(refs: seq<PostRef>, actions: seq<Action>, next: nat, upstream: Option<NodeId>, i: nat)
    requires Distinct(refs) && Distinct(actions) && i < |Chains(refs, actions, next, upstream)|
    ensures var nodes := Chains(refs, actions, next, upstream);
            && nodes[i].postRef.Some? && nodes[i].postRef.value in refs && nodes[i].action in actions
            && (forall j :: 0 <= j < i ==> KeyOf(nodes[j]) != KeyOf(nodes[i]))
    decreases |refs|
  {
    hide IdOf, AgentFor, Chain;
    var first := Chain(refs[0], actions, next, upstream);
    var rest := Chains(refs[1..], actions, next + |actions|, upstream);
    var nodes := Chains(refs, actions, next, upstream);
    assert nodes == first + rest;
    forall j | 0 <= j < |actions| ensures KeyOf(first[j]) == Key(actions[j], Some(refs[0])) {
      ChainLinks(refs[0], actions, next, upstream, j);
    }
    assert refs[0] !in refs[1..];
    if i >= |actions| {
      ChainsKeys(refs[1..], actions, next + |actions|, upstream, i - |actions|);
      assert nodes[i] == rest[i - |actions|];
      forall j | 0 <= j < i ensures KeyOf(nodes[j]) != KeyOf(nodes[i]) {
        if j < |actions| {
          assert KeyOf(nodes[j]).postRef == Some(refs[0]);
        } else {
          assert nodes[j] == rest[j - |actions|];
        }
      }
    }
  }

  lemma {:induction false} ChainsCover(refs: seq<PostRef>, actions: seq<Action>, next: nat, upstream: Option<NodeId>, key: Key)
    requires key.action in actions && key.postRef.Some? && key.postRef.value in refs
    ensures HasNode(Chains(refs, actions, next, upstream), key)
    decreases |refs|
  {
    hide IdOf, AgentFor, Chain;
    var first := Chain(refs[0], actions, next, upstream);
    var rest := Chains(refs[1..], actions, next + |actions|, upstream);
    var nodes := Chains(refs, actions, next, upstream);
    if key.postRef.value == refs[0] {
      var k := PlaceOf(actions, key.action);
      ChainLinks(refs[0], actions, next, upstream, k);
      assert nodes[k] == first[k];
    } else {
      ChainsCover(refs[1..], actions, next + |actions|, upstream, key);
      var i :| 0 <= i < |rest| && KeyOf(rest[i]) == key;
      assert nodes[|actions| + i] == rest[i];
    }
  }

  lemma {:induction false} ChainsLength(refs: seq<PostRef>, actions: seq<Action>, next: nat, upstream: Option<NodeId>)
    requires |actions| <= 4
    ensures |Chains(refs, actions, next, upstream)| <= 4 * |refs|
    decreases |refs|
  {
    if refs != [] {
      ChainsLength(refs[1..], actions, next + |actions|, upstream);
    }
  }

  /** The canonical graph without its strategy node. */
  function CanonicalChains(refs: seq<PostRef>, enabled: set<Action>): seq<Node> {
    if Strategy in enabled then Chains(refs, PerPost(enabled), 2, Some(IdOf(1))) else Chains(refs, PerPost(enabled), 1, None)
  }

  lemma CanonicalInTwo(refs: seq<PostRef>, enabled: set<Action>)
    ensures CanonicalGraph(refs, enabled) == StrategyNodes(enabled) + CanonicalChains(refs, enabled)
  {
  }

  lemma CanonicalAt(refs: seq<PostRef>, enabled: set<Action>, i: nat)
    requires i < |CanonicalGraph(refs, enabled)|
    ensures var nodes := CanonicalGraph(refs, enabled);
            && nodes[i].id == IdOf(i + 1)
            && nodes[i].agent == AgentFor(nodes[i].action)
            && (i >= |StrategyNodes(enabled)| ==>
                  nodes[i].deps == if PerPostIndex(nodes[i], enabled) > 0 || Strategy in enabled
                                   then [IdOf(if PerPostIndex(nodes[i], enabled) > 0 then i else 1)] else [])
            && (i >= |StrategyNodes(enabled)| && PerPostIndex(nodes[i], enabled) > 0 ==>
                  && i > 0
                  && KeyOf(nodes[i - 1]) == Key(PerPost(enabled)[PerPostIndex(nodes[i], enabled) - 1], nodes[i].postRef))
  {
    hide IdOf, Chains, PerPost;
    var nodes, actions := CanonicalGraph(refs, enabled), PerPost(enabled);
    var off, upstream := |StrategyNodes(enabled)|, if Strategy in enabled then Some(IdOf(1)) else None;
    var chains := Chains(refs, actions, off + 1, upstream);
    CanonicalInTwo(refs, enabled);
    PerPostPlaces(enabled);
    if i >= off {
      assert nodes[i] == chains[i - off];
      ChainsLinks(refs, actions, off + 1, upstream, i - off);
      var r, k :| 0 <= r < |refs| && 0 <= k < |actions|
                  && LinkInChain(chains, i - off, refs[r], actions, k, off + 1, upstream);
      if k > 0 {
        assert nodes[i - 1] == chains[i - off - 1];
      }
      assert PlaceOf(actions, nodes[i].action) == k;
    }
  }

  function PerPostIndex(node: Node, enabled: set<Action>): nat {
    if node.action in PerPost(enabled) then PlaceOf(PerPost(enabled), node.action) else 0
  }

  lemma CanonicalDepsFollow(refs: seq<PostRef>, enabled: set<Action>, i: nat)
    requires i < |CanonicalGraph(refs, enabled)|
    requires CanonicalGraph(refs, enabled)[i].action != Strategy ==> CanonicalGraph(refs, enabled)[i].action in enabled
    requires i >= |StrategyNodes(enabled)| ==> CanonicalGraph(refs, enabled)[i].action != Strategy
    ensures DepsFollow(CanonicalGraph(refs, enabled), i, enabled)
  {
    hide IdOf, Chains, AgentFor, CanonicalGraph, CanonicalChains, PerPost, PlaceOf;
    var nodes := CanonicalGraph(refs, enabled);
    CanonicalAt(refs, enabled, i);
    CanonicalInTwo(refs, enabled);
    if i >= |StrategyNodes(enabled)| {
      if PerPostIndex(nodes[i], enabled) > 0 {
        CanonicalAt(refs, enabled, i - 1);
        assert nodes[i].deps == [nodes[i - 1].id];
      } else if Strategy in enabled {
        assert nodes[0] == StrategyNodes(enabled)[0];
        assert nodes[i].deps == [nodes[0].id];
      }
    } else {
      assert nodes[i] == StrategyNodes(enabled)[0];
    }
  }

  lemma CanonicalKeys(refs: seq<PostRef>, enabled: set<Action>, i: nat)
    requires Distinct(refs) && i < |CanonicalGraph(refs, enabled)|
    ensures var nodes := CanonicalGraph(refs, enabled);
            && Wanted(KeyOf(nodes[i]), refs, enabled)
            && (i >= |StrategyNodes(enabled)| ==> nodes[i].action != Strategy)
            && (forall j :: 0 <= j < i ==> KeyOf(nodes[j]) != KeyOf(nodes[i]))
  {
    hide IdOf, Chains;
    var nodes, chains := CanonicalGraph(refs, enabled), CanonicalChains(refs, enabled);
    var off := |StrategyNodes(enabled)|;
    CanonicalInTwo(refs, enabled);
    PerPostPlaces(enabled);
    if i >= off {
      if Strategy in enabled {
        ChainsKeys(refs, PerPost(enabled), 2, Some(IdOf(1)), i - off);
      } else {
        ChainsKeys(refs, PerPost(enabled), 1, None, i - off);
      }
      assert nodes[i] == chains[i - off];
      forall j | 0 <= j < i ensures KeyOf(nodes[j]) != KeyOf(nodes[i]) {
        if j >= off {
          assert nodes[j] == chains[j - off];
        }
      }
    }
  }

  lemma CanonicalCovers(refs: seq<PostRef>, enabled: set<Action>, key: Key)
    requires Wanted(key, refs, enabled)
    ensures HasNode(CanonicalGraph(refs, enabled), key)
  {
    hide IdOf, Chains;
    var nodes, chains := CanonicalGraph(refs, enabled), CanonicalChains(refs, enabled);
    var off := |StrategyNodes(enabled)|;
    CanonicalInTwo(refs, enabled);
    if key.action == Strategy {
      assert KeyOf(nodes[0]) == key;
    } else {
      ChainsCover(refs, PerPost(enabled), 2, Some(IdOf(1)), key);
      ChainsCover(refs, PerPost(enabled), 1, None, key);
      var i :| 0 <= i < |chains| && KeyOf(chains[i]) == key;
      assert nodes[off + i] == chains[i];
    }
  }

  lemma WantedEnabled(key: Key, refs: seq<PostRef>, enabled: set<Action>)
    requires Wanted(key, refs, enabled)
    ensures key.action in enabled
  {
  }

  lemma CanonicalIsShaped(refs: seq<PostRef>, enabled: set<Action>)
    requires Distinct(refs)
    ensures Shaped(CanonicalGraph(refs, enabled), refs, enabled)
    ensures |CanonicalGraph(refs, enabled)| <= 4 * |refs| + 1
  {
    hide IdOf, Wanted, DepsFollow, HasNode, CanonicalGraph;
    var nodes := CanonicalGraph(refs, enabled);
    CanonicalInTwo(refs, enabled);
    ChainsLength(refs, PerPost(enabled), 2, Some(IdOf(1)));
    ChainsLength(refs, PerPost(enabled), 1, None);
    forall i | 0 <= i < |nodes|
      ensures nodes[i].id == IdOf(i + 1)
      ensures Wanted(KeyOf(nodes[i]), refs, enabled) && nodes[i].agent == AgentFor(nodes[i].action)
      ensures DepsFollow(nodes, i, enabled) && forall j :: 0 <= j < i ==> KeyOf(nodes[j]) != KeyOf(nodes[i])
    {
      CanonicalAt(refs, enabled, i);
      CanonicalKeys(refs, enabled, i);
      assert nodes[i].action in enabled by { WantedEnabled(KeyOf(nodes[i]), refs, enabled); }
      CanonicalDepsFollow(refs, enabled, i);
    }
    forall i, j | 0 <= i < j < |nodes| ensures nodes[i].id != nodes[j].id {
      if nodes[i].id == nodes[j].id {
        IdsInjective(i + 1, j + 1);
      }
    }
    forall key | Wanted(key, refs, enabled) ensures HasNode(nodes, key) {
      CanonicalCovers(refs, enabled, key);
    }
  }

  // ---------------------------------------------------------------- the same graph in disguise

  function Renamed(ids: seq<NodeId>, names: map<NodeId, NodeId>): seq<NodeId>
    requires forall d :: d in ids ==> d in names
  {
    seq(|ids|, k requires 0 <= k < |ids| => names[ids[k]])
  }

  /** Every node has exactly one place in `at`. */
  ghost predicate Places(nodes: seq<Node>, canonical: seq<Node>, at: seq<nat>) {
    && |at| == |canonical| && Distinct(at)
    && (forall k :: 0 <= k < |at| ==> at[k] < |nodes|)
    && (forall i: nat :: i < |nodes| ==> i in at)
  }

  predicate Disguised(canonical: Node, node: Node, names: map<NodeId, NodeId>) {
    && canonical.id in names && (forall d :: d in canonical.deps ==> d in names)
    && node.id == names[canonical.id] && node.deps == Renamed(canonical.deps, names)
    && node.agent == canonical.agent && node.action == canonical.action && node.postRef == canonical.postRef
  }

  ghost predicate Injective(names: map<NodeId, NodeId>) {
    forall c, d :: c in names && d in names && names[c] == names[d] ==> c == d
  }

  /** `nodes` is `canonical` with its nodes in other places (`at`), under other ids (`names`) and with
      other instructions. */
  ghost predicate SameUpToNames(nodes: seq<Node>, canonical: seq<Node>, at: seq<nat>, names: map<NodeId, NodeId>) {
    && Places(nodes, canonical, at)
    && Injective(names)
    && forall k :: 0 <= k < |canonical| ==> Disguised(canonical[k], nodes[at[k]], names)
  }

  ghost function Find(nodes: seq<Node>, key: Key): (i: nat)
    requires HasNode(nodes, key)
    ensures i < |nodes| && KeyOf(nodes[i]) == key
  {
    var i: nat :| i < |nodes| && KeyOf(nodes[i]) == key; i
  }

  ghost function PlacesIn(nodes: seq<Node>, canonical: seq<Node>): (at: seq<nat>)
    requires forall k :: 0 <= k < |canonical| ==> HasNode(nodes, KeyOf(canonical[k]))
    ensures |at| == |canonical|
    ensures forall k :: 0 <= k < |at| ==> at[k] < |nodes| && KeyOf(nodes[at[k]]) == KeyOf(canonical[k])
  {
    seq(|canonical|, k requires 0 <= k < |canonical| => Find(nodes, KeyOf(canonical[k])))
  }

  lemma KeyPlacesAreAll(nodes: seq<Node>, canonical: seq<Node>, refs: seq<PostRef>, enabled: set<Action>)
    requires Shaped(nodes, refs, enabled) && Shaped(canonical, refs, enabled)
    ensures Places(nodes, canonical, PlacesIn(nodes, canonical))
  {
    hide DepsFollow, Wanted;
    var at := PlacesIn(nodes, canonical);
    forall i: nat | i < |nodes| ensures i in at {
      assert HasNode(canonical, KeyOf(nodes[i]));
      var k := Find(canonical, KeyOf(nodes[i]));
      assert KeyOf(nodes[at[k]]) == KeyOf(nodes[i]);
    }
  }

  ghost function Naming(nodes: seq<Node>, canonical: seq<Node>, at: seq<nat>): (names: map<NodeId, NodeId>)
    requires DistinctIds(nodes) && DistinctIds(canonical)
    requires |at| == |canonical| && Distinct(at) && forall k :: 0 <= k < |at| ==> at[k] < |nodes|
    ensures Injective(names)
    ensures forall k :: 0 <= k < |canonical| ==> canonical[k].id in names && names[canonical[k].id] == nodes[at[k]].id
  {
    map k | 0 <= k < |canonical| :: canonical[k].id := nodes[at[k]].id
  }

  lemma DepsAgree(nodes: seq<Node>, canonical: seq<Node>, at: seq<nat>, names: map<NodeId, NodeId>, k: nat,
                  refs: seq<PostRef>, enabled: set<Action>)
    requires Shaped(nodes, refs, enabled) && Shaped(canonical, refs, enabled)
    requires |at| == |canonical| && k < |canonical|
    requires forall j :: 0 <= j < |at| ==> at[j] < |nodes| && KeyOf(nodes[at[j]]) == KeyOf(canonical[j])
    requires forall j :: 0 <= j < |canonical| ==> canonical[j].id in names && names[canonical[j].id] == nodes[at[j]].id
    ensures forall d :: d in canonical[k].deps ==> d in names
    ensures nodes[at[k]].deps == Renamed(canonical[k].deps, names)
  {
    hide Wanted, Before, HasNode;
    assert DepsFollow(canonical, k, enabled) && DepsFollow(nodes, at[k], enabled);
    var before := Before(KeyOf(canonical[k]), enabled);
    if before.Some? {
      var j :| 0 <= j < |canonical| && KeyOf(canonical[j]) == before.value && canonical[k].deps == [canonical[j].id];
      var i :| 0 <= i < |nodes| && KeyOf(nodes[i]) == before.value && nodes[at[k]].deps == [nodes[i].id];
      assert at[j] == i;
    }
  }

  /** Two graphs with one node per piece of work are the same up to names. */
  lemma ShapedGraphsAgree(nodes: seq<Node>, canonical: seq<Node>, refs: seq<PostRef>, enabled: set<Action>)
    requires Shaped(nodes, refs, enabled) && Shaped(canonical, refs, enabled)
    ensures exists at, names :: SameUpToNames(nodes, canonical, at, names)
  {
    hide Wanted, Before, DepsFollow, HasNode, Renamed;
    var at := PlacesIn(nodes, canonical);
    KeyPlacesAreAll(nodes, canonical, refs, enabled);
    var names := Naming(nodes, canonical, at);
    forall k | 0 <= k < |canonical| ensures Disguised(canonical[k], nodes[at[k]], names) {
      DepsAgree(nodes, canonical, at, names, k, refs, enabled);
    }
    assert SameUpToNames(nodes, canonical, at, names);
  }

  lemma DisguiseKeepsShape(nodes: seq<Node>, canonical: seq<Node>, at: seq<nat>, names: map<NodeId, NodeId>,
                           refs: seq<PostRef>, enabled: set<Action>)
    requires Shaped(canonical, refs, enabled) && SameUpToNames(nodes, canonical, at, names)
    ensures Shaped(nodes, refs, enabled)
  {
    hide Wanted, Before;
    forall i | 0 <= i < |nodes| ensures DepsFollow(nodes, i, enabled) {
      assert i in at;
      var k :| 0 <= k < |at| && at[k] == i;
      assert DepsFollow(canonical, k, enabled) && Disguised(canonical[k], nodes[i], names);
      var before := Before(KeyOf(canonical[k]), enabled);
      if before.Some? {
        var j :| 0 <= j < |canonical| && KeyOf(canonical[j]) == before.value && canonical[k].deps == [canonical[j].id];
        assert Disguised(canonical[j], nodes[at[j]], names);
        assert canonical[k].deps[0] == canonical[j].id;
        assert nodes[i].deps == [nodes[at[j]].id];
      }
    }
    DisguiseKeepsKeys(nodes, canonical, at, names, refs, enabled);
  }

  lemma DisguiseKeepsKeys(nodes: seq<Node>, canonical: seq<Node>, at: seq<nat>, names: map<NodeId, NodeId>,
                          refs: seq<PostRef>, enabled: set<Action>)
    requires Shaped(canonical, refs, enabled) && SameUpToNames(nodes, canonical, at, names)
    ensures DistinctIds(nodes)
    ensures forall i :: 0 <= i < |nodes| ==>
              Wanted(KeyOf(nodes[i]), refs, enabled) && nodes[i].agent == AgentFor(nodes[i].action)
    ensures forall i, j :: 0 <= i < j < |nodes| ==> KeyOf(nodes[i]) != KeyOf(nodes[j])
    ensures forall key :: Wanted(key, refs, enabled) ==> HasNode(nodes, key)
  {
    hide Wanted, DepsFollow;
    forall i | 0 <= i < |nodes|
      ensures Wanted(KeyOf(nodes[i]), refs, enabled) && nodes[i].agent == AgentFor(nodes[i].action)
    {
      assert i in at;
      var k :| 0 <= k < |at| && at[k] == i;
      assert Disguised(canonical[k], nodes[i], names);
    }
    forall i, j | 0 <= i < j < |nodes|
      ensures KeyOf(nodes[i]) != KeyOf(nodes[j]) && nodes[i].id != nodes[j].id
    {
      assert i in at;
      var k :| 0 <= k < |at| && at[k] == i;
      assert j in at;
      var l :| 0 <= l < |at| && at[l] == j;
      assert Disguised(canonical[k], nodes[i], names) && Disguised(canonical[l], nodes[j], names);
    }
    forall key | Wanted(key, refs, enabled) ensures HasNode(nodes, key) {
      assert HasNode(canonical, key);
      var k := Find(canonical, key);
      assert Disguised(canonical[k], nodes[at[k]], names);
      assert KeyOf(nodes[at[k]]) == key;
    }
  }
}
