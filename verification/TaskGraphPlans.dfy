/** What the Manager is told a plan must be, said on the nodes alone, and that nodeIssues accepts
    exactly such plans. */
module TaskGraphPlans {
  import opened Options
  import opened TaskGraph
  import opened TaskGraphShape
  import opened TaskGraphAcceptance
  import opened Kahn

  /** Each kind of work belongs to one agent, and each agent has one kind of work. */
  predicate ByItsAgent(node: Node) {
    && (node.agent == Strategist <==> node.action == Strategy)
    && (node.agent == Copywriter <==> node.action == Write)
    && (node.agent == VisualDirector <==> node.action == Direct)
    && (node.agent == Adapter <==> node.action == Adapt)
    && (node.agent == Manager <==> node.action == Qa)
  }

  /** The strategy is for the whole plan; any other work is on one of its posts. */
  predicate OnItsPost(node: Node, refs: seq<PostRef>) {
    if node.action == Strategy then node.postRef == None
    else exists r :: 0 <= r < |refs| && node.postRef == Some(refs[r])
  }

  predicate IsFor(node: Node, action: Action, post: Option<PostRef>) {
    node.action == action && node.postRef == post
  }

  ghost predicate HasOne(nodes: seq<Node>, action: Action, post: Option<PostRef>) {
    && (exists i :: 0 <= i < |nodes| && IsFor(nodes[i], action, post))
    && (forall i, j :: 0 <= i < j < |nodes| ==> !(IsFor(nodes[i], action, post) && IsFor(nodes[j], action, post)))
  }

  /** Node i waits for one node and no other: the one that does `action` on `post`. */
  ghost predicate WaitsOnlyFor(nodes: seq<Node>, i: nat, action: Action, post: Option<PostRef>)
    requires i < |nodes|
  {
    exists j :: 0 <= j < |nodes| && IsFor(nodes[j], action, post) && nodes[i].deps == [nodes[j].id]
  }

  /** A post's first node waits for the strategy, when the pipeline has one. */
  ghost predicate WaitsForTheStrategy(nodes: seq<Node>, i: nat, enabled: set<Action>)
    requires i < |nodes|
  {
    if Strategy in enabled then WaitsOnlyFor(nodes, i, Strategy, None) else nodes[i].deps == []
  }

  /** Write, direct, adapt, qa: each waits for the nearest of those before it that is enabled. */
  ghost predicate WaitsItsTurn(nodes: seq<Node>, i: nat, enabled: set<Action>)
    requires i < |nodes|
  {
    var post := nodes[i].postRef;
    match nodes[i].action
    case Strategy => nodes[i].deps == []
    case Write => WaitsForTheStrategy(nodes, i, enabled)
    case Direct =>
      if Write in enabled then WaitsOnlyFor(nodes, i, Write, post)
      else WaitsForTheStrategy(nodes, i, enabled)
    case Adapt =>
      if Direct in enabled then WaitsOnlyFor(nodes, i, Direct, post)
      else if Write in enabled then WaitsOnlyFor(nodes, i, Write, post)
      else WaitsForTheStrategy(nodes, i, enabled)
    case Qa =>
      if Adapt in enabled then WaitsOnlyFor(nodes, i, Adapt, post)
      else if Direct in enabled then WaitsOnlyFor(nodes, i, Direct, post)
      else if Write in enabled then WaitsOnlyFor(nodes, i, Write, post)
      else WaitsForTheStrategy(nodes, i, enabled)
  }

  /** One node per enabled piece of work and no other, each by its agent, each in its turn. */
  ghost predicate RightPlan(nodes: seq<Node>, refs: seq<PostRef>, enabled: set<Action>) {
    && (forall i, j :: 0 <= i < j < |nodes| ==> nodes[i].id != nodes[j].id)
    && (forall i :: 0 <= i < |nodes| ==>
          && ByItsAgent(nodes[i])
          && nodes[i].action in enabled
          && OnItsPost(nodes[i], refs)
          && WaitsItsTurn(nodes, i, enabled))
    && (Strategy in enabled ==> HasOne(nodes, Strategy, None))
    && (forall r, a :: 0 <= r < |refs| && a in enabled && a != Strategy ==> HasOne(nodes, a, Some(refs[r])))
  }

  // ---------------------------------------------------------------- the shape, read on the nodes

  lemma AgentsAgree(node: Node)
    ensures ByItsAgent(node) <==> node.agent == AgentFor(node.action)
  {
  }

  lemma PostsAgree(node: Node, refs: seq<PostRef>, enabled: set<Action>)
    ensures Wanted(KeyOf(node), refs, enabled) <==> node.action in enabled && OnItsPost(node, refs)
  {
  }

  function Only(action: Action, enabled: set<Action>): (actions: seq<Action>)
    ensures forall a :: a in actions <==> a == action && a in enabled
  {
    if action in enabled then [action] else []
  }

  lemma EnabledStep(action: Action, rest: seq<Action>, enabled: set<Action>)
    ensures Enabled([action] + rest, enabled) == Only(action, enabled) + Enabled(rest, enabled)
  {
    assert ([action] + rest)[1..] == rest;
  }

  /** The enabled per-post actions, one by one. */
  lemma PerPostIs(enabled: set<Action>)
    ensures PerPost(enabled)
         == Only(Write, enabled) + (Only(Direct, enabled) + (Only(Adapt, enabled) + Only(Qa, enabled)))
  {
    hide Only, Enabled;
    EnabledStep(Write, [Direct, Adapt, Qa], enabled);
    EnabledStep(Direct, [Adapt, Qa], enabled);
    EnabledStep(Adapt, [Qa], enabled);
    EnabledStep(Qa, [], enabled);
    NothingEnabled(enabled);
    assert PER_POST_ACTIONS == [Write] + [Direct, Adapt, Qa];
    assert [Direct, Adapt, Qa] == [Direct] + [Adapt, Qa] && [Adapt, Qa] == [Adapt] + [Qa] && [Qa] == [Qa] + [];
  }

  lemma NothingEnabled(enabled: set<Action>)
    ensures Enabled([], enabled) == []
  {
  }

  function NearestBefore(action: Action, enabled: set<Action>): Option<Action> {
    if action == Qa && Adapt in enabled then Some(Adapt)
    else if action in {Adapt, Qa} && Direct in enabled then Some(Direct)
    else if action in {Direct, Adapt, Qa} && Write in enabled then Some(Write)
    else if action != Strategy && Strategy in enabled then Some(Strategy)
    else None
  }

  lemma {:induction false} PlaceAfter(before: seq<Action>, action: Action, after: seq<Action>)
    requires action !in before
    ensures PlaceOf(before + ([action] + after), action) == |before|
  {
    if before != [] {
      PlaceAfter(before[1..], action, after);
      assert (before + ([action] + after))[1..] == before[1..] + ([action] + after);
    }
  }

  /** The enabled actions before one, the last of them being the nearest. */
  function AllBefore(action: Action, enabled: set<Action>): seq<Action> {
    match action
    case Strategy | Write => []
    case Direct => Only(Write, enabled)
    case Adapt => Only(Write, enabled) + Only(Direct, enabled)
    case Qa => Only(Write, enabled) + Only(Direct, enabled) + Only(Adapt, enabled)
  }

  function AllAfter(action: Action, enabled: set<Action>): seq<Action> {
    match action
    case Strategy | Qa => []
    case Adapt => Only(Qa, enabled)
    case Direct => Only(Adapt, enabled) + Only(Qa, enabled)
    case Write => Only(Direct, enabled) + (Only(Adapt, enabled) + Only(Qa, enabled))
  }

  lemma OnlyIs(action: Action, enabled: set<Action>)
    requires action in enabled
    ensures Only(action, enabled) == [action]
  {
  }

  lemma Regroup(a: seq<Action>, b: seq<Action>, c: seq<Action>)
    ensures a + (b + c) == (a + b) + c
  {
  }

  lemma PerPostAround(action: Action, enabled: set<Action>)
    requires action in enabled && action != Strategy
    ensures action !in AllBefore(action, enabled)
    ensures PerPost(enabled) == AllBefore(action, enabled) + ([action] + AllAfter(action, enabled))
  {
    hide PerPost, Only;
    PerPostIs(enabled);
    OnlyIs(action, enabled);
    var w, d, a, q := Only(Write, enabled), Only(Direct, enabled), Only(Adapt, enabled), Only(Qa, enabled);
    match action
    case Write =>
    case Direct =>
    case Adapt => Regroup(w, d, a + q);
    case Qa =>
      Regroup(w + d, a, q);
      Regroup(w, d, a + q);
  }

  lemma LastBefore(action: Action, enabled: set<Action>)
    requires action != Strategy
    ensures var before := AllBefore(action, enabled);
            && (before != [] ==> NearestBefore(action, enabled) == Some(before[|before| - 1]))
            && (before == [] ==> NearestBefore(action, enabled) == if Strategy in enabled then Some(Strategy) else None)
  {
  }

  lemma BeforeIs(key: Key, enabled: set<Action>)
    requires key.action in enabled
    ensures Before(key, enabled) ==
      match NearestBefore(key.action, enabled)
      case None => None
      case Some(a) => Some(Key(a, if a == Strategy then None else key.postRef))
  {
    hide PerPost, AllBefore, AllAfter, NearestBefore, PlaceOf;
    if key.action == Strategy {
      NothingBeforeTheStrategy(enabled);
    } else {
      var before := AllBefore(key.action, enabled);
      PerPostAround(key.action, enabled);
      PlaceAfter(before, key.action, AllAfter(key.action, enabled));
      LastBefore(key.action, enabled);
      if before != [] {
        assert PerPost(enabled)[|before| - 1] == before[|before| - 1];
        assert before[|before| - 1] in PerPost(enabled);
      }
    }
  }

  lemma NothingBeforeTheStrategy(enabled: set<Action>)
    ensures NearestBefore(Strategy, enabled) == None
  {
  }

  lemma TurnsAgree(nodes: seq<Node>, i: nat, enabled: set<Action>)
    requires i < |nodes| && nodes[i].action in enabled
    ensures DepsFollow(nodes, i, enabled) <==> WaitsItsTurn(nodes, i, enabled)
  {
    hide Before, PerPost;
    BeforeIs(KeyOf(nodes[i]), enabled);
    forall j, a, post | 0 <= j < |nodes| ensures KeyOf(nodes[j]) == Key(a, post) <==> IsFor(nodes[j], a, post) {
    }
  }

  lemma KeysGiveOnes(nodes: seq<Node>, refs: seq<PostRef>, enabled: set<Action>, action: Action, post: Option<PostRef>)
    requires Shaped(nodes, refs, enabled) && Wanted(Key(action, post), refs, enabled)
    ensures HasOne(nodes, action, post)
  {
    hide DepsFollow;
    assert HasNode(nodes, Key(action, post));
    forall i | 0 <= i < |nodes| ensures KeyOf(nodes[i]) == Key(action, post) <==> IsFor(nodes[i], action, post) {
    }
  }

  lemma RightPlanHasOne(nodes: seq<Node>, refs: seq<PostRef>, enabled: set<Action>, key: Key)
    requires RightPlan(nodes, refs, enabled) && Wanted(key, refs, enabled)
    ensures HasOne(nodes, key.action, key.postRef)
  {
    hide ByItsAgent, OnItsPost, WaitsItsTurn, HasOne;
  }

  lemma StrategyIsWanted(refs: seq<PostRef>, enabled: set<Action>)
    requires Strategy in enabled
    ensures Wanted(Key(Strategy, None), refs, enabled)
  {
  }

  lemma PostIsWanted(refs: seq<PostRef>, enabled: set<Action>, r: nat, action: Action)
    requires r < |refs| && action in enabled && action != Strategy
    ensures Wanted(Key(action, Some(refs[r])), refs, enabled)
  {
  }

  lemma ShapedIsRight(nodes: seq<Node>, refs: seq<PostRef>, enabled: set<Action>)
    requires Shaped(nodes, refs, enabled)
    ensures RightPlan(nodes, refs, enabled)
  {
    hide Wanted, HasNode, DepsFollow, HasOne, WaitsItsTurn, ByItsAgent, OnItsPost;
    forall i | 0 <= i < |nodes|
      ensures ByItsAgent(nodes[i]) && nodes[i].action in enabled && OnItsPost(nodes[i], refs)
      ensures WaitsItsTurn(nodes, i, enabled)
    {
      AgentsAgree(nodes[i]);
      PostsAgree(nodes[i], refs, enabled);
      TurnsAgree(nodes, i, enabled);
    }
    if Strategy in enabled {
      StrategyIsWanted(refs, enabled);
      KeysGiveOnes(nodes, refs, enabled, Strategy, None);
    }
    forall r, a | 0 <= r < |refs| && a in enabled && a != Strategy ensures HasOne(nodes, a, Some(refs[r])) {
      PostIsWanted(refs, enabled, r, a);
      KeysGiveOnes(nodes, refs, enabled, a, Some(refs[r]));
    }
  }

  lemma RightIsShaped(nodes: seq<Node>, refs: seq<PostRef>, enabled: set<Action>)
    requires RightPlan(nodes, refs, enabled)
    ensures Shaped(nodes, refs, enabled)
  {
    hide Wanted, DepsFollow, HasOne, WaitsItsTurn, ByItsAgent, OnItsPost;
    forall i | 0 <= i < |nodes|
      ensures Wanted(KeyOf(nodes[i]), refs, enabled) && nodes[i].agent == AgentFor(nodes[i].action)
      ensures DepsFollow(nodes, i, enabled)
    {
      AgentsAgree(nodes[i]);
      PostsAgree(nodes[i], refs, enabled);
      TurnsAgree(nodes, i, enabled);
    }
    forall key | Wanted(key, refs, enabled) ensures HasNode(nodes, key) {
      RightPlanHasOne(nodes, refs, enabled, key);
      OneIsThere(nodes, key);
    }
    forall i, j | 0 <= i < j < |nodes| ensures KeyOf(nodes[i]) != KeyOf(nodes[j]) {
      assert Wanted(KeyOf(nodes[i]), refs, enabled);
      RightPlanHasOne(nodes, refs, enabled, KeyOf(nodes[i]));
      OneIsAlone(nodes, KeyOf(nodes[i]), i, j);
    }
  }

  lemma OneIsThere(nodes: seq<Node>, key: Key)
    requires HasOne(nodes, key.action, key.postRef)
    ensures HasNode(nodes, key)
  {
    var i :| 0 <= i < |nodes| && IsFor(nodes[i], key.action, key.postRef);
    assert KeyOf(nodes[i]) == key;
  }

  lemma OneIsAlone(nodes: seq<Node>, key: Key, i: nat, j: nat)
    requires HasOne(nodes, key.action, key.postRef) && i < j < |nodes| && KeyOf(nodes[i]) == key
    ensures KeyOf(nodes[j]) != key
  {
    assert IsFor(nodes[i], key.action, key.postRef);
    assert !IsFor(nodes[j], key.action, key.postRef);
  }

  // ---------------------------------------------------------------- the theorem

  /** nodeIssues reports nothing exactly for the right plans. */
  lemma AcceptsExactlyTheRightPlans(nodes: seq<Node>, refs: seq<PostRef>, enabled: set<Action>)
    requires Distinct(refs)
    ensures Accepted(nodes, refs, enabled) <==> RightPlan(nodes, refs, enabled)
  {
    hide Accepted, RightPlan, Shaped;
    if Accepted(nodes, refs, enabled) {
      AcceptedIsShaped(nodes, refs, enabled);
      ShapedIsRight(nodes, refs, enabled);
    }
    if RightPlan(nodes, refs, enabled) {
      RightIsShaped(nodes, refs, enabled);
      ShapedIsAccepted(nodes, refs, enabled);
    }
  }

  /** And canonicalGraph is one: there is a right plan for every brief, however short its pipeline. */
  lemma TheCanonicalGraphIsRight(refs: seq<PostRef>, enabled: set<Action>)
    requires Distinct(refs)
    ensures RightPlan(CanonicalGraph(refs, enabled), refs, enabled)
  {
    hide Shaped, RightPlan, CanonicalGraph;
    CanonicalIsShaped(refs, enabled);
    ShapedIsRight(CanonicalGraph(refs, enabled), refs, enabled);
  }
}
