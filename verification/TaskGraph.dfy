/** Plan graphs (packages/shared/src/task-graph.ts): the nodes the Manager proposes, the canonical
    graph it is asked for, and what nodeIssues reports. */
module TaskGraph {
  import opened Options
  import Kahn

  datatype Action = Strategy | Write | Direct | Adapt | Qa
  datatype Agent = Strategist | Copywriter | VisualDirector | Adapter | Manager

  type NodeId = string
  type PostRef = string

  datatype Node = Node(
    id: NodeId, agent: Agent, action: Action, postRef: Option<PostRef>,
    deps: seq<NodeId>, instructions: Option<string>)

  /** ACTION_AGENT */
  function AgentFor(action: Action): Agent {
    match action
    case Strategy => Strategist
    case Write => Copywriter
    case Direct => VisualDirector
    case Adapt => Adapter
    case Qa => Manager
  }

  /** PER_POST_ACTIONS: the actions that run once per post, chained in this order. */
  const PER_POST_ACTIONS := [Write, Direct, Adapt, Qa]

  function Enabled(order: seq<Action>, enabled: set<Action>): (actions: seq<Action>)
    ensures |actions| <= |order|
    ensures forall a :: a in actions <==> a in order && a in enabled
  {
    if order == [] then []
    else (if order[0] in enabled then [order[0]] else []) + Enabled(order[1..], enabled)
  }

  /** orderPipelineActions without `strategy`: the enabled per-post actions in pipeline order. */
  function PerPost(enabled: set<Action>): (actions: seq<Action>)
    ensures |actions| <= 4
    ensures forall a :: a in actions <==> a in enabled && a != Strategy
  {
    assert forall a: Action :: a in PER_POST_ACTIONS <==> a != Strategy by {
      assert PER_POST_ACTIONS[0] == Write && PER_POST_ACTIONS[1] == Direct;
      assert PER_POST_ACTIONS[2] == Adapt && PER_POST_ACTIONS[3] == Qa;
    }
    Enabled(PER_POST_ACTIONS, enabled)
  }

  lemma {:induction false} EnabledDistinct(order: seq<Action>, enabled: set<Action>)
    requires Kahn.Distinct(order)
    ensures Kahn.Distinct(Enabled(order, enabled))
  {
    if order != [] {
      EnabledDistinct(order[1..], enabled);
      var rest := Enabled(order[1..], enabled);
      assert order[0] !in order[1..];
      assert order[0] !in rest;
      assert Kahn.Distinct([order[0]] + rest);
      assert [] + rest == rest;
    }
  }

  // ---------------------------------------------------------------- the canonical graph

  function Digits(n: nat): (s: string)
    ensures |s| > 0
  {
    var digit := ['0', '1', '2', '3', '4', '5', '6', '7', '8', '9'][n % 10];
    if n < 10 then [digit] else Digits(n / 10) + [digit]
  }

  /** The id of the k-th node. */
  function IdOf(k: nat): NodeId {
    "n" + Digits(k)
  }

  lemma {:induction false} DigitsInjective(a: nat, b: nat)
    requires Digits(a) == Digits(b)
    ensures a == b
    decreases a
  {
    var x, y := Digits(a), Digits(b);
    assert x[|x| - 1] == y[|y| - 1];
    if a >= 10 && b >= 10 {
      assert x[..|x| - 1] == Digits(a / 10) && y[..|y| - 1] == Digits(b / 10);
      DigitsInjective(a / 10, b / 10);
    }
  }

  lemma IdsInjective(a: nat, b: nat)
    requires IdOf(a) == IdOf(b)
    ensures a == b
  {
    assert IdOf(a)[1..] == Digits(a) && IdOf(b)[1..] == Digits(b);
    DigitsInjective(a, b);
  }

  /** A post's nodes from action k on, the first of them with number `next`. */
  function Chain(ref: PostRef, actions: seq<Action>, next: nat, upstream: Option<NodeId>): (nodes: seq<Node>)
    ensures |nodes| == |actions|
  {
    if actions == [] then []
    else [Node(IdOf(next), AgentFor(actions[0]), actions[0], Some(ref),
               if upstream.Some? then [upstream.value] else [], None)]
         + Chain(ref, actions[1..], next + 1, Some(IdOf(next)))
  }

  function Chains(refs: seq<PostRef>, actions: seq<Action>, next: nat, strategy: Option<NodeId>): seq<Node> {
    if refs == [] then []
    else Chain(refs[0], actions, next, strategy) + Chains(refs[1..], actions, next + |actions|, strategy)
  }

  function StrategyNodes(enabled: set<Action>): seq<Node> {
    if Strategy in enabled then [Node(IdOf(1), Strategist, Strategy, None, [], None)] else []
  }

  function CanonicalGraph(refs: seq<PostRef>, enabled: set<Action>): seq<Node> {
    if Strategy in enabled
    then StrategyNodes(enabled) + Chains(refs, PerPost(enabled), 2, Some(IdOf(1)))
    else Chains(refs, PerPost(enabled), 1, None)
  }

  // ---------------------------------------------------------------- what nodeIssues reports

  datatype Issue =
    | TooManyNodes(nodes: nat, limit: nat)
    | IdUsedTwice(node: nat)
    | WrongAgent(node: nat)
    | NotEnabled(node: nat)
    | StrategyNamesPost(node: nat)
    | NamesNoPost(node: nat)
    | UnknownPost(node: nat)
    | DependsOnItself(node: nat, dep: nat)
    | UnknownDep(node: nat, dep: nat)
    | DepListedTwice(node: nat, dep: nat)
    | SeveralStrategies
    | NoStrategy
    | ActionMissing(ref: PostRef, action: Action)
    | ActionRepeated(ref: PostRef, action: Action, ids: seq<NodeId>)
    | WrongUpstream(node: nat)
    | Cycle(stuck: seq<NodeId>)

  predicate IsId(nodes: seq<Node>, id: NodeId) {
    exists i :: 0 <= i < |nodes| && nodes[i].id == id
  }

  predicate UsedBefore(nodes: seq<Node>, i: nat)
    requires i < |nodes|
  {
    exists k :: 0 <= k < i && nodes[k].id == nodes[i].id
  }

  function IdIssues(nodes: seq<Node>, upTo: nat): seq<Issue>
    requires upTo <= |nodes|
  {
    if upTo == 0 then []
    else IdIssues(nodes, upTo - 1) + (if UsedBefore(nodes, upTo - 1) then [IdUsedTwice(upTo - 1)] else [])
  }

  function DepIssues(nodes: seq<Node>, i: nat, upTo: nat): seq<Issue>
    requires i < |nodes| && upTo <= |nodes[i].deps|
    decreases upTo
  {
    if upTo == 0 then []
    else
      var j, deps := upTo - 1, nodes[i].deps;
      DepIssues(nodes, i, j)
      + (if deps[j] == nodes[i].id then [DependsOnItself(i, j)]
         else if !IsId(nodes, deps[j]) then [UnknownDep(i, j)]
         else if deps[j] in deps[..j] then [DepListedTwice(i, j)]
         else [])
  }

  function PostIssue(node: Node, i: nat, refs: seq<PostRef>): seq<Issue> {
    if node.action == Strategy then (if node.postRef.Some? then [StrategyNamesPost(i)] else [])
    else if node.postRef.None? then [NamesNoPost(i)]
    else if node.postRef.value !in refs then [UnknownPost(i)]
    else []
  }

  function NodeIssuesUpTo(nodes: seq<Node>, refs: seq<PostRef>, enabled: set<Action>, upTo: nat): seq<Issue>
    requires upTo <= |nodes|
  {
    if upTo == 0 then []
    else
      var i := upTo - 1;
      NodeIssuesUpTo(nodes, refs, enabled, i)
      + (if nodes[i].agent != AgentFor(nodes[i].action) then [WrongAgent(i)] else [])
      + (if nodes[i].action !in enabled then [NotEnabled(i)] else [])
      + PostIssue(nodes[i], i, refs)
      + DepIssues(nodes, i, |nodes[i].deps|)
  }

  /** The places of the nodes that pass a test, in order (Array.filter). */
  function Where(nodes: seq<Node>, test: Node -> bool, upTo: nat): (at: seq<nat>)
    requires upTo <= |nodes|
    ensures forall i :: i in at <==> 0 <= i < upTo && test(nodes[i])
    ensures forall i, j :: 0 <= i < j < |at| ==> at[i] < at[j]
    ensures forall k :: 0 <= k < |at| ==> at[k] < upTo
  {
    if upTo == 0 then []
    else
      var rest := Where(nodes, test, upTo - 1);
      assert forall i :: 0 <= i < |rest| ==> rest[i] in rest;
      if test(nodes[upTo - 1]) then rest + [upTo - 1] else rest
  }

  /** The nodes that carry out one action on one post. */
  function Matches(nodes: seq<Node>, action: Action, ref: PostRef): (at: seq<nat>)
    ensures forall i :: i in at <==> 0 <= i < |nodes| && nodes[i].action == action && nodes[i].postRef == Some(ref)
    ensures forall i, j :: 0 <= i < j < |at| ==> at[i] < at[j]
    ensures forall k :: 0 <= k < |at| ==> at[k] < |nodes|
  {
    Where(nodes, (n: Node) => n.action == action && n.postRef == Some(ref), |nodes|)
  }

  function StrategyIndices(nodes: seq<Node>): (at: seq<nat>)
    ensures forall i :: i in at <==> 0 <= i < |nodes| && nodes[i].action == Strategy
    ensures forall i, j :: 0 <= i < j < |at| ==> at[i] < at[j]
    ensures forall k :: 0 <= k < |at| ==> at[k] < |nodes|
  {
    Where(nodes, (n: Node) => n.action == Strategy, |nodes|)
  }

  function StrategyIssues(nodes: seq<Node>, enabled: set<Action>): seq<Issue> {
    var found := |StrategyIndices(nodes)|;
    if found > 1 then [SeveralStrategies]
    else if found == 0 && Strategy in enabled then [NoStrategy]
    else []
  }

  /** What a post's first node must depend on: nothing, the strategy node, or unknown for now. */
  datatype Upstream = Nothing | On(id: NodeId) | Unsure

  function FirstUpstream(nodes: seq<Node>, enabled: set<Action>): Upstream {
    var found := StrategyIndices(nodes);
    if Strategy !in enabled then Nothing
    else if |found| == 1 then On(nodes[found[0]].id)
    else Unsure
  }

  function Ids(nodes: seq<Node>, at: seq<nat>): seq<NodeId>
    requires forall k :: 0 <= k < |at| ==> at[k] < |nodes|
  {
    seq(|at|, k requires 0 <= k < |at| => nodes[at[k]].id)
  }

  /** The first loop over a post's actions: those without exactly one node. */
  function MatchIssues(nodes: seq<Node>, ref: PostRef, actions: seq<Action>, upTo: nat): seq<Issue>
    requires upTo <= |actions|
  {
    if upTo == 0 then []
    else
      var found := Matches(nodes, actions[upTo - 1], ref);
      MatchIssues(nodes, ref, actions, upTo - 1)
      + (if |found| == 0 then [ActionMissing(ref, actions[upTo - 1])]
         else if |found| > 1 then [ActionRepeated(ref, actions[upTo - 1], Ids(nodes, found))]
         else [])
  }

  function UpstreamOf(nodes: seq<Node>, ref: PostRef, actions: seq<Action>, k: nat, first: Upstream): Upstream
    requires k < |actions|
  {
    if k == 0 then first
    else
      var found := Matches(nodes, actions[k - 1], ref);
      if |found| == 1 then On(nodes[found[0]].id) else Unsure
  }

  predicate DependsExactlyOn(node: Node, upstream: Upstream) {
    match upstream
    case Unsure => true
    case Nothing => node.deps == []
    case On(id) => node.deps != [] && forall d :: d in node.deps ==> d == id
  }

  /** The second loop: each such node depends on exactly the one before it. */
  function LinkIssues(nodes: seq<Node>, ref: PostRef, actions: seq<Action>, first: Upstream, upTo: nat): seq<Issue>
    requires upTo <= |actions|
  {
    if upTo == 0 then []
    else
      var k := upTo - 1;
      var found := Matches(nodes, actions[k], ref);
      LinkIssues(nodes, ref, actions, first, k)
      + (if |found| == 1 && !DependsExactlyOn(nodes[found[0]], UpstreamOf(nodes, ref, actions, k, first))
         then [WrongUpstream(found[0])] else [])
  }

  function ChainIssues(nodes: seq<Node>, refs: seq<PostRef>, actions: seq<Action>, first: Upstream, upTo: nat): seq<Issue>
    requires upTo <= |refs|
  {
    if upTo == 0 then []
    else
      ChainIssues(nodes, refs, actions, first, upTo - 1)
      + MatchIssues(nodes, refs[upTo - 1], actions, |actions|)
      + LinkIssues(nodes, refs[upTo - 1], actions, first, |actions|)
  }

  // ---------------------------------------------------------------- cycles

  /** The first node with an id is the one the id names. */
  function NodeOf(nodes: seq<Node>, id: NodeId): Node
    requires IsId(nodes, id)
  {
    if nodes[0].id == id then nodes[0] else NodeOf(nodes[1..], id)
  }

  /** What each id depends on. */
  function DepsById(nodes: seq<Node>): map<NodeId, seq<NodeId>> {
    map id | id in (set n | n in nodes :: n.id) && IsId(nodes, id) :: NodeOf(nodes, id).deps
  }

  /** The known edges between the nodes. */
  function Edges(nodes: seq<Node>): map<NodeId, set<NodeId>> {
    Kahn.Known(DepsById(nodes))
  }

  ghost predicate Acyclic(nodes: seq<Node>) {
    Kahn.Acyclic(Edges(nodes))
  }

  /** Everything nodeIssues reports, except that the cycle is described by what it must be. */
  function LocalIssues(nodes: seq<Node>, refs: seq<PostRef>, enabled: set<Action>): seq<Issue> {
    (if |nodes| > 4 * |refs| + 1 then [TooManyNodes(|nodes|, 4 * |refs| + 1)] else [])
    + IdIssues(nodes, |nodes|)
    + NodeIssuesUpTo(nodes, refs, enabled, |nodes|)
    + StrategyIssues(nodes, enabled)
    + ChainIssues(nodes, refs, PerPost(enabled), FirstUpstream(nodes, enabled), |refs|)
  }

  ghost predicate Accepted(nodes: seq<Node>, refs: seq<PostRef>, enabled: set<Action>) {
    LocalIssues(nodes, refs, enabled) == [] && Acyclic(nodes)
  }
}
