/** What each line of nodeIssues says of the plan: every problem is reported, and nothing else. */
module TaskGraphIssues {
  import opened Options
  import opened TaskGraph
  import opened TaskGraphShape
  import opened TaskGraphPlans
  import opened Kahn

  predicate Does(nodes: seq<Node>, i: nat, action: Action, ref: PostRef) {
    i < |nodes| && IsFor(nodes[i], action, Some(ref))
  }

  predicate IsAlone(nodes: seq<Node>, i: nat, action: Action, ref: PostRef) {
    Does(nodes, i, action, ref) && forall k :: 0 <= k < |nodes| && k != i ==> !Does(nodes, k, action, ref)
  }

  predicate IsStrategy(nodes: seq<Node>, i: nat) {
    i < |nodes| && nodes[i].action == Strategy
  }

  /** The node waits for node j and nothing else, however often it lists it. */
  predicate WaitsJustFor(nodes: seq<Node>, i: nat, j: nat)
    requires i < |nodes| && j < |nodes|
  {
    nodes[i].deps != [] && forall d :: d in nodes[i].deps ==> d == nodes[j].id
  }

  /** Node j is the one node of the strategy, or of the post's action. */
  ghost predicate IsUpstream(nodes: seq<Node>, action: Action, ref: PostRef, j: nat) {
    if action == Strategy then IsStrategy(nodes, j) && forall k :: 0 <= k < |nodes| && k != j ==> !IsStrategy(nodes, k)
    else IsAlone(nodes, j, action, ref)
  }

  /** What node i of a post should wait for is known, and it waits for something else. */
  ghost predicate WaitsWrongly(nodes: seq<Node>, enabled: set<Action>, i: nat, action: Action, ref: PostRef)
    requires i < |nodes|
  {
    match NearestBefore(action, enabled)
    case None => nodes[i].deps != []
    case Some(before) => exists j: nat :: j < |nodes| && IsUpstream(nodes, before, ref, j) && !WaitsJustFor(nodes, i, j)
  }

  /** The problem is there. */
  ghost predicate Holds(nodes: seq<Node>, refs: seq<PostRef>, enabled: set<Action>, issue: Issue) {
    match issue
    case TooManyNodes(n, limit) => n == |nodes| && limit == 4 * |refs| + 1 && n > limit
    case IdUsedTwice(i) => i < |nodes| && exists k :: 0 <= k < i && nodes[k].id == nodes[i].id
    case WrongAgent(i) => i < |nodes| && !ByItsAgent(nodes[i])
    case NotEnabled(i) => i < |nodes| && nodes[i].action !in enabled
    case StrategyNamesPost(i) => IsStrategy(nodes, i) && nodes[i].postRef.Some?
    case NamesNoPost(i) => i < |nodes| && nodes[i].action != Strategy && nodes[i].postRef.None?
    case UnknownPost(i) => i < |nodes| && nodes[i].action != Strategy && nodes[i].postRef.Some? && nodes[i].postRef.value !in refs
    case DependsOnItself(i, j) => i < |nodes| && j < |nodes[i].deps| && nodes[i].deps[j] == nodes[i].id
    case UnknownDep(i, j) => i < |nodes| && j < |nodes[i].deps| && forall k :: 0 <= k < |nodes| ==> nodes[k].id != nodes[i].deps[j]
    case DepListedTwice(i, j) =>
      && i < |nodes| && j < |nodes[i].deps| && nodes[i].deps[j] != nodes[i].id
      && (exists k :: 0 <= k < |nodes| && nodes[k].id == nodes[i].deps[j]) && nodes[i].deps[j] in nodes[i].deps[..j]
    case SeveralStrategies => exists i, j :: 0 <= i < j && IsStrategy(nodes, i) && IsStrategy(nodes, j)
    case NoStrategy => Strategy in enabled && forall i: nat :: !IsStrategy(nodes, i)
    case ActionMissing(ref, action) => ref in refs && action in enabled && action != Strategy && forall i: nat :: !Does(nodes, i, action, ref)
    case ActionRepeated(ref, action, ids) =>
      && ref in refs && action in enabled && action != Strategy
      && (exists i, j :: 0 <= i < j && Does(nodes, i, action, ref) && Does(nodes, j, action, ref))
      && ids == Ids(nodes, Matches(nodes, action, ref))
    case WrongUpstream(i) =>
      && i < |nodes| && nodes[i].action != Strategy && nodes[i].action in enabled
      && nodes[i].postRef.Some? && nodes[i].postRef.value in refs
      && IsAlone(nodes, i, nodes[i].action, nodes[i].postRef.value)
      && WaitsWrongly(nodes, enabled, i, nodes[i].action, nodes[i].postRef.value)
    case Cycle(_) => false
  }

  // ---------------------------------------------------------------- the lists

  lemma {:induction false} IdIssuesAre(nodes: seq<Node>, upTo: nat, issue: Issue)
    requires upTo <= |nodes|
    ensures issue in IdIssues(nodes, upTo) <==> issue.IdUsedTwice? && issue.node < upTo && UsedBefore(nodes, issue.node)
  {
    if upTo > 0 {
      IdIssuesAre(nodes, upTo - 1, issue);
    }
  }

  predicate IsDepIssue(nodes: seq<Node>, i: nat, issue: Issue, upTo: nat)
    requires i < |nodes| && upTo <= |nodes[i].deps|
  {
    var deps := nodes[i].deps;
    && (issue.DependsOnItself? || issue.UnknownDep? || issue.DepListedTwice?)
    && issue.node == i && issue.dep < upTo
    && (issue.DependsOnItself? <==> deps[issue.dep] == nodes[i].id)
    && (issue.UnknownDep? <==> deps[issue.dep] != nodes[i].id && !IsId(nodes, deps[issue.dep]))
    && (issue.DepListedTwice? ==> deps[issue.dep] in deps[..issue.dep])
  }

  lemma {:induction false} DepIssuesAre(nodes: seq<Node>, i: nat, upTo: nat, issue: Issue)
    requires i < |nodes| && upTo <= |nodes[i].deps|
    ensures issue in DepIssues(nodes, i, upTo) <==> IsDepIssue(nodes, i, issue, upTo)
    decreases upTo
  {
    if upTo > 0 {
      DepIssuesAre(nodes, i, upTo - 1, issue);
    }
  }

  ghost predicate IsNodeIssue(nodes: seq<Node>, refs: seq<PostRef>, enabled: set<Action>, i: nat, issue: Issue)
    requires i < |nodes|
  {
    || (issue == WrongAgent(i) && nodes[i].agent != AgentFor(nodes[i].action))
    || (issue == NotEnabled(i) && nodes[i].action !in enabled)
    || issue in PostIssue(nodes[i], i, refs)
    || IsDepIssue(nodes, i, issue, |nodes[i].deps|)
  }

  lemma NothingYet(nodes: seq<Node>, refs: seq<PostRef>, actions: seq<Action>, first: Upstream, ref: PostRef, enabled: set<Action>)
    ensures NodeIssuesUpTo(nodes, refs, enabled, 0) == [] && ChainIssues(nodes, refs, actions, first, 0) == []
    ensures LinkIssues(nodes, ref, actions, first, 0) == []
  {
  }

  lemma LastNodeIssues(nodes: seq<Node>, refs: seq<PostRef>, enabled: set<Action>, i: nat, issue: Issue)
    requires i < |nodes|
    ensures issue in NodeIssuesUpTo(nodes, refs, enabled, i + 1)
       <==> issue in NodeIssuesUpTo(nodes, refs, enabled, i) || IsNodeIssue(nodes, refs, enabled, i, issue)
  {
    DepIssuesAre(nodes, i, |nodes[i].deps|, issue);
    hide IsDepIssue, PostIssue, DepIssues, AgentFor;
    var own := (if nodes[i].agent != AgentFor(nodes[i].action) then [WrongAgent(i)] else [])
             + (if nodes[i].action !in enabled then [NotEnabled(i)] else []);
    var rest := NodeIssuesUpTo(nodes, refs, enabled, i);
    var deps := DepIssues(nodes, i, |nodes[i].deps|);
    assert NodeIssuesUpTo(nodes, refs, enabled, i + 1) == rest + own + PostIssue(nodes[i], i, refs) + deps;
  }

  lemma {:induction false} NodeIssuesAre(nodes: seq<Node>, refs: seq<PostRef>, enabled: set<Action>, upTo: nat, issue: Issue)
    requires upTo <= |nodes|
    ensures issue in NodeIssuesUpTo(nodes, refs, enabled, upTo)
       <==> exists i :: 0 <= i < upTo && IsNodeIssue(nodes, refs, enabled, i, issue)
  {
    hide NodeIssuesUpTo, IsNodeIssue;
    if upTo > 0 {
      NodeIssuesAre(nodes, refs, enabled, upTo - 1, issue);
      LastNodeIssues(nodes, refs, enabled, upTo - 1, issue);
    } else {
      NothingYet(nodes, refs, [], Nothing, "", enabled);
    }
  }

  ghost predicate Rising(at: seq<nat>) {
    forall i, j :: 0 <= i < j < |at| ==> at[i] < at[j]
  }

  lemma CountIsNone(at: seq<nat>)
    ensures |at| == 0 <==> forall i :: i !in at
  {
    if |at| > 0 {
      assert at[0] in at;
    }
  }

  lemma CountIsOne(at: seq<nat>, i: nat)
    requires Rising(at) && i in at
    ensures |at| == 1 <==> forall k :: k in at ==> k == i
  {
    if |at| > 1 {
      assert at[0] in at && at[1] in at && at[0] < at[1];
    }
  }

  lemma CountIsMore(at: seq<nat>)
    requires Rising(at)
    ensures |at| > 1 <==> exists i, j :: i < j && i in at && j in at
  {
    if |at| > 1 {
      assert at[0] in at && at[1] in at && at[0] < at[1];
    }
    if |at| == 1 {
      CountIsOne(at, at[0]);
    }
  }

  lemma StrategyIssuesAre(nodes: seq<Node>, refs: seq<PostRef>, enabled: set<Action>, issue: Issue)
    ensures issue in StrategyIssues(nodes, enabled) <==> (issue.SeveralStrategies? || issue.NoStrategy?) && Holds(nodes, refs, enabled, issue)
  {
    var at := StrategyIndices(nodes);
    CountIsNone(at);
    CountIsMore(at);
    assert forall i: nat :: i in at <==> IsStrategy(nodes, i);
    hide StrategyIndices, IsStrategy, Rising;
  }

  predicate IsMatchIssue(nodes: seq<Node>, ref: PostRef, action: Action, issue: Issue) {
    var found := Matches(nodes, action, ref);
    (issue == ActionMissing(ref, action) && |found| == 0) || (issue == ActionRepeated(ref, action, Ids(nodes, found)) && |found| > 1)
  }

  lemma {:induction false} MatchIssuesAre(nodes: seq<Node>, ref: PostRef, actions: seq<Action>, upTo: nat, issue: Issue)
    requires upTo <= |actions|
    ensures issue in MatchIssues(nodes, ref, actions, upTo) <==> exists k :: 0 <= k < upTo && IsMatchIssue(nodes, ref, actions[k], issue)
  {
    if upTo > 0 {
      MatchIssuesAre(nodes, ref, actions, upTo - 1, issue);
      hide Ids, Matches;
      assert issue in MatchIssues(nodes, ref, actions, upTo)
        <==> issue in MatchIssues(nodes, ref, actions, upTo - 1) || IsMatchIssue(nodes, ref, actions[upTo - 1], issue);
    }
  }

  predicate IsLinkIssue(nodes: seq<Node>, ref: PostRef, actions: seq<Action>, k: nat, first: Upstream, issue: Issue)
    requires k < |actions|
  {
    var found := Matches(nodes, actions[k], ref);
    |found| == 1 && issue == WrongUpstream(found[0]) && !DependsExactlyOn(nodes[found[0]], UpstreamOf(nodes, ref, actions, k, first))
  }

  lemma LastLinkIssue(nodes: seq<Node>, ref: PostRef, actions: seq<Action>, first: Upstream, k: nat, issue: Issue)
    requires k < |actions|
    ensures issue in LinkIssues(nodes, ref, actions, first, k + 1)
       <==> issue in LinkIssues(nodes, ref, actions, first, k) || IsLinkIssue(nodes, ref, actions, k, first, issue)
  {
    hide DependsExactlyOn, UpstreamOf;
  }

  lemma {:induction false} LinkIssuesAre(nodes: seq<Node>, ref: PostRef, actions: seq<Action>, first: Upstream, upTo: nat, issue: Issue)
    requires upTo <= |actions|
    ensures issue in LinkIssues(nodes, ref, actions, first, upTo) <==> exists k :: 0 <= k < upTo && IsLinkIssue(nodes, ref, actions, k, first, issue)
  {
    hide LinkIssues, IsLinkIssue;
    if upTo > 0 {
      LinkIssuesAre(nodes, ref, actions, first, upTo - 1, issue);
      LastLinkIssue(nodes, ref, actions, first, upTo - 1, issue);
    } else {
      NothingYet(nodes, [], actions, first, ref, {});
    }
  }

  ghost predicate IsChainIssue(nodes: seq<Node>, ref: PostRef, actions: seq<Action>, first: Upstream, issue: Issue) {
    || (exists k :: 0 <= k < |actions| && IsMatchIssue(nodes, ref, actions[k], issue))
    || (exists k :: 0 <= k < |actions| && IsLinkIssue(nodes, ref, actions, k, first, issue))
  }

  lemma LastChainIssues(nodes: seq<Node>, refs: seq<PostRef>, actions: seq<Action>, first: Upstream, r: nat, issue: Issue)
    requires r < |refs|
    ensures issue in ChainIssues(nodes, refs, actions, first, r + 1)
       <==> issue in ChainIssues(nodes, refs, actions, first, r) || IsChainIssue(nodes, refs[r], actions, first, issue)
  {
    MatchIssuesAre(nodes, refs[r], actions, |actions|, issue);
    LinkIssuesAre(nodes, refs[r], actions, first, |actions|, issue);
    hide IsMatchIssue, IsLinkIssue, MatchIssues, LinkIssues;
  }

  lemma {:induction false} ChainIssuesAre(
      nodes: seq<Node>, refs: seq<PostRef>, actions: seq<Action>, first: Upstream, upTo: nat, issue: Issue)
    requires upTo <= |refs|
    ensures issue in ChainIssues(nodes, refs, actions, first, upTo)
       <==> exists r :: 0 <= r < upTo && IsChainIssue(nodes, refs[r], actions, first, issue)
  {
    hide ChainIssues, IsChainIssue;
    if upTo > 0 {
      ChainIssuesAre(nodes, refs, actions, first, upTo - 1, issue);
      LastChainIssues(nodes, refs, actions, first, upTo - 1, issue);
    } else {
      NothingYet(nodes, refs, actions, first, "", {});
    }
  }

  // ---------------------------------------------------------------- what they mean

  lemma MatchesAreThose(nodes: seq<Node>, action: Action, ref: PostRef)
    ensures Rising(Matches(nodes, action, ref)) && forall i: nat :: i in Matches(nodes, action, ref) <==> Does(nodes, i, action, ref)
  {
  }

  lemma AloneIsOne(nodes: seq<Node>, action: Action, ref: PostRef, i: nat)
    ensures IsAlone(nodes, i, action, ref) <==> Matches(nodes, action, ref) == [i]
  {
    var found := Matches(nodes, action, ref);
    MatchesAreThose(nodes, action, ref);
    hide Matches, Does;
    if i in found {
      CountIsOne(found, i);
      if |found| == 1 {
        assert found[0] in found;
      }
    }
    if found == [i] {
      assert found[0] in found;
    }
  }

  lemma OnlyStrategyIsOne(nodes: seq<Node>, i: nat)
    ensures (IsStrategy(nodes, i) && forall k :: 0 <= k < |nodes| && k != i ==> !IsStrategy(nodes, k)) <==> StrategyIndices(nodes) == [i]
  {
    var found := StrategyIndices(nodes);
    assert forall k: nat :: k in found <==> IsStrategy(nodes, k);
    hide StrategyIndices, IsStrategy;
    if i in found {
      CountIsOne(found, i);
      if |found| == 1 {
        assert found[0] in found;
      }
    }
    if found == [i] {
      assert found[0] in found;
    }
  }

  /** What the k-th action of a post waits for is the one before it, or the strategy. */
  lemma NearestIsBefore(enabled: set<Action>, k: nat)
    requires k < |PerPost(enabled)|
    ensures var actions := PerPost(enabled);
      NearestBefore(actions[k], enabled)
      == if k > 0 then Some(actions[k - 1]) else if Strategy in enabled then Some(Strategy) else None
    ensures PerPost(enabled)[k] in enabled && PerPost(enabled)[k] != Strategy
    ensures k > 0 ==> PerPost(enabled)[k - 1] != Strategy
  {
    var actions := PerPost(enabled);
    assert actions[k] in actions && (k > 0 ==> actions[k - 1] in actions);
    PerPostPlaces(enabled);
    BeforeIs(Key(actions[k], None), enabled);
    hide PerPost;
  }

  lemma UpstreamIsOne(nodes: seq<Node>, action: Action, ref: PostRef, j: nat)
    ensures IsUpstream(nodes, action, ref, j) <==> (if action == Strategy then StrategyIndices(nodes) else Matches(nodes, action, ref)) == [j]
  {
    AloneIsOne(nodes, action, ref, j);
    OnlyStrategyIsOne(nodes, j);
    hide StrategyIndices, Matches, IsAlone, IsStrategy;
  }

  lemma UpstreamMeans(nodes: seq<Node>, ref: PostRef, enabled: set<Action>, k: nat, i: nat)
    requires k < |PerPost(enabled)| && i < |nodes|
    ensures var actions := PerPost(enabled);
      !DependsExactlyOn(nodes[i], UpstreamOf(nodes, ref, actions, k, FirstUpstream(nodes, enabled)))
      <==> WaitsWrongly(nodes, enabled, i, actions[k], ref)
  {
    var actions := PerPost(enabled);
    NearestIsBefore(enabled, k);
    hide PerPost, NearestBefore, IsUpstream, Matches, StrategyIndices;
    if k > 0 || Strategy in enabled {
      var before := if k > 0 then actions[k - 1] else Strategy;
      var found := if before == Strategy then StrategyIndices(nodes) else Matches(nodes, before, ref);
      forall j: nat ensures IsUpstream(nodes, before, ref, j) <==> found == [j] {
        UpstreamIsOne(nodes, before, ref, j);
      }
      if |found| == 1 {
        assert found == [found[0]] && IsUpstream(nodes, before, ref, found[0]);
      }
    }
  }

  lemma LinkMeans(nodes: seq<Node>, ref: PostRef, enabled: set<Action>, k: nat, issue: Issue)
    requires k < |PerPost(enabled)|
    ensures IsLinkIssue(nodes, ref, PerPost(enabled), k, FirstUpstream(nodes, enabled), issue)
       <==> (issue.WrongUpstream? && issue.node < |nodes| && IsAlone(nodes, issue.node, PerPost(enabled)[k], ref)
             && WaitsWrongly(nodes, enabled, issue.node, PerPost(enabled)[k], ref))
  {
    hide PerPost, WaitsWrongly, DependsExactlyOn, UpstreamOf, FirstUpstream;
    if issue.WrongUpstream? && issue.node < |nodes| {
      AloneIsOne(nodes, PerPost(enabled)[k], ref, issue.node);
      UpstreamMeans(nodes, ref, enabled, k, issue.node);
      hide IsAlone;
    }
  }

  lemma MatchMeans(nodes: seq<Node>, refs: seq<PostRef>, enabled: set<Action>, ref: PostRef, action: Action, issue: Issue)
    requires ref in refs && action in enabled && action != Strategy
    ensures IsMatchIssue(nodes, ref, action, issue)
       <==> ((issue.ActionMissing? || issue.ActionRepeated?) && issue.ref == ref && issue.action == action && Holds(nodes, refs, enabled, issue))
  {
    MatchesAreThose(nodes, action, ref);
    CountIsNone(Matches(nodes, action, ref));
    CountIsMore(Matches(nodes, action, ref));
    hide Matches, Ids, Does, Rising;
  }

  predicate IsChainLine(issue: Issue) {
    issue.ActionMissing? || issue.ActionRepeated? || issue.WrongUpstream?
  }

  lemma LineMeans(nodes: seq<Node>, refs: seq<PostRef>, enabled: set<Action>, r: nat, k: nat, issue: Issue)
    requires r < |refs| && k < |PerPost(enabled)|
    ensures IsMatchIssue(nodes, refs[r], PerPost(enabled)[k], issue)
            || IsLinkIssue(nodes, refs[r], PerPost(enabled), k, FirstUpstream(nodes, enabled), issue)
       <==> IsLineOf(nodes, issue, refs[r], PerPost(enabled)[k]) && Holds(nodes, refs, enabled, issue)
  {
    NearestIsBefore(enabled, k);
    MatchMeans(nodes, refs, enabled, refs[r], PerPost(enabled)[k], issue);
    LinkMeans(nodes, refs[r], enabled, k, issue);
    hide PerPost, FirstUpstream, IsMatchIssue, IsLinkIssue, WaitsWrongly, Ids, Matches, NearestBefore;
    assert refs[r] in refs;
  }

  /** The issue is about this action of this post. */
  predicate IsLineOf(nodes: seq<Node>, issue: Issue, ref: PostRef, action: Action) {
    || ((issue.ActionMissing? || issue.ActionRepeated?) && issue.ref == ref && issue.action == action)
    || (issue.WrongUpstream? && Does(nodes, issue.node, action, ref))
  }

  lemma ChainMeans(nodes: seq<Node>, refs: seq<PostRef>, enabled: set<Action>, issue: Issue)
    ensures issue in ChainIssues(nodes, refs, PerPost(enabled), FirstUpstream(nodes, enabled), |refs|)
       <==> IsChainLine(issue) && Holds(nodes, refs, enabled, issue)
  {
    hide PerPost, FirstUpstream, ChainIssues, IsMatchIssue, IsLinkIssue, Holds, IsLineOf;
    var actions, first := PerPost(enabled), FirstUpstream(nodes, enabled);
    ChainIssuesAre(nodes, refs, actions, first, |refs|, issue);
    if issue in ChainIssues(nodes, refs, actions, first, |refs|) {
      var r :| 0 <= r < |refs| && IsChainIssue(nodes, refs[r], actions, first, issue);
      var k :| 0 <= k < |actions| && (IsMatchIssue(nodes, refs[r], actions[k], issue) || IsLinkIssue(nodes, refs[r], actions, k, first, issue));
      LineMeans(nodes, refs, enabled, r, k, issue);
      LinesAreOfChains(nodes, issue, refs[r], actions[k]);
    }
    if IsChainLine(issue) && Holds(nodes, refs, enabled, issue) {
      var r, k := ChainWitness(nodes, refs, enabled, issue);
      LineMeans(nodes, refs, enabled, r, k, issue);
      assert IsChainIssue(nodes, refs[r], actions, first, issue);
    }
  }

  lemma LinesAreOfChains(nodes: seq<Node>, issue: Issue, ref: PostRef, action: Action)
    ensures IsLineOf(nodes, issue, ref, action) ==> IsChainLine(issue)
  {
  }

  /** Each such problem is of an action of a post's chain. */
  lemma ChainWitness(nodes: seq<Node>, refs: seq<PostRef>, enabled: set<Action>, issue: Issue) returns (r: nat, k: nat)
    requires IsChainLine(issue) && Holds(nodes, refs, enabled, issue)
    ensures r < |refs| && k < |PerPost(enabled)| && IsLineOf(nodes, issue, refs[r], PerPost(enabled)[k])
  {
    hide WaitsWrongly, IsAlone, Ids, Matches;
    var ref := if issue.WrongUpstream? then nodes[issue.node].postRef.value else issue.ref;
    var action := if issue.WrongUpstream? then nodes[issue.node].action else issue.action;
    r :| r < |refs| && refs[r] == ref;
    assert action in PerPost(enabled);
    hide PerPost;
    k :| k < |PerPost(enabled)| && PerPost(enabled)[k] == action;
  }

  // ---------------------------------------------------------------- the theorem

  lemma NodeLineMeans(nodes: seq<Node>, refs: seq<PostRef>, enabled: set<Action>, i: nat, issue: Issue)
    requires i < |nodes|
    ensures IsNodeIssue(nodes, refs, enabled, i, issue) <==> IsNodeLine(issue) && issue.node == i && Holds(nodes, refs, enabled, issue)
  {
    AgentsAgree(nodes[i]);
    hide AgentFor, ByItsAgent;
  }

  predicate IsNodeLine(issue: Issue) {
    || issue.WrongAgent? || issue.NotEnabled? || issue.StrategyNamesPost? || issue.NamesNoPost? || issue.UnknownPost?
    || issue.DependsOnItself? || issue.UnknownDep? || issue.DepListedTwice?
  }

  lemma NodesMean(nodes: seq<Node>, refs: seq<PostRef>, enabled: set<Action>, issue: Issue)
    ensures issue in NodeIssuesUpTo(nodes, refs, enabled, |nodes|) <==> IsNodeLine(issue) && Holds(nodes, refs, enabled, issue)
  {
    hide NodeIssuesUpTo, IsNodeIssue, ByItsAgent;
    NodeIssuesAre(nodes, refs, enabled, |nodes|, issue);
    forall i | 0 <= i < |nodes|
      ensures IsNodeIssue(nodes, refs, enabled, i, issue) <==> IsNodeLine(issue) && issue.node == i && Holds(nodes, refs, enabled, issue)
    {
      NodeLineMeans(nodes, refs, enabled, i, issue);
    }
    if IsNodeLine(issue) && Holds(nodes, refs, enabled, issue) {
      assert IsNodeIssue(nodes, refs, enabled, issue.node, issue);
    }
  }

  lemma IdsMean(nodes: seq<Node>, refs: seq<PostRef>, enabled: set<Action>, issue: Issue)
    ensures issue in IdIssues(nodes, |nodes|) <==> issue.IdUsedTwice? && Holds(nodes, refs, enabled, issue)
  {
    IdIssuesAre(nodes, |nodes|, issue);
  }

  /** nodeIssues reports every problem of the plan, cycles aside, and nothing that is none. */
  lemma ReportsExactlyTheProblems(nodes: seq<Node>, refs: seq<PostRef>, enabled: set<Action>, issue: Issue)
    ensures issue in LocalIssues(nodes, refs, enabled) <==> Holds(nodes, refs, enabled, issue)
  {
    hide IdIssues, NodeIssuesUpTo, StrategyIssues, ChainIssues, PerPost, FirstUpstream;
    IdsMean(nodes, refs, enabled, issue);
    NodesMean(nodes, refs, enabled, issue);
    StrategyIssuesAre(nodes, refs, enabled, issue);
    ChainMeans(nodes, refs, enabled, issue);
    hide WaitsWrongly, IsAlone, Matches, Ids, ByItsAgent, IsStrategy, Does;
  }
}
