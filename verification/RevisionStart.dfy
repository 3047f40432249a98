/** Where a post's runs begin: the tasks an approved plan was turned into (modules TaskGraph and
    PlanTasks) are on course, so what module RevisionStatus proves holds from the plan on. */
module RevisionStart {
  import opened Options
  import opened TaskGraph
  import opened TaskGraphShape
  import opened TaskGraphAcceptance
  import PlanTasks
  import opened LiveGraph
  import opened Revisions
  import opened RevisionChains
  import opened RevisionStatus
  import opened RevisionBounds
  import Posts = PostLifecycle
  import Kahn

  /** The rows as createGraphRows writes them. */
  function Rows(tasks: seq<PlanTasks.Task>): Tasks {
    seq(|tasks|, t requires 0 <= t < |tasks| =>
          Task(tasks[t].post, tasks[t].action, 0, Pending, tasks[t].dependsOn, false))
  }

  /** A post just planned: IDEA, with nothing run yet. */
  function Begin(tasks: seq<PlanTasks.Task>, post: PostRef, chain: seq<TaskId>, maxQa: nat): State {
    State(Graph(Rows(tasks), {}), post, Posts.PostStatus.Idea, 0, false, [], [chain], {}, maxQa)
  }

  // ---------------------------------------------------------------- the order keeps the shape

  lemma SameNodes(nodes: seq<Node>, ordered: seq<Node>)
    requires multiset(ordered) == multiset(nodes) && DistinctIds(nodes)
    ensures DistinctIds(ordered) && forall n :: n in nodes <==> n in ordered
  {
    PlanTasks.SamePlaces(nodes, ordered);
    PlanTasks.SameIdsDistinct(nodes, ordered);
  }

  lemma OrderedKeys(nodes: seq<Node>, ordered: seq<Node>, refs: seq<PostRef>, enabled: set<Action>, i: nat, j: nat)
    requires Shaped(nodes, refs, enabled) && multiset(ordered) == multiset(nodes) && i < j < |ordered|
    ensures KeyOf(ordered[i]) != KeyOf(ordered[j])
  {
    hide Wanted, HasNode, DepsFollow;
    SameNodes(nodes, ordered);
    assert ordered[i] in nodes && ordered[j] in nodes;
    var a :| 0 <= a < |nodes| && nodes[a] == ordered[i];
    var b :| 0 <= b < |nodes| && nodes[b] == ordered[j];
    assert a != b;
    assert a < b ==> KeyOf(nodes[a]) != KeyOf(nodes[b]);
    assert b < a ==> KeyOf(nodes[b]) != KeyOf(nodes[a]);
  }

  lemma OrderedDeps(nodes: seq<Node>, ordered: seq<Node>, refs: seq<PostRef>, enabled: set<Action>, i: nat)
    requires Shaped(nodes, refs, enabled) && multiset(ordered) == multiset(nodes) && i < |ordered|
    ensures DepsFollow(ordered, i, enabled)
  {
    hide Wanted, HasNode, Before;
    SameNodes(nodes, ordered);
    assert ordered[i] in nodes;
    var a :| 0 <= a < |nodes| && nodes[a] == ordered[i];
    assert DepsFollow(nodes, a, enabled);
    var before := Before(KeyOf(ordered[i]), enabled);
    if before.Some? {
      var b :| 0 <= b < |nodes| && KeyOf(nodes[b]) == before.value && nodes[a].deps == [nodes[b].id];
      assert nodes[b] in ordered;
      var j :| 0 <= j < |ordered| && ordered[j] == nodes[b];
    }
  }

  lemma OrderedHasKey(nodes: seq<Node>, ordered: seq<Node>, refs: seq<PostRef>, enabled: set<Action>, key: Key)
    requires Shaped(nodes, refs, enabled) && multiset(ordered) == multiset(nodes) && Wanted(key, refs, enabled)
    ensures HasNode(ordered, key)
  {
    SameNodes(nodes, ordered);
    assert HasNode(nodes, key);
    var a := Find(nodes, key);
    assert nodes[a] in ordered;
    var j :| 0 <= j < |ordered| && ordered[j] == nodes[a];
    assert KeyOf(ordered[j]) == key;
  }

  lemma OrderedWanted(nodes: seq<Node>, ordered: seq<Node>, refs: seq<PostRef>, enabled: set<Action>, i: nat)
    requires Shaped(nodes, refs, enabled) && multiset(ordered) == multiset(nodes) && i < |ordered|
    ensures Wanted(KeyOf(ordered[i]), refs, enabled)
  {
    SameNodes(nodes, ordered);
    assert ordered[i] in nodes;
    var a :| 0 <= a < |nodes| && nodes[a] == ordered[i];
  }

  // ---------------------------------------------------------------- the per-post actions are a chain

  ghost predicate InOrder(actions: seq<Action>) {
    forall j, k :: 0 <= j < k < |actions| ==> ActionIndex(actions[j]) < ActionIndex(actions[k])
  }

  lemma {:induction false} EnabledInOrder(order: seq<Action>, enabled: set<Action>)
    requires InOrder(order)
    ensures InOrder(Enabled(order, enabled))
  {
    if order != [] {
      var rest := Enabled(order[1..], enabled);
      assert InOrder(order[1..]);
      EnabledInOrder(order[1..], enabled);
      forall k | 0 <= k < |rest| ensures ActionIndex(order[0]) < ActionIndex(rest[k]) {
        assert rest[k] in rest;
        var j :| 0 <= j < |order[1..]| && order[1..][j] == rest[k];
        assert order[j + 1] == rest[k];
      }
      assert InOrder([order[0]] + rest);
      assert [] + rest == rest;
    }
  }

  lemma PerPostIsAChain(enabled: set<Action>)
    requires Write in enabled && Qa in enabled
    ensures ChainOfActions(PerPost(enabled))
  {
    var actions := PerPost(enabled);
    EnabledInOrder(PER_POST_ACTIONS, enabled);
    assert Enabled(PER_POST_ACTIONS, enabled) == [Write] + Enabled(PER_POST_ACTIONS[1..], enabled);
    assert Qa in actions && actions[0] == Write;
    assert actions[|actions| - 1] in actions;
    forall k | 0 <= k < |actions| - 1 ensures actions[k] != Qa {
      assert ActionIndex(actions[k]) < ActionIndex(actions[|actions| - 1]);
    }
  }

  // ---------------------------------------------------------------- the post's chain

  ghost function PostChain(ordered: seq<Node>, actions: seq<Action>, post: PostRef): (chain: seq<TaskId>)
    requires forall k :: 0 <= k < |actions| ==> HasNode(ordered, Key(actions[k], Some(post)))
    ensures |chain| == |actions|
    ensures forall k :: 0 <= k < |chain| ==> chain[k] < |ordered| && KeyOf(ordered[chain[k]]) == Key(actions[k], Some(post))
  {
    seq(|actions|, k requires 0 <= k < |actions| => Find(ordered, Key(actions[k], Some(post))))
  }

  /** A node with one dependency becomes a row that depends on the row of that dependency. */
  lemma RowDependsOn(tasks: seq<PlanTasks.Task>, ordered: seq<Node>, i: nat, j: nat)
    requires PlanTasks.Instantiates(tasks, ordered) && DistinctIds(ordered) && i < |ordered| && j < |ordered|
    requires ordered[i].deps == [ordered[j].id]
    ensures tasks[i].dependsOn == [j]
  {
    assert |tasks[i].dependsOn| == 1;
    var d := tasks[i].dependsOn[0];
    assert ordered[i].deps[0] == ordered[j].id;
    assert tasks[d].nodeKey == ordered[d].id == ordered[j].id;
    SameIdSamePlace(ordered, d, j);
  }

  lemma SameIdSamePlace(nodes: seq<Node>, i: nat, j: nat)
    requires DistinctIds(nodes) && i < |nodes| && j < |nodes| && nodes[i].id == nodes[j].id
    ensures i == j
  {
  }

  lemma PostChainLinked(nodes: seq<Node>, ordered: seq<Node>, tasks: seq<PlanTasks.Task>, refs: seq<PostRef>, enabled: set<Action>,
                        post: PostRef, chain: seq<TaskId>)
    requires Shaped(nodes, refs, enabled) && multiset(ordered) == multiset(nodes) && PlanTasks.Instantiates(tasks, ordered)
    requires Write in enabled && Qa in enabled
    requires |chain| == |PerPost(enabled)|
    requires forall k :: 0 <= k < |chain| ==> chain[k] < |ordered| && KeyOf(ordered[chain[k]]) == Key(PerPost(enabled)[k], Some(post))
    ensures RevisionChains.Linked(Rows(tasks), post, chain, 0)
  {
    hide Wanted, HasNode, PerPost, Shaped;
    PerPostIsAChain(enabled);
    PerPostPlaces(enabled);
    ShapedIds(nodes, refs, enabled);
    SameNodes(nodes, ordered);
    assert ActionsOf(Rows(tasks), chain) == PerPost(enabled);
    forall k | 0 < k < |chain| ensures Rows(tasks)[chain[k]].dependsOn == [chain[k - 1]] {
      OrderedDeps(nodes, ordered, refs, enabled, chain[k]);
      assert Before(KeyOf(ordered[chain[k]]), enabled) == Some(Key(PerPost(enabled)[k - 1], Some(post)));
      var j :| 0 <= j < |ordered| && KeyOf(ordered[j]) == Key(PerPost(enabled)[k - 1], Some(post)) && ordered[chain[k]].deps == [ordered[j].id];
      SameKeySamePlace(nodes, ordered, refs, enabled, j, chain[k - 1]);
      RowDependsOn(tasks, ordered, chain[k], j);
    }
  }

  lemma SameKeySamePlace(nodes: seq<Node>, ordered: seq<Node>, refs: seq<PostRef>, enabled: set<Action>, i: nat, j: nat)
    requires Shaped(nodes, refs, enabled) && multiset(ordered) == multiset(nodes) && i < |ordered| && j < |ordered|
    requires KeyOf(ordered[i]) == KeyOf(ordered[j])
    ensures i == j
  {
    hide Shaped;
    forall a, b | 0 <= a < b < |ordered| ensures KeyOf(ordered[a]) != KeyOf(ordered[b]) {
      OrderedKeys(nodes, ordered, refs, enabled, a, b);
    }
  }

  lemma PostTasksListed(nodes: seq<Node>, ordered: seq<Node>, tasks: seq<PlanTasks.Task>, refs: seq<PostRef>, enabled: set<Action>,
                        post: PostRef, chain: seq<TaskId>)
    requires Shaped(nodes, refs, enabled) && multiset(ordered) == multiset(nodes) && PlanTasks.Instantiates(tasks, ordered)
    requires |chain| == |PerPost(enabled)|
    requires forall k :: 0 <= k < |chain| ==> chain[k] < |ordered| && KeyOf(ordered[chain[k]]) == Key(PerPost(enabled)[k], Some(post))
    ensures AllListed(Rows(tasks), post, [chain])
  {
    hide PerPost, Shaped;
    forall t | 0 <= t < |Rows(tasks)| && Rows(tasks)[t].post == Some(post) ensures t in chain {
      OrderedWanted(nodes, ordered, refs, enabled, t);
      assert ordered[t].action in PerPost(enabled);
      var k := PlaceOf(PerPost(enabled), ordered[t].action);
      SameKeySamePlace(nodes, ordered, refs, enabled, t, chain[k]);
    }
  }

  /** From an accepted plan with a Copywriter and QA, every post starts on course. */
  lemma PlannedPostIsOnCourse(nodes: seq<Node>, refs: seq<PostRef>, enabled: set<Action>,
                              ordered: seq<Node>, tasks: seq<PlanTasks.Task>, post: PostRef, maxQa: nat)
    requires Accepted(nodes, refs, enabled) && post in refs && Write in enabled && Qa in enabled
    requires multiset(ordered) == multiset(nodes) && PlanTasks.Instantiates(tasks, ordered)
    ensures exists chain :: var s := Begin(tasks, post, chain, maxQa);
              Kept(s) && OnCourse(s) && Counted(s) && VerdictsOnly(s)
  {
    hide Accepted, Shaped, PerPost, Begin, Kept, OnCourse, Counted, VerdictsOnly, HasNode;
    AcceptedIsShaped(nodes, refs, enabled);
    var actions := PerPost(enabled);
    forall k | 0 <= k < |actions| ensures HasNode(ordered, Key(actions[k], Some(post))) {
      assert actions[k] in actions;
      OrderedHasKey(nodes, ordered, refs, enabled, Key(actions[k], Some(post)));
    }
    var chain := PostChain(ordered, actions, post);
    PostChainLinked(nodes, ordered, tasks, refs, enabled, post, chain);
    PostTasksListed(nodes, ordered, tasks, refs, enabled, post, chain);
    BeginFits(tasks, ordered, post, chain, maxQa);
  }

  lemma BeginFits(tasks: seq<PlanTasks.Task>, ordered: seq<Node>, post: PostRef, chain: seq<TaskId>, maxQa: nat)
    requires PlanTasks.Instantiates(tasks, ordered)
    requires RevisionChains.Linked(Rows(tasks), post, chain, 0) && AllListed(Rows(tasks), post, [chain])
    ensures var s := Begin(tasks, post, chain, maxQa);
            Kept(s) && OnCourse(s) && Counted(s) && VerdictsOnly(s)
  {
    var s := Begin(tasks, post, chain, maxQa);
    InstantiatedIsSound(tasks, ordered, s.g);
    LinkedNonempty(s.g.tasks, post, chain, 0);
    hide Sound;
    assert QaRevisions(s.g.tasks, post) == {};
    assert StatusFits(s, chain[0], chain[|chain| - 1]);
  }
}
