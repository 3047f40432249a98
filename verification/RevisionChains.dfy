/** What every interleaving keeps of a post's revision chains (module Revisions), late and repeated
    runs included. */
module RevisionChains {
  import opened Options
  import opened TaskGraph
  import opened LiveGraph
  import opened Revisions
  import Posts = PostLifecycle

  // ---------------------------------------------------------------- the invariant

  function ActionsOf(tasks: Tasks, chain: seq<TaskId>): (actions: seq<Action>)
    requires forall k :: 0 <= k < |chain| ==> chain[k] < |tasks|
    ensures |actions| == |chain| && forall k :: 0 <= k < |chain| ==> actions[k] == tasks[chain[k]].action
  {
    seq(|chain|, k requires 0 <= k < |chain| => tasks[chain[k]].action)
  }

  ghost predicate Belongs(tasks: Tasks, post: PostRef, chain: seq<TaskId>, r: nat) {
    forall k :: 0 <= k < |chain| ==>
      chain[k] < |tasks| && tasks[chain[k]].post == Some(post) && tasks[chain[k]].revision == r
  }

  /** One revision's tasks in order: each waits for exactly the one before it. */
  ghost predicate Linked(tasks: Tasks, post: PostRef, chain: seq<TaskId>, r: nat) {
    && Belongs(tasks, post, chain, r)
    && ChainOfActions(ActionsOf(tasks, chain))
    && (forall k :: 0 < k < |chain| ==> tasks[chain[k]].dependsOn == [chain[k - 1]])
    && (r > 0 ==> tasks[chain[0]].dependsOn == [])
  }

  /** The chains hold every task of the post. */
  ghost predicate AllListed(tasks: Tasks, post: PostRef, order: seq<seq<TaskId>>) {
    forall t :: 0 <= t < |tasks| && tasks[t].post == Some(post) ==> tasks[t].revision < |order| && t in order[tasks[t].revision]
  }

  ghost predicate Chains(tasks: Tasks, post: PostRef, order: seq<seq<TaskId>>) {
    AllListed(tasks, post, order) && forall r :: 0 <= r < |order| ==> Linked(tasks, post, order[r], r)
  }

  ghost predicate QaDone(tasks: Tasks, chain: seq<TaskId>) {
    chain != [] && chain[|chain| - 1] < |tasks| && tasks[chain[|chain| - 1]].status == Succeeded
  }

  /** A chain per revision, all but the last finished; and the last one too once the post is past
      production. */
  ghost predicate Kept(s: State) {
    && Sound(s.g)
    && |s.order| == s.revision + 1
    && Chains(s.g.tasks, s.post, s.order)
    && (forall r :: 0 <= r < s.revision ==> QaDone(s.g.tasks, s.order[r]))
    && (!Posts.InProduction(s.status) ==> QaDone(s.g.tasks, s.order[s.revision]))
  }

  // ---------------------------------------------------------------- what it says

  lemma {:induction false} FinishedChain(g: Graph, post: PostRef, chain: seq<TaskId>, r: nat, k: nat)
    requires Sound(g) && Linked(g.tasks, post, chain, r) && QaDone(g.tasks, chain) && k < |chain|
    ensures g.tasks[chain[k]].status == Succeeded
    decreases |chain| - k
  {
    if k < |chain| - 1 {
      FinishedChain(g, post, chain, r, k + 1);
      assert chain[k] in g.tasks[chain[k + 1]].dependsOn;
      assert DepsDone(g.tasks, chain[k + 1]);
    }
  }

  /** At most one chain of a post is unfinished, and its number is the post's revision. */
  lemma OnlyTheLastChainIsUnfinished(s: State, t: TaskId)
    requires Kept(s) && Mine(s, t) && s.g.tasks[t].status != Succeeded
    ensures s.g.tasks[t].revision == s.revision
  {
    var r := s.g.tasks[t].revision;
    if r < s.revision {
      var k :| 0 <= k < |s.order[r]| && s.order[r][k] == t;
      FinishedChain(s.g, s.post, s.order[r], r, k);
    }
  }

  /** A post in PENDING_APPROVAL, APPROVED, SCHEDULED or later has no unfinished, escalated or failed
      task: every one of them has SUCCEEDED. */
  lemma PastProductionNothingIsLeft(s: State, t: TaskId)
    requires Kept(s) && Mine(s, t) && !Posts.InProduction(s.status)
    ensures s.g.tasks[t].status == Succeeded
  {
    var r := s.g.tasks[t].revision;
    var k :| 0 <= k < |s.order[r]| && s.order[r][k] == t;
    FinishedChain(s.g, s.post, s.order[r], r, k);
  }

  /** No action of a post is in one of its chains twice. */
  lemma NoActionTwice(s: State, t: TaskId, u: TaskId)
    requires Kept(s) && Mine(s, t) && Mine(s, u) && t != u
    ensures (s.g.tasks[t].action, s.g.tasks[t].revision) != (s.g.tasks[u].action, s.g.tasks[u].revision)
  {
    var r := s.g.tasks[t].revision;
    if s.g.tasks[u].revision == r {
      var j :| 0 <= j < |s.order[r]| && s.order[r][j] == t;
      var k :| 0 <= k < |s.order[r]| && s.order[r][k] == u;
      var actions := ActionsOf(s.g.tasks, s.order[r]);
      assert j < k ==> ActionIndex(actions[j]) < ActionIndex(actions[k]);
      assert k < j ==> ActionIndex(actions[k]) < ActionIndex(actions[j]);
    }
  }

  // ---------------------------------------------------------------- the post's own tasks untouched

  /** The post's tasks change at most their status, never out of SUCCEEDED; others come and go. */
  ghost predicate MineKept(before: Tasks, after: Tasks, post: PostRef) {
    && |before| <= |after|
    && (forall t :: 0 <= t < |before| ==>
          && after[t].post == before[t].post
          && (before[t].post == Some(post) ==>
                after[t] == before[t].(status := after[t].status)
                && (before[t].status == Succeeded ==> after[t].status == Succeeded)))
    && (forall t :: |before| <= t < |after| ==> after[t].post != Some(post))
  }

  lemma MineKeptLinked(before: Tasks, after: Tasks, post: PostRef, chain: seq<TaskId>, r: nat)
    requires MineKept(before, after, post) && Linked(before, post, chain, r)
    ensures Linked(after, post, chain, r) && (QaDone(before, chain) ==> QaDone(after, chain))
  {
    assert ActionsOf(after, chain) == ActionsOf(before, chain);
  }

  lemma MineKeptChains(s: State, after: State)
    requires Kept(s) && Sound(after.g) && MineKept(s.g.tasks, after.g.tasks, s.post)
    requires after.post == s.post && after.revision == s.revision && after.order == s.order
    requires !Posts.InProduction(after.status) ==> !Posts.InProduction(s.status) || QaDone(after.g.tasks, s.order[s.revision])
    ensures Kept(after)
  {
    hide Sound, Linked, MineKept, QaDone;
    forall r | 0 <= r < |s.order|
      ensures Linked(after.g.tasks, s.post, s.order[r], r)
      ensures QaDone(s.g.tasks, s.order[r]) ==> QaDone(after.g.tasks, s.order[r])
    {
      MineKeptLinked(s.g.tasks, after.g.tasks, s.post, s.order[r], r);
    }
    MineKeptListed(s.g.tasks, after.g.tasks, s.post, s.order);
  }

  lemma MineKeptListed(before: Tasks, after: Tasks, post: PostRef, order: seq<seq<TaskId>>)
    requires MineKept(before, after, post) && AllListed(before, post, order)
    ensures AllListed(after, post, order)
  {
  }

  lemma SameTasksMineKept(tasks: Tasks, post: PostRef)
    ensures MineKept(tasks, tasks, post)
  {
  }

  lemma MoveMineKept(g: Graph, t: TaskId, move: Move, post: PostRef)
    ensures MineKept(g.tasks, MoveTask(g, t, move).tasks, post)
  {
  }

  lemma ElsewhereMineKept(s: State, step: LiveGraph.Step)
    requires Elsewhere(s, step)
    ensures MineKept(s.g.tasks, LiveGraph.Next(s.g, step).tasks, s.post)
  {
  }

  lemma CancelMineKept(g: Graph, post: PostRef)
    ensures MineKept(g.tasks, CancelAll(g).tasks, post)
  {
  }

  // ---------------------------------------------------------------- the chain grows

  lemma WriteIsFirst(tasks: Tasks, post: PostRef, chain: seq<TaskId>, r: nat, w: TaskId)
    requires Linked(tasks, post, chain, r) && w in chain && tasks[w].action == Write
    ensures chain[0] == w
  {
    var k :| 0 <= k < |chain| && chain[k] == w;
    var actions := ActionsOf(tasks, chain);
    assert k > 0 ==> ActionIndex(actions[0]) < ActionIndex(actions[k]);
  }

  lemma ChainIdsDiffer(tasks: Tasks, post: PostRef, chain: seq<TaskId>, r: nat)
    requires Linked(tasks, post, chain, r)
    ensures forall j, k :: 0 <= j < k < |chain| ==> chain[j] != chain[k]
  {
    var actions := ActionsOf(tasks, chain);
    forall j, k | 0 <= j < k < |chain| ensures chain[j] != chain[k] {
      assert ActionIndex(actions[j]) < ActionIndex(actions[k]);
    }
  }

  lemma {:induction false} ClimbsPastDirect(actions: seq<Action>, k: nat)
    requires ChainOfActions(actions) && actions[0] == Write && Direct !in actions && 1 <= k < |actions|
    ensures ActionIndex(actions[k]) >= k + 2
  {
    assert actions[k] in actions;
    assert ActionIndex(actions[k - 1]) < ActionIndex(actions[k]);
    if k > 1 {
      ClimbsPastDirect(actions, k - 1);
    }
  }

  /** A chain without a direct leaves room for one after its write. */
  lemma RoomForDirect(actions: seq<Action>)
    requires ChainOfActions(actions) && actions[0] == Write && Direct !in actions
    ensures ChainOfActions([Write, Direct] + actions[1..])
  {
    ClimbsPastDirect(actions, |actions| - 1);
    var more := [Write, Direct] + actions[1..];
    forall j, k | 0 <= j < k < |more| ensures ActionIndex(more[j]) < ActionIndex(more[k]) {
      if k >= 2 {
        assert more[k] == actions[k - 1] && actions[k - 1] in actions;
        if j >= 2 {
          assert more[j] == actions[j - 1];
        } else {
          assert ActionIndex(actions[0]) < ActionIndex(actions[k - 1]);
        }
      }
    }
  }

  lemma SplicedRow(tasks: Tasks, post: PostRef, chain: seq<TaskId>, r: nat, w: TaskId, k: nat)
    requires Linked(tasks, post, chain, r) && 0 < k < |chain| && chain[0] == w && !HasDirect(tasks, w)
    ensures Splice(tasks, w)[chain[k]] == tasks[chain[k]].(dependsOn := if k == 1 then [|tasks|] else [chain[k - 1]])
  {
    ChainIdsDiffer(tasks, post, chain, r);
    assert tasks[chain[k]].dependsOn == [chain[k - 1]];
    assert Rewired([chain[k - 1]], w, |tasks|) == if k == 1 then [|tasks|] else [chain[k - 1]];
  }

  lemma SplicedEnds(tasks: Tasks, post: PostRef, chain: seq<TaskId>, r: nat, w: TaskId)
    requires Linked(tasks, post, chain, r) && chain[0] == w && tasks[w].action == Write && !HasDirect(tasks, w)
    ensures Splice(tasks, w)[w].(dependsOn := tasks[w].dependsOn) == tasks[w]
    ensures r > 0 ==> Splice(tasks, w)[w].dependsOn == []
    ensures Splice(tasks, w)[|tasks|] == Task(Some(post), Direct, r, Pending, [w], false)
    ensures |Splice(tasks, w)| == |tasks| + 1
    ensures Direct !in ActionsOf(tasks, chain)
  {
    var actions := ActionsOf(tasks, chain);
    forall k | 0 <= k < |chain| ensures actions[k] != Direct {
      assert SameChain(tasks[chain[k]], tasks[w]);
    }
  }

  lemma SplicedLinked(tasks: Tasks, post: PostRef, chain: seq<TaskId>, r: nat, w: TaskId)
    requires Linked(tasks, post, chain, r) && w in chain && tasks[w].action == Write && !HasDirect(tasks, w)
    ensures Linked(Splice(tasks, w), post, WithDirect(chain, |tasks|), r)
  {
    WriteIsFirst(tasks, post, chain, r, w);
    var after, more := Splice(tasks, w), WithDirect(chain, |tasks|);
    var actions := ActionsOf(tasks, chain);
    SplicedEnds(tasks, post, chain, r, w);
    RoomForDirect(actions);
    hide Splice, ChainOfActions, HasDirect;
    forall k | 0 <= k < |more|
      ensures more[k] < |after| && after[more[k]].post == Some(post) && after[more[k]].revision == r
      ensures after[more[k]].action == ([Write, Direct] + actions[1..])[k]
      ensures k > 0 ==> after[more[k]].dependsOn == [more[k - 1]]
    {
      if k >= 2 {
        SplicedRow(tasks, post, chain, r, w, k - 1);
      }
    }
    assert ActionsOf(after, more) == [Write, Direct] + actions[1..];
  }

  lemma WithDirectMembers(chain: seq<TaskId>, direct: TaskId)
    requires chain != []
    ensures forall t :: t in WithDirect(chain, direct) <==> t in chain || t == direct
  {
    assert chain == [chain[0]] + chain[1..];
    var more := WithDirect(chain, direct);
    assert more[0] == chain[0] && more[1] == direct;
  }

  lemma SplicedListed(tasks: Tasks, post: PostRef, order: seq<seq<TaskId>>, w: TaskId)
    requires AllListed(tasks, post, order) && w < |tasks| && tasks[w].post == Some(post)
    requires order[tasks[w].revision] != [] && !HasDirect(tasks, w)
    ensures AllListed(Splice(tasks, w), post, order[tasks[w].revision := WithDirect(order[tasks[w].revision], |tasks|)])
  {
    var r := tasks[w].revision;
    var after, more := Splice(tasks, w), order[r := WithDirect(order[r], |tasks|)];
    WithDirectMembers(order[r], |tasks|);
    hide WithDirect, HasDirect;
    forall t | 0 <= t < |after| && after[t].post == Some(post)
      ensures after[t].revision < |more| && t in more[after[t].revision]
    {
      if t < |tasks| {
        assert after[t].revision == tasks[t].revision && tasks[t].post == Some(post);
      }
    }
  }

  /** Other chains, and other posts' tasks, stay as they are when a direct is spliced in. */
  lemma SplicedOthers(tasks: Tasks, post: PostRef, chain: seq<TaskId>, r: nat, w: TaskId)
    requires Linked(tasks, post, chain, r) && w < |tasks| && (tasks[w].post != Some(post) || tasks[w].revision != r)
    ensures Linked(Splice(tasks, w), post, chain, r) && (QaDone(tasks, chain) ==> QaDone(Splice(tasks, w), chain))
  {
    assert ActionsOf(Splice(tasks, w), chain) == ActionsOf(tasks, chain);
  }

  lemma SpliceKeeps(s: State, after: State, w: TaskId)
    requires Kept(s) && Mine(s, w) && s.g.tasks[w].action == Write && !HasDirect(s.g.tasks, w)
    requires Sound(after.g) && after.g.tasks == Splice(s.g.tasks, w)
    requires after.post == s.post && after.revision == s.revision && after.status == s.status
    requires after.order == s.order[s.g.tasks[w].revision := WithDirect(s.order[s.g.tasks[w].revision], |s.g.tasks|)]
    ensures Kept(after)
  {
    hide Sound, Linked, Splice, HasDirect;
    var w' := s.g.tasks[w].revision;
    LinkedNonempty(s.g.tasks, s.post, s.order[w'], w');
    SplicedListed(s.g.tasks, s.post, s.order, w);
    forall r | 0 <= r < |s.order|
      ensures Linked(after.g.tasks, s.post, after.order[r], r)
      ensures QaDone(s.g.tasks, s.order[r]) ==> QaDone(after.g.tasks, after.order[r])
    {
      if r == w' {
        SplicedLinked(s.g.tasks, s.post, s.order[r], r, w);
        SplicedQaDone(s.g.tasks, s.order[r], w);
      } else {
        SplicedOthers(s.g.tasks, s.post, s.order[r], r, w);
      }
    }
  }

  lemma LinkedNonempty(tasks: Tasks, post: PostRef, chain: seq<TaskId>, r: nat)
    requires Linked(tasks, post, chain, r)
    ensures |chain| >= 2
  {
  }

  lemma SplicedQaDone(tasks: Tasks, chain: seq<TaskId>, w: TaskId)
    requires w < |tasks| && |chain| >= 2
    ensures QaDone(tasks, chain) ==> QaDone(Splice(tasks, w), WithDirect(chain, |tasks|))
  {
  }

  // ---------------------------------------------------------------- a new chain

  lemma AppendedRows(tasks: Tasks, post: Option<PostRef>, r: nat, actions: seq<Action>, fromQa: bool, k: nat)
    requires k < |actions|
    ensures Append(tasks, post, r, actions, fromQa)[|tasks| + k]
         == Task(post, actions[k], r, Pending, if k == 0 then [] else [|tasks| + k - 1], fromQa && (k == 0 || actions[k] == Direct))
  {
  }

  ghost predicate RowFits(tasks: Tasks, post: PostRef, chain: seq<TaskId>, r: nat, actions: seq<Action>, k: nat)
    requires k < |chain| == |actions|
  {
    && chain[k] < |tasks| && tasks[chain[k]].post == Some(post) && tasks[chain[k]].revision == r
    && tasks[chain[k]].action == actions[k]
    && tasks[chain[k]].dependsOn == if k == 0 then [] else [chain[k - 1]]
  }

  /** Rows that are a chain's are linked. */
  lemma RowsLinked(tasks: Tasks, post: PostRef, chain: seq<TaskId>, r: nat, actions: seq<Action>)
    requires |chain| == |actions| && ChainOfActions(actions)
    requires forall k :: 0 <= k < |chain| ==> RowFits(tasks, post, chain, r, actions, k)
    ensures Linked(tasks, post, chain, r)
  {
    forall k | 0 <= k < |chain|
      ensures chain[k] < |tasks| && tasks[chain[k]].post == Some(post) && tasks[chain[k]].revision == r
      ensures tasks[chain[k]].action == actions[k]
    {
      assert RowFits(tasks, post, chain, r, actions, k);
    }
    assert ActionsOf(tasks, chain) == actions;
    forall k | 0 < k < |chain| ensures tasks[chain[k]].dependsOn == [chain[k - 1]] {
      assert RowFits(tasks, post, chain, r, actions, k);
    }
    assert RowFits(tasks, post, chain, r, actions, 0);
  }

  lemma AppendedLinked(tasks: Tasks, post: PostRef, r: nat, actions: seq<Action>, fromQa: bool)
    requires ChainOfActions(actions)
    ensures Linked(Append(tasks, Some(post), r, actions, fromQa), post, NewIds(|tasks|, |actions|), r)
  {
    var after := Append(tasks, Some(post), r, actions, fromQa);
    var chain := NewIds(|tasks|, |actions|);
    assert |after| == |tasks| + |actions|;
    hide Append, NewIds, ChainOfActions, Linked;
    forall k | 0 <= k < |actions| ensures RowFits(after, post, chain, r, actions, k) {
      AppendedRows(tasks, Some(post), r, actions, fromQa, k);
    }
    RowsLinked(after, post, chain, r, actions);
  }

  lemma NonemptyChain(actions: seq<Action>)
    requires ChainOfActions(actions)
    ensures |actions| >= 2
  {
  }

  lemma AppendedOthers(tasks: Tasks, post: PostRef, chain: seq<TaskId>, r: nat, more: Tasks)
    requires Linked(tasks, post, chain, r)
    ensures Linked(tasks + more, post, chain, r) && (QaDone(tasks, chain) ==> QaDone(tasks + more, chain))
  {
    assert ActionsOf(tasks + more, chain) == ActionsOf(tasks, chain);
  }

  lemma AppendedListed(tasks: Tasks, post: PostRef, order: seq<seq<TaskId>>, actions: seq<Action>, fromQa: bool)
    requires AllListed(tasks, post, order)
    ensures AllListed(Append(tasks, Some(post), |order|, actions, fromQa), post,
                      order + [NewIds(|tasks|, |actions|)])
  {
    var after := Append(tasks, Some(post), |order|, actions, fromQa);
    var chain := NewIds(|tasks|, |actions|);
    forall t | |tasks| <= t < |after| ensures after[t].revision == |order| && t in chain {
      assert after[t] == NewChain(Some(post), |order|, actions, fromQa, |tasks|)[t - |tasks|];
      assert chain[t - |tasks|] == t;
    }
  }

  lemma ReviseKeeps(s: State, target: Target, enabled: set<Action>, fromQa: bool)
    requires Sound(s.g) && |s.order| == s.revision + 1 && Chains(s.g.tasks, s.post, s.order)
    requires forall r :: 0 <= r <= s.revision ==> QaDone(s.g.tasks, s.order[r])
    requires Write in enabled && Posts.InProduction(s.status)
    ensures Kept(Revise(s, target, enabled, fromQa))
  {
    hide Linked, QaDone, AllListed, RevisionActions, ChainOfActions;
    var actions := RevisionActions(target, enabled);
    var after := Revise(s, target, enabled, fromQa);
    RevisionActionsChain(target, enabled);
    AppendedLinked(s.g.tasks, s.post, s.revision + 1, actions, fromQa);
    AppendedListed(s.g.tasks, s.post, s.order, actions, fromQa);
    AppendKeepsSound(s.g, Some(s.post), s.revision + 1, actions, fromQa);
    hide Sound;
    forall r | 0 <= r <= s.revision
      ensures Linked(after.g.tasks, s.post, s.order[r], r) && QaDone(after.g.tasks, s.order[r])
    {
      AppendedOthers(s.g.tasks, s.post, s.order[r], r, NewChain(Some(s.post), s.revision + 1, actions, fromQa, |s.g.tasks|));
    }
  }

  // ---------------------------------------------------------------- the steps

  /** The QA task whose run has entered is the last of its chain. */
  lemma QaIsLast(tasks: Tasks, post: PostRef, chain: seq<TaskId>, r: nat, q: TaskId)
    requires Linked(tasks, post, chain, r) && q in chain && tasks[q].action == Qa
    ensures q == chain[|chain| - 1]
  {
    var k :| 0 <= k < |chain| && chain[k] == q;
    var actions := ActionsOf(tasks, chain);
    forall j | 0 <= j < |chain| - 1 ensures actions[j] != Qa {
      assert ActionIndex(actions[j]) < ActionIndex(actions[|chain| - 1]);
    }
  }

  /** A QA task that can still succeed is the current chain's. */
  lemma QaIsCurrent(s: State, q: TaskId)
    requires Kept(s) && Mine(s, q) && s.g.tasks[q].action == Qa && s.g.tasks[q].status != Succeeded
    ensures q == s.order[s.revision][|s.order[s.revision]| - 1]
  {
    OnlyTheLastChainIsUnfinished(s, q);
    QaIsLast(s.g.tasks, s.post, s.order[s.revision], s.revision, q);
  }

  lemma MoveKeeps(s: State, t: TaskId, move: Move, after: State)
    requires Kept(s) && after.g == MoveTask(s.g, t, move)
    requires after.post == s.post && after.revision == s.revision && after.order == s.order && after.status == s.status
    ensures Kept(after)
  {
    hide Kept;
    MoveMineKept(s.g, t, move, s.post);
    KeptSound(s);
    MoveKeepsSound(s.g, t, move);
    MineKeptChains(s, after);
  }

  lemma KeptSound(s: State)
    requires Kept(s)
    ensures Sound(s.g) && |s.order| == s.revision + 1
  {
  }

  lemma SameTasksKeep(s: State, after: State)
    requires Kept(s) && after.g == s.g
    requires after.post == s.post && after.revision == s.revision && after.order == s.order
    requires !Posts.InProduction(after.status) ==> !Posts.InProduction(s.status)
    ensures Kept(after)
  {
    KeptSound(s);
    hide Kept, Sound;
    SameTasksMineKept(s.g.tasks, s.post);
    MineKeptChains(s, after);
  }

  lemma FinishWriteKeeps(s: State, i: nat, gaps: bool)
    requires Kept(s)
    ensures Kept(FinishWriteRun(s, i, gaps))
  {
    if RunOf(s, i, Write) && CanMove(s.g.tasks, s.runs[i].task, Succeed) {
      var w := s.runs[i].task;
      var done := s.(g := MoveTask(s.g, w, Succeed));
      hide Sound, Linked;
      MoveKeeps(s, w, Succeed, done);
      FinishWriteKeepsSound(s.g, w, gaps);
      assert SetStatus(s.g.tasks, w, Succeeded) == done.g.tasks;
      DirectUnchanged(s.g.tasks, w);
      var r := s.g.tasks[w].revision;
      LinkedNonempty(s.g.tasks, s.post, s.order[r], r);
      if gaps && !HasDirect(s.g.tasks, w) {
        SpliceKeeps(done, FinishWriteRun(s, i, gaps), w);
      }
    }
  }

  lemma DirectUnchanged(tasks: Tasks, w: TaskId)
    requires w < |tasks|
    ensures HasDirect(SetStatus(tasks, w, Succeeded), w) <==> HasDirect(tasks, w)
  {
    var done := SetStatus(tasks, w, Succeeded);
    if HasDirect(tasks, w) {
      var t :| 0 <= t < |tasks| && SameChain(tasks[t], tasks[w]) && tasks[t].action == Direct;
      assert SameChain(done[t], done[w]) && done[t].action == Direct;
    }
    if HasDirect(done, w) {
      var t :| 0 <= t < |done| && SameChain(done[t], done[w]) && done[t].action == Direct;
      assert SameChain(tasks[t], tasks[w]) && tasks[t].action == Direct;
    }
  }

  lemma QaMoveDone(s: State, q: TaskId)
    requires Kept(s) && Mine(s, q) && s.g.tasks[q].action == Qa && CanMove(s.g.tasks, q, Succeed)
    ensures QaDone(MoveTask(s.g, q, Succeed).tasks, s.order[s.revision])
  {
    QaIsCurrent(s, q);
    LinkedNonempty(s.g.tasks, s.post, s.order[s.revision], s.revision);
  }

  lemma QaSendKeeps(s: State, i: nat)
    requires Kept(s)
    ensures Kept(QaSend(s, i))
  {
    if RunOf(s, i, Qa) && CanMove(s.g.tasks, s.runs[i].task, Succeed) && !QaThrows(s, i) {
      var q := s.runs[i].task;
      QaMoveDone(s, q);
      MoveMineKept(s.g, q, Succeed, s.post);
      KeptSound(s);
      MoveKeepsSound(s.g, q, Succeed);
      hide Kept, Sound, QaDone, MineKept;
      MineKeptChains(s, QaSend(s, i));
    }
  }

  /** QA runs only in production: past it, its task has SUCCEEDED. */
  lemma QaRunsInProduction(s: State, q: TaskId)
    requires Kept(s) && Mine(s, q) && s.g.tasks[q].status != Succeeded
    ensures Posts.InProduction(s.status)
  {
    if !Posts.InProduction(s.status) {
      PastProductionNothingIsLeft(s, q);
    }
  }

  lemma QaReviseKeeps(s: State, i: nat, target: Target, enabled: set<Action>)
    requires Kept(s) && Write in enabled
    ensures Kept(QaRevise(s, i, target, enabled))
  {
    if RunOf(s, i, Qa) && s.runs[i].used.Some? && s.runs[i].used.value < s.maxQa && CanMove(s.g.tasks, s.runs[i].task, Succeed) {
      var q := s.runs[i].task;
      var done := s.(g := MoveTask(s.g, q, Succeed));
      hide Kept, QaDone, Revise;
      QaMoveDone(s, q);
      QaRunsInProduction(s, q);
      MoveKeeps(s, q, Succeed, done);
      KeptSound(done);
      AllDone(done);
      ReviseKeeps(done, target, enabled, true);
      SameTasksKeep(Revise(done, target, enabled, true), QaRevise(s, i, target, enabled));
    }
  }

  lemma AllDone(s: State)
    requires |s.order| == s.revision + 1
    requires Kept(s) && QaDone(s.g.tasks, s.order[s.revision])
    ensures Sound(s.g) && Chains(s.g.tasks, s.post, s.order)
    ensures forall r :: 0 <= r <= s.revision ==> QaDone(s.g.tasks, s.order[r])
  {
  }

  lemma RoutedKeeps(s: State, target: Target, enabled: set<Action>, fromQa: bool)
    requires Kept(s) && Write in enabled && !Posts.InProduction(s.status)
    ensures Kept(Revise(s.(status := Posts.PostStatus.ChangesRequested), target, enabled, fromQa))
  {
    hide Sound, Linked, QaDone, AllListed;
    ReviseKeeps(s.(status := Posts.PostStatus.ChangesRequested), target, enabled, fromQa);
  }

  lemma ElsewhereKeeps(s: State, step: LiveGraph.Step)
    requires Kept(s) && Elsewhere(s, step)
    ensures Kept(s.(g := LiveGraph.Next(s.g, step)))
  {
    ElsewhereMineKept(s, step);
    KeptSound(s);
    StepKeepsSound(s.g, step);
    hide Kept, Sound, MineKept;
    MineKeptChains(s, s.(g := LiveGraph.Next(s.g, step)));
  }

  lemma ArchiveKeeps(s: State)
    requires Kept(s)
    ensures Kept(s.(archived := true, g := CancelAll(s.g)))
  {
    CancelMineKept(s.g, s.post);
    KeptSound(s);
    CancelKeepsSound(s.g);
    hide Kept, Sound, MineKept;
    MineKeptChains(s, s.(archived := true, g := CancelAll(s.g)));
  }

  lemma EnteringStaysInProduction(s: State, i: nat)
    ensures !Posts.InProduction(EnterRun(s, i).status) ==> !Posts.InProduction(s.status)
  {
  }

  /** Every step, whatever runs overlap or come late. */
  lemma StepKeeps(s: State, step: Revisions.Step)
    requires Kept(s) && WriteEnabled(step)
    ensures Kept(Revisions.Next(s, step))
  {
    hide Kept, Revise, FinishWriteRun, QaSend, QaRevise, MoveTask, CancelAll;
    match step
    case SElsewhere(graphStep) =>
      if Elsewhere(s, graphStep) {
        ElsewhereKeeps(s, graphStep);
      }
    case SLoad(t) => SameTasksKeep(s, Load(s, t));
    case SStart(i) =>
      if RunIs(s, i, Loaded) && CanMove(s.g.tasks, s.runs[i].task, Start) {
        MoveKeeps(s, s.runs[i].task, Start, StartRun(s, i));
      }
    case SEnter(i) =>
      EnteringStaysInProduction(s, i);
      SameTasksKeep(s, EnterRun(s, i));
    case SCount(i) => SameTasksKeep(s, CountRun(s, i));
    case SFinish(i, gaps) => FinishWriteKeeps(s, i, gaps);
    case SPlan(i) =>
      if RunOf(s, i, Direct) {
        MoveKeeps(s, s.runs[i].task, Wait, PlanRun(s, i));
      }
    case SQaSend(i) => QaSendKeeps(s, i);
    case SQaRevise(i, target, enabled) => QaReviseKeeps(s, i, target, enabled);
    case STask(t, move) => if TaskMoves(s, t, move) != s { MoveKeeps(s, t, move, TaskMoves(s, t, move)); }
    case SHumanFeedback(target, enabled) => if HumanFeedback(s, target, enabled) != s { RoutedKeeps(s, target, enabled, false); }
    case SReopen(target, enabled, fromQa) => if Reopen(s, target, enabled, fromQa) != s { RoutedKeeps(s, target, enabled, fromQa); }
    case SPostMoves(to) => SameTasksKeep(s, PostMoves(s, to));
    case SArchive => ArchiveKeeps(s);
  }

  ghost predicate WritesEnabled(steps: seq<Revisions.Step>) {
    forall step :: step in steps ==> WriteEnabled(step)
  }

  lemma {:induction false} ExecKeeps(s: State, steps: seq<Revisions.Step>)
    requires Kept(s) && WritesEnabled(steps)
    ensures Kept(Revisions.Exec(s, steps))
    decreases |steps|
  {
    hide Kept, Revisions.Next;
    if steps != [] {
      StepKeeps(s, steps[0]);
      ExecKeeps(Revisions.Next(s, steps[0]), steps[1..]);
    }
  }
}
