/** How often QA may send a post back on its own (module Revisions). */
module RevisionBounds {
  import opened Options
  import opened TaskGraph
  import opened LiveGraph
  import opened Revisions
  import opened RevisionChains
  import Posts = PostLifecycle

  /** The count a run read is still the count while its task is unfinished. */
  ghost predicate CountIsFresh(s: State, run: Run) {
    Mine(s, run.task)
    && (run.used.Some? && s.g.tasks[run.task].status != Succeeded ==> run.used.value == |QaRevisions(s.g.tasks, s.post)|)
  }

  ghost predicate Counted(s: State) {
    && (forall i :: 0 <= i < |s.runs| ==> CountIsFresh(s, s.runs[i]))
    && s.verdicts <= QaRevisions(s.g.tasks, s.post)
    && |s.verdicts| <= s.maxQa
  }

  lemma SubsetSize(a: set<nat>, b: set<nat>)
    requires a <= b
    ensures |a| <= |b|
  {
    assert b == a + (b - a);
  }

  // ---------------------------------------------------------------- the count elsewhere

  lemma MineKeptCount(before: Tasks, after: Tasks, post: PostRef)
    requires MineKept(before, after, post)
    ensures QaRevisions(after, post) == QaRevisions(before, post)
  {
    forall r | r in QaRevisions(before, post) ensures r in QaRevisions(after, post) {
      var t :| 0 <= t < |before| && before[t].post == Some(post) && before[t].revision > 0 && before[t].fromQa && before[t].revision == r;
      assert after[t].post == Some(post);
    }
    forall r | r in QaRevisions(after, post) ensures r in QaRevisions(before, post) {
      var t :| 0 <= t < |after| && after[t].post == Some(post) && after[t].revision > 0 && after[t].fromQa && after[t].revision == r;
      assert t < |before| && before[t].post == Some(post);
    }
  }

  lemma SpliceCount(tasks: Tasks, w: TaskId, post: PostRef)
    requires w < |tasks|
    ensures QaRevisions(Splice(tasks, w), post) == QaRevisions(tasks, post)
  {
    var after := Splice(tasks, w);
    assert forall t :: 0 <= t < |tasks| ==>
             after[t].post == tasks[t].post && after[t].revision == tasks[t].revision && after[t].fromQa == tasks[t].fromQa;
    assert forall t :: |tasks| <= t < |after| ==> !after[t].fromQa;
  }

  lemma AppendCount(tasks: Tasks, post: PostRef, r: nat, actions: seq<Action>, fromQa: bool)
    requires actions != [] && r > 0
    ensures QaRevisions(tasks, post) <= QaRevisions(Append(tasks, Some(post), r, actions, fromQa), post)
    ensures fromQa ==> r in QaRevisions(Append(tasks, Some(post), r, actions, fromQa), post)
  {
    var after := Append(tasks, Some(post), r, actions, fromQa);
    forall n | n in QaRevisions(tasks, post) ensures n in QaRevisions(after, post) {
      var t :| 0 <= t < |tasks| && tasks[t].post == Some(post) && tasks[t].revision > 0 && tasks[t].fromQa && tasks[t].revision == n;
      assert after[t] == tasks[t];
    }
    AppendedRows(tasks, Some(post), r, actions, fromQa, 0);
    assert after[|tasks| + 0].revision == r;
  }

  // ---------------------------------------------------------------- the steps

  lemma MineKeptCounted(s: State, after: State)
    requires Counted(s) && MineKept(s.g.tasks, after.g.tasks, s.post)
    requires after.post == s.post && after.runs == s.runs && after.verdicts == s.verdicts && after.maxQa == s.maxQa
    ensures Counted(after)
  {
    MineKeptCount(s.g.tasks, after.g.tasks, s.post);
    hide QaRevisions;
    forall i | 0 <= i < |s.runs| ensures CountIsFresh(after, s.runs[i]) {
      assert CountIsFresh(s, s.runs[i]);
    }
  }

  /** A run's bookkeeping: the count it reads is the count there is. */
  lemma RunCounted(s: State, i: nat, run: Run)
    requires Counted(s) && i < |s.runs| && run.task == s.runs[i].task
    requires run.used == s.runs[i].used || run.used == Some(|QaRevisions(s.g.tasks, s.post)|)
    ensures Counted(s.(runs := s.runs[i := run]))
  {
    hide QaRevisions;
    var after := s.(runs := s.runs[i := run]);
    forall j | 0 <= j < |after.runs| ensures CountIsFresh(after, after.runs[j]) {
      assert CountIsFresh(s, s.runs[j]);
    }
  }

  /** A chain is only added when every task of the post has SUCCEEDED, so no run's count matters any more. */
  lemma ReviseCounted(s: State, target: Target, enabled: set<Action>, fromQa: bool, verdicts: set<nat>)
    requires Counted(s) && Write in enabled
    requires forall t: nat :: Mine(s, t) ==> s.g.tasks[t].status == Succeeded
    requires verdicts == s.verdicts || (fromQa && |s.verdicts| < s.maxQa && verdicts == s.verdicts + {s.revision + 1})
    ensures Counted(Revise(s, target, enabled, fromQa).(verdicts := verdicts))
  {
    var actions := RevisionActions(target, enabled);
    RevisionActionsChain(target, enabled);
    NonemptyChain(actions);
    AppendCount(s.g.tasks, s.post, s.revision + 1, actions, fromQa);
    hide QaRevisions, RevisionActions;
    var after := Revise(s, target, enabled, fromQa).(verdicts := verdicts);
    forall i | 0 <= i < |after.runs| ensures CountIsFresh(after, after.runs[i]) {
      assert CountIsFresh(s, s.runs[i]);
      assert after.g.tasks[s.runs[i].task] == s.g.tasks[s.runs[i].task];
    }
  }

  lemma AllSucceeded(s: State)
    requires Kept(s) && QaDone(s.g.tasks, s.order[s.revision])
    ensures forall t: nat :: Mine(s, t) ==> s.g.tasks[t].status == Succeeded
  {
    hide Sound, Linked, ChainOfActions;
    forall t: nat | Mine(s, t) ensures s.g.tasks[t].status == Succeeded {
      var r := s.g.tasks[t].revision;
      var k :| 0 <= k < |s.order[r]| && s.order[r][k] == t;
      FinishedChain(s.g, s.post, s.order[r], r, k);
    }
  }

  lemma MoveCounted(s: State, t: TaskId, move: Move, after: State)
    requires Counted(s) && after.g == MoveTask(s.g, t, move)
    requires after.post == s.post && after.runs == s.runs && after.verdicts == s.verdicts && after.maxQa == s.maxQa
    ensures Counted(after)
  {
    hide QaRevisions, Counted;
    MoveMineKept(s.g, t, move, s.post);
    MineKeptCounted(s, after);
  }

  lemma FinishCounted(s: State, i: nat, gaps: bool)
    requires Counted(s)
    ensures Counted(FinishWriteRun(s, i, gaps))
  {
    if RunOf(s, i, Write) && CanMove(s.g.tasks, s.runs[i].task, Succeed) {
      var w := s.runs[i].task;
      var done := s.(g := MoveTask(s.g, w, Succeed));
      MoveCounted(s, w, Succeed, done);
      var after := FinishWriteRun(s, i, gaps);
      SpliceCount(done.g.tasks, w, s.post);
      hide QaRevisions;
      forall j | 0 <= j < |s.runs| ensures CountIsFresh(after, s.runs[j]) {
        assert CountIsFresh(done, s.runs[j]);
      }
    }
  }

  /** Once QA's task has SUCCEEDED, every task of the post has. */
  lemma QaLeavesNothing(s: State, q: TaskId)
    requires Kept(s) && Mine(s, q) && s.g.tasks[q].action == Qa && CanMove(s.g.tasks, q, Succeed)
    ensures var done := s.(g := MoveTask(s.g, q, Succeed));
            forall t: nat :: Mine(done, t) ==> done.g.tasks[t].status == Succeeded
  {
    hide Kept, QaDone, MoveTask;
    var done := s.(g := MoveTask(s.g, q, Succeed));
    QaMoveDone(s, q);
    MoveKeeps(s, q, Succeed, done);
    KeptSound(done);
    AllSucceeded(done);
  }

  lemma QaReviseCounted(s: State, i: nat, target: Target, enabled: set<Action>)
    requires Kept(s) && Counted(s) && Write in enabled
    ensures Counted(QaRevise(s, i, target, enabled))
  {
    hide Kept, Revise, QaRevisions, MoveTask;
    if RunOf(s, i, Qa) && s.runs[i].used.Some? && s.runs[i].used.value < s.maxQa && CanMove(s.g.tasks, s.runs[i].task, Succeed) {
      var q := s.runs[i].task;
      var done := s.(g := MoveTask(s.g, q, Succeed));
      QaLeavesNothing(s, q);
      assert CountIsFresh(s, s.runs[i]);
      SubsetSize(s.verdicts, QaRevisions(s.g.tasks, s.post));
      MoveCounted(s, q, Succeed, done);
      hide Counted, CountIsFresh;
      ReviseCounted(done, target, enabled, true, s.verdicts + {s.revision + 1});
    }
  }

  lemma RoutedCounted(s: State, target: Target, enabled: set<Action>, fromQa: bool)
    requires Kept(s) && Counted(s) && Write in enabled && !Posts.InProduction(s.status)
    ensures Counted(Revise(s.(status := Posts.PostStatus.ChangesRequested), target, enabled, fromQa))
  {
    AllSucceeded(s);
    var opened' := s.(status := Posts.PostStatus.ChangesRequested);
    forall i | 0 <= i < |s.runs| ensures CountIsFresh(opened', s.runs[i]) {
      assert CountIsFresh(s, s.runs[i]);
    }
    hide Kept, Revise;
    ReviseCounted(opened', target, enabled, fromQa, s.verdicts);
    assert Revise(opened', target, enabled, fromQa).(verdicts := s.verdicts) == Revise(opened', target, enabled, fromQa) by {
      ReviseKeepsVerdicts(opened', target, enabled, fromQa);
    }
  }

  lemma ReviseKeepsVerdicts(s: State, target: Target, enabled: set<Action>, fromQa: bool)
    ensures Revise(s, target, enabled, fromQa).verdicts == s.verdicts
  {
  }

  lemma StatusCounted(s: State, status: PostStatus)
    requires Counted(s)
    ensures Counted(s.(status := status))
  {
    hide QaRevisions;
    forall i | 0 <= i < |s.runs| ensures CountIsFresh(s.(status := status), s.runs[i]) {
      assert CountIsFresh(s, s.runs[i]);
    }
  }

  lemma LoadCounted(s: State, t: TaskId)
    requires Counted(s)
    ensures Counted(Load(s, t))
  {
    hide QaRevisions;
    if Load(s, t) != s {
      var after := Load(s, t);
      forall i | 0 <= i < |after.runs| ensures CountIsFresh(after, after.runs[i]) {
        if i < |s.runs| {
          assert CountIsFresh(s, s.runs[i]);
        }
      }
    }
  }

  lemma StepCounted(s: State, step: Revisions.Step)
    requires Kept(s) && Counted(s) && WriteEnabled(step)
    ensures Counted(Revisions.Next(s, step))
  {
    hide Kept, Counted, Revise, MoveTask, CancelAll, Load, FinishWriteRun, QaRevise, QaRevisions;
    match step
    case SElsewhere(graphStep) =>
      if Elsewhere(s, graphStep) {
        ElsewhereMineKept(s, graphStep);
        MineKeptCounted(s, s.(g := LiveGraph.Next(s.g, graphStep)));
      }
    case SLoad(t) => LoadCounted(s, t);
    case SStart(i) =>
      if RunIs(s, i, Loaded) && CanMove(s.g.tasks, s.runs[i].task, Start) {
        RunCounted(s, i, s.runs[i].(phase := Started));
        MoveCounted(s.(runs := s.runs[i := s.runs[i].(phase := Started)]), s.runs[i].task, Start, StartRun(s, i));
      }
    case SEnter(i) =>
      if RunIs(s, i, Started) {
        RunCounted(s, i, s.runs[i].(phase := Entered));
        StatusCounted(s.(runs := s.runs[i := s.runs[i].(phase := Entered)]), EnterRun(s, i).status);
      }
    case SCount(i) => if RunOf(s, i, Qa) { RunCounted(s, i, s.runs[i].(used := Some(|QaRevisions(s.g.tasks, s.post)|))); }
    case SFinish(i, gaps) => FinishCounted(s, i, gaps);
    case SPlan(i) => if RunOf(s, i, Direct) { MoveCounted(s, s.runs[i].task, Wait, PlanRun(s, i)); }
    case SQaSend(i) =>
      if RunOf(s, i, Qa) {
        StatusCounted(s, QaSend(s, i).status);
        MoveCounted(s.(status := QaSend(s, i).status), s.runs[i].task, Succeed, QaSend(s, i).(g := MoveTask(s.g, s.runs[i].task, Succeed)));
      }
    case SQaRevise(i, target, enabled) => QaReviseCounted(s, i, target, enabled);
    case STask(t, move) => if Mine(s, t) { MoveCounted(s, t, move, s.(g := MoveTask(s.g, t, move))); }
    case SHumanFeedback(target, enabled) => if HumanFeedback(s, target, enabled) != s { RoutedCounted(s, target, enabled, false); }
    case SReopen(target, enabled, fromQa) => if Reopen(s, target, enabled, fromQa) != s { RoutedCounted(s, target, enabled, fromQa); }
    case SPostMoves(to) => StatusCounted(s, PostMoves(s, to).status);
    case SArchive =>
      CancelMineKept(s.g, s.post);
      MineKeptCounted(s, s.(archived := true, g := CancelAll(s.g)));
  }

  // ---------------------------------------------------------------- the bounds

  lemma {:induction false} ExecCounted(s: State, steps: seq<Revisions.Step>)
    requires Kept(s) && Counted(s) && WritesEnabled(steps)
    ensures Kept(Revisions.Exec(s, steps)) && Counted(Revisions.Exec(s, steps))
    decreases |steps|
  {
    hide Kept, Counted, Revisions.Next;
    if steps != [] {
      StepKeeps(s, steps[0]);
      StepCounted(s, steps[0]);
      ExecCounted(Revisions.Next(s, steps[0]), steps[1..]);
    }
  }

  /** Whatever runs overlap and however old the count a run acts on, QA's verdict opens at most
      MAX_QA_REVISIONS chains, none of them of more than four tasks. */
  lemma QaRevisesAtMostMaxTimes(s: State, steps: seq<Revisions.Step>)
    requires Kept(s) && Counted(s) && WritesEnabled(steps)
    ensures var end := Revisions.Exec(s, steps);
            && |end.verdicts| <= end.maxQa
            && forall r :: 0 <= r < |end.order| ==> |end.order[r]| <= 4
  {
    ExecCounted(s, steps);
    var end := Revisions.Exec(s, steps);
    hide Revisions.Exec;
    forall r | 0 <= r < |end.order| ensures |end.order[r]| <= 4 {
      assert Linked(end.g.tasks, end.post, end.order[r], r);
    }
  }

  /** No person and no publish guard takes part. */
  predicate Automatic(step: Revisions.Step) {
    !step.SHumanFeedback? && !step.SReopen?
  }

  ghost predicate AllAutomatic(steps: seq<Revisions.Step>) {
    forall step :: step in steps ==> Automatic(step)
  }

  /** Every chain after the first was opened by QA's verdict. */
  ghost predicate VerdictsOnly(s: State) {
    forall r :: r in s.verdicts <==> 1 <= r <= s.revision
  }

  lemma StepVerdicts(s: State, step: Revisions.Step)
    requires VerdictsOnly(s) && Automatic(step)
    ensures VerdictsOnly(Revisions.Next(s, step)) && Revisions.Next(s, step).maxQa == s.maxQa
  {
    hide RevisionActions, Append, LiveGraph.Next, FinishWrite, MoveTask, CancelAll;
  }

  lemma {:induction false} ExecVerdicts(s: State, steps: seq<Revisions.Step>)
    requires VerdictsOnly(s) && AllAutomatic(steps)
    ensures VerdictsOnly(Revisions.Exec(s, steps)) && Revisions.Exec(s, steps).maxQa == s.maxQa
    decreases |steps|
  {
    hide Revisions.Next;
    if steps != [] {
      StepVerdicts(s, steps[0]);
      ExecVerdicts(Revisions.Next(s, steps[0]), steps[1..]);
    }
  }

  lemma {:induction false} SizeOfOneTo(n: nat, some: set<nat>)
    requires forall r :: r in some <==> 1 <= r <= n
    ensures |some| == n
  {
    if n == 0 {
      assert some == {};
    } else {
      SizeOfOneTo(n - 1, some - {n});
    }
  }

  /** Automatic production ends: at most MAX_QA_REVISIONS + 1 chains of at most four tasks. */
  lemma AutomaticProductionIsBounded(s: State, steps: seq<Revisions.Step>)
    requires Kept(s) && Counted(s) && VerdictsOnly(s) && WritesEnabled(steps) && AllAutomatic(steps)
    ensures var end := Revisions.Exec(s, steps);
            && end.revision <= s.maxQa && |end.order| == end.revision + 1
            && forall r :: 0 <= r < |end.order| ==> |end.order[r]| <= 4
  {
    ExecCounted(s, steps);
    ExecVerdicts(s, steps);
    QaRevisesAtMostMaxTimes(s, steps);
    hide Revisions.Exec, QaRevisions;
    SizeOfOneTo(Revisions.Exec(s, steps).revision, Revisions.Exec(s, steps).verdicts);
  }
}
