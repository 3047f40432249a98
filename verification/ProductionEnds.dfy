/** Automatic production ends (modules Revisions and RevisionBounds): a number that every change to a
    post's tasks, revision or runs brings down, unless it repeats what was done before. */
module ProductionEnds {
  import opened Options
  import opened TaskGraph
  import opened LiveGraph
  import opened Revisions
  import opened RevisionChains
  import opened RevisionBounds
  import Posts = PostLifecycle

  // ---------------------------------------------------------------- the number

  /** How far a task is from its end. */
  function Rank(status: TaskStatus): nat {
    match status
    case Pending => 5
    case Queued => 4
    case Running => 3
    case Waiting => 2
    case BlockedBudget => 1
    case Escalated => 1
    case Failed => 1
    case Succeeded => 0
    case Cancelled => 0
  }

  /** A write not done yet may have a direct spliced in after it. */
  const SPLICE: nat := 6
  const MOST: nat := 11
  const CHAIN: nat := 4 * MOST

  function Left(task: Task): (n: nat)
    ensures n <= MOST
  {
    Rank(task.status) + if task.action == Write && task.status != Succeeded && task.status != Cancelled then SPLICE else 0
  }

  /** What is left of the post's tasks. */
  function LeftOf(tasks: Tasks, post: PostRef): nat {
    if tasks == [] then 0
    else
      var last := tasks[|tasks| - 1];
      LeftOf(tasks[..|tasks| - 1], post) + if last.post == Some(post) then Left(last) else 0
  }

  function PhaseLeft(phase: Phase): nat {
    match phase
    case Loaded => 2
    case Started => 1
    case Entered => 0
  }

  function RunsLeft(runs: seq<Run>): nat {
    if runs == [] then 0 else RunsLeft(runs[..|runs| - 1]) + PhaseLeft(runs[|runs| - 1].phase)
  }

  /** The revisions QA may still open, the tasks there are, and the runs under way. */
  function AllLeft(s: State): nat {
    (if s.revision <= s.maxQa then (s.maxQa - s.revision) * CHAIN else 0) + LeftOf(s.g.tasks, s.post) + RunsLeft(s.runs)
  }

  /** The post's tasks stand where they stood, every run is as far as it was, and a post in production has
      its status. */
  ghost predicate SameWork(s: State, after: State) {
    && after.revision == s.revision && (Posts.InProduction(s.status) ==> after.status == s.status)
    && |s.g.tasks| <= |after.g.tasks|
    && (forall t :: 0 <= t < |s.g.tasks| && s.g.tasks[t].post == Some(s.post) ==> after.g.tasks[t].status == s.g.tasks[t].status)
    && (forall t :: |s.g.tasks| <= t < |after.g.tasks| ==> after.g.tasks[t].post != Some(s.post))
    && |after.runs| == |s.runs| && forall i :: 0 <= i < |s.runs| ==> after.runs[i].phase == s.runs[i].phase
  }

  /** What is done again: a message delivered again, and a task put back in the queue (by the sweeper, a
      budget with room again, or a person's retry). */
  predicate Repeats(step: Revisions.Step) {
    step.SLoad? || (step.STask? && step.move.Requeue?)
  }

  // ---------------------------------------------------------------- sums

  lemma LeftOfOneMore(tasks: Tasks, task: Task, post: PostRef)
    ensures LeftOf(tasks + [task], post) == LeftOf(tasks, post) + if task.post == Some(post) then Left(task) else 0
  {
    assert (tasks + [task])[..|tasks|] == tasks;
  }

  lemma {:induction false} LeftOfMore(tasks: Tasks, more: Tasks, post: PostRef)
    ensures LeftOf(tasks + more, post) == LeftOf(tasks, post) + LeftOf(more, post)
    decreases |more|
  {
    if more == [] {
      assert tasks + more == tasks;
    } else {
      var rest, last := more[..|more| - 1], more[|more| - 1];
      LeftOfMore(tasks, rest, post);
      LeftOfOneMore(tasks + rest, last, post);
      LeftOfOneMore(rest, last, post);
      assert tasks + more == tasks + rest + [last] && more == rest + [last];
    }
  }

  lemma {:induction false} LeftOfAtMost(tasks: Tasks, post: PostRef)
    ensures LeftOf(tasks, post) <= |tasks| * MOST
  {
    if tasks != [] {
      LeftOfAtMost(tasks[..|tasks| - 1], post);
    }
  }

  /** Each of the post's tasks only moves closer to its end. */
  ghost predicate Nearer(before: Tasks, after: Tasks, post: PostRef) {
    |after| == |before| && forall t :: 0 <= t < |before| ==>
      && after[t].post == before[t].post
      && (before[t].post == Some(post) ==>
            Left(after[t]) <= Left(before[t]) && (Left(after[t]) == Left(before[t]) ==> after[t].status == before[t].status))
  }

  lemma {:induction false} NearerLeft(before: Tasks, after: Tasks, post: PostRef)
    requires Nearer(before, after, post)
    ensures LeftOf(after, post) <= LeftOf(before, post)
    ensures LeftOf(after, post) == LeftOf(before, post) ==>
      forall t :: 0 <= t < |before| && before[t].post == Some(post) ==> after[t].status == before[t].status
    decreases |before|
  {
    if before != [] {
      var n := |before| - 1;
      assert forall t :: 0 <= t < n ==> before[..n][t] == before[t] && after[..n][t] == after[t];
      NearerLeft(before[..n], after[..n], post);
      if LeftOf(after, post) == LeftOf(before, post) {
        forall t | 0 <= t < |before| && before[t].post == Some(post) ensures after[t].status == before[t].status {
          if t < n {
            assert before[..n][t].post == Some(post);
          }
        }
      }
    }
  }

  lemma {:induction false} RunMovesLeft(runs: seq<Run>, i: nat, run: Run)
    requires i < |runs|
    ensures RunsLeft(runs[i := run]) == RunsLeft(runs) - PhaseLeft(runs[i].phase) + PhaseLeft(run.phase)
    ensures RunsLeft(runs) >= PhaseLeft(runs[i].phase)
  {
    var n := |runs| - 1;
    if i < n {
      RunMovesLeft(runs[..n], i, run);
      assert runs[i := run][..n] == runs[..n][i := run];
    } else {
      assert runs[i := run][..n] == runs[..n];
    }
  }

  lemma {:induction false} TaskMovesLeft(tasks: Tasks, t: TaskId, task: Task, post: PostRef)
    requires t < |tasks| && tasks[t].post == Some(post) == task.post
    ensures LeftOf(tasks[t := task], post) == LeftOf(tasks, post) - Left(tasks[t]) + Left(task)
    ensures LeftOf(tasks, post) >= Left(tasks[t])
  {
    var n := |tasks| - 1;
    if t < n {
      TaskMovesLeft(tasks[..n], t, task, post);
      assert tasks[t := task][..n] == tasks[..n][t := task];
    } else {
      assert tasks[t := task][..n] == tasks[..n];
    }
  }

  // ---------------------------------------------------------------- the steps

  /** Fewer left, or nothing done. */
  ghost predicate Falls(s: State, after: State) {
    AllLeft(after) < AllLeft(s) || (SameWork(s, after) && AllLeft(after) == AllLeft(s))
  }

  lemma NearerFalls(s: State, after: State)
    requires Nearer(s.g.tasks, after.g.tasks, s.post)
    requires after.post == s.post && after.status == s.status && after.revision == s.revision && after.maxQa == s.maxQa
    requires after.runs == s.runs
    ensures Falls(s, after)
  {
    NearerLeft(s.g.tasks, after.g.tasks, s.post);
  }

  /** A run gets further, and its task no further back. */
  lemma RunFalls(s: State, after: State, i: nat, run: Run)
    requires i < |s.runs| && after.runs == s.runs[i := run] && PhaseLeft(run.phase) < PhaseLeft(s.runs[i].phase)
    requires Nearer(s.g.tasks, after.g.tasks, s.post)
    requires after.post == s.post && after.revision == s.revision && after.maxQa == s.maxQa
    ensures AllLeft(after) < AllLeft(s)
  {
    NearerLeft(s.g.tasks, after.g.tasks, s.post);
    RunMovesLeft(s.runs, i, run);
  }

  lemma MoveNearer(g: Graph, t: TaskId, move: Move, post: PostRef)
    requires !move.Requeue?
    ensures Nearer(g.tasks, MoveTask(g, t, move).tasks, post)
  {
  }

  lemma MoveFalls(s: State, t: TaskId, move: Move, after: State)
    requires !move.Requeue? && after.g == MoveTask(s.g, t, move)
    requires after.post == s.post && after.status == s.status && after.revision == s.revision && after.maxQa == s.maxQa
    requires after.runs == s.runs
    ensures Falls(s, after)
  {
    hide MoveTask;
    MoveNearer(s.g, t, move, s.post);
    NearerFalls(s, after);
  }

  lemma QueueNearer(g: Graph, list: set<TaskId>, post: PostRef)
    ensures Nearer(g.tasks, LiveGraph.Queue(g, list).tasks, post)
  {
  }

  lemma CancelNearer(g: Graph, post: PostRef)
    ensures Nearer(g.tasks, CancelAll(g).tasks, post)
  {
  }

  lemma {:induction false} NoneMineLeft(tasks: Tasks, post: PostRef)
    requires forall t :: 0 <= t < |tasks| ==> tasks[t].post != Some(post)
    ensures LeftOf(tasks, post) == 0
  {
    if tasks != [] {
      NoneMineLeft(tasks[..|tasks| - 1], post);
    }
  }

  /** Others' tasks come and go; the post's own stand still. */
  lemma AsideFalls(s: State, after: State)
    requires |s.g.tasks| <= |after.g.tasks| && Nearer(s.g.tasks, after.g.tasks[..|s.g.tasks|], s.post)
    requires forall t :: |s.g.tasks| <= t < |after.g.tasks| ==> after.g.tasks[t].post != Some(s.post)
    requires after.post == s.post && after.status == s.status && after.revision == s.revision && after.maxQa == s.maxQa
    requires after.runs == s.runs
    ensures Falls(s, after)
  {
    var n := |s.g.tasks|;
    NearerLeft(s.g.tasks, after.g.tasks[..n], s.post);
    LeftOfMore(after.g.tasks[..n], after.g.tasks[n..], s.post);
    NoneMineLeft(after.g.tasks[n..], s.post);
    assert after.g.tasks[..n] + after.g.tasks[n..] == after.g.tasks;
  }

  lemma ElsewhereFalls(s: State, step: LiveGraph.Step)
    requires Elsewhere(s, step)
    ensures Falls(s, s.(g := LiveGraph.Next(s.g, step)))
  {
    var after := s.(g := LiveGraph.Next(s.g, step));
    if step.SQueue? {
      QueueNearer(s.g, step.list, s.post);
      NearerFalls(s, after);
    } else {
      ElsewhereMineKept(s, step);
      hide Falls, LiveGraph.Next, Elsewhere;
      ElsewhereStays(s, step);
      AsideFalls(s, after);
    }
  }

  lemma ElsewhereStays(s: State, step: LiveGraph.Step)
    requires Elsewhere(s, step) && !step.SQueue?
    ensures var after := LiveGraph.Next(s.g, step).tasks;
      && |s.g.tasks| <= |after| && Nearer(s.g.tasks, after[..|s.g.tasks|], s.post)
      && forall t :: |s.g.tasks| <= t < |after| ==> after[t].post != Some(s.post)
  {
  }

  lemma SplicedLeft(done: Tasks, w: TaskId, post: PostRef)
    requires w < |done| && done[w].post == Some(post)
    ensures LeftOf(Splice(done, w), post) <= LeftOf(done, post) + Rank(Pending)
  {
    if !HasDirect(done, w) {
      var after, n := Splice(done, w), |done|;
      assert Nearer(done, after[..n], post);
      NearerLeft(done, after[..n], post);
      assert after == after[..n] + [after[n]];
      LeftOfOneMore(after[..n], after[n], post);
    }
  }

  /** A write leaves more behind it than the direct it may have spliced in. */
  lemma FinishFalls(s: State, i: nat, gaps: bool)
    ensures Falls(s, FinishWriteRun(s, i, gaps))
  {
    if RunOf(s, i, Write) && CanMove(s.g.tasks, s.runs[i].task, Succeed) {
      var w, after := s.runs[i].task, FinishWriteRun(s, i, gaps);
      var done := SetStatus(s.g.tasks, w, Succeeded);
      TaskMovesLeft(s.g.tasks, w, done[w], s.post);
      SplicedLeft(done, w, s.post);
      hide LeftOf, RunsLeft, Splice, HasDirect, SameWork;
    }
  }

  lemma RevisedLeft(s: State, target: Target, enabled: set<Action>)
    requires Write in enabled
    ensures LeftOf(Revise(s, target, enabled, true).g.tasks, s.post) <= LeftOf(s.g.tasks, s.post) + CHAIN
  {
    RevisionActionsChain(target, enabled);
    var actions := RevisionActions(target, enabled);
    hide RevisionActions;
    var chain := NewChain(Some(s.post), s.revision + 1, actions, true, |s.g.tasks|);
    LeftOfMore(s.g.tasks, chain, s.post);
    LeftOfAtMost(chain, s.post);
  }

  lemma VerdictCounts(s: State)
    requires Counted(s) && VerdictsOnly(s)
    ensures s.revision <= s.maxQa
  {
    hide QaRevisions;
    SizeOfOneTo(s.revision, s.verdicts);
  }

  /** The chain QA's verdict adds is one of those still to come. */
  lemma RevisionPays(s: State, done: State, after: State)
    requires LeftOf(done.g.tasks, s.post) < LeftOf(s.g.tasks, s.post) && LeftOf(after.g.tasks, s.post) <= LeftOf(done.g.tasks, s.post) + CHAIN
    requires after.post == s.post && after.runs == s.runs && after.maxQa == s.maxQa && after.revision == s.revision + 1 <= s.maxQa
    ensures AllLeft(after) < AllLeft(s)
  {
    hide LeftOf, RunsLeft;
    assert (s.maxQa - after.revision) * CHAIN == (s.maxQa - s.revision) * CHAIN - CHAIN;
  }

  lemma QaReviseFalls(s: State, i: nat, target: Target, enabled: set<Action>)
    requires Kept(s) && Counted(s) && VerdictsOnly(s) && Write in enabled
    ensures Falls(s, QaRevise(s, i, target, enabled))
  {
    hide Kept, Counted, VerdictsOnly, RevisionActions, Append, NewIds, QaRevisions, LeftOf, RunsLeft, AllLeft;
    var after := QaRevise(s, i, target, enabled);
    if RunOf(s, i, Qa) && s.runs[i].used.Some? && s.runs[i].used.value < s.maxQa && CanMove(s.g.tasks, s.runs[i].task, Succeed) {
      var q := s.runs[i].task;
      var done := s.(g := MoveTask(s.g, q, Succeed));
      QaReviseCounted(s, i, target, enabled);
      StepVerdicts(s, SQaRevise(i, target, enabled));
      VerdictCounts(after);
      TaskMovesLeft(s.g.tasks, q, done.g.tasks[q], s.post);
      RevisedLeft(done, target, enabled);
      RevisionPays(s, done, after);
    } else {
      SameFalls(s, s);
    }
  }

  lemma StartFalls(s: State, i: nat)
    ensures Falls(s, StartRun(s, i))
  {
    if RunIs(s, i, Loaded) && CanMove(s.g.tasks, s.runs[i].task, Start) {
      hide MoveTask;
      MoveNearer(s.g, s.runs[i].task, Start, s.post);
      RunFalls(s, StartRun(s, i), i, s.runs[i].(phase := Started));
    }
  }

  lemma EnterFalls(s: State, i: nat)
    ensures Falls(s, EnterRun(s, i))
  {
    if RunIs(s, i, Started) {
      RunFalls(s, EnterRun(s, i), i, s.runs[i].(phase := Entered));
    }
  }

  lemma CountFalls(s: State, i: nat)
    ensures Falls(s, CountRun(s, i))
  {
    if RunOf(s, i, Qa) {
      hide QaRevisions;
      RunMovesLeft(s.runs, i, s.runs[i].(used := Some(|QaRevisions(s.g.tasks, s.post)|)));
    }
  }

  lemma SendFalls(s: State, i: nat)
    requires QaSend(s, i) != s
    ensures Falls(s, QaSend(s, i))
  {
    var q := s.runs[i].task;
    TaskMovesLeft(s.g.tasks, q, QaSend(s, i).g.tasks[q], s.post);
  }

  /** Every step no person and no publish guard takes, repeats aside, brings the number down or does
      nothing to the post's tasks, revision and runs. */
  lemma AutomaticStepFalls(s: State, step: Revisions.Step)
    requires Kept(s) && Counted(s) && VerdictsOnly(s) && WriteEnabled(step) && Automatic(step) && !Repeats(step)
    ensures Falls(s, Revisions.Next(s, step))
  {
    hide Falls, Kept, Counted, VerdictsOnly, MoveTask, FinishWriteRun, QaRevise, StartRun, EnterRun, CountRun, CancelAll, LiveGraph.Next;
    match step
    case SElsewhere(graphStep) => if Elsewhere(s, graphStep) { ElsewhereFalls(s, graphStep); } else { SameFalls(s, s); }
    case SStart(i) => StartFalls(s, i);
    case SEnter(i) => EnterFalls(s, i);
    case SCount(i) => CountFalls(s, i);
    case SFinish(i, gaps) => FinishFalls(s, i, gaps);
    case SPlan(i) => if RunOf(s, i, Direct) { MoveFalls(s, s.runs[i].task, Wait, PlanRun(s, i)); } else { SameFalls(s, s); }
    case SQaSend(i) =>
      if QaSend(s, i) == s { SameFalls(s, s); } else { SendFalls(s, i); }
    case SQaRevise(i, target, enabled) => QaReviseFalls(s, i, target, enabled);
    case STask(t, move) => if TaskMoves(s, t, move) == s { SameFalls(s, s); } else { MoveFalls(s, t, move, TaskMoves(s, t, move)); }
    case SPostMoves(to) => SameFalls(s, PostMoves(s, to));
    case SArchive =>
      CancelNearer(s.g, s.post);
      NearerFalls(s, Revisions.Next(s, SArchive));
  }

  lemma SameFalls(s: State, after: State)
    requires Posts.InProduction(s.status) ==> after.status == s.status
    requires after.g == s.g && after.post == s.post && after.revision == s.revision && after.maxQa == s.maxQa && after.runs == s.runs
    ensures Falls(s, after)
  {
  }

  /** What is done again costs at most three steps more. */
  lemma RepeatCosts(s: State, step: Revisions.Step)
    requires Repeats(step)
    ensures AllLeft(Revisions.Next(s, step)) <= AllLeft(s) + 3
  {
    match step
    case SLoad(t) =>
      if Load(s, t) != s {
        var after := Load(s, t);
        assert after.runs[..|s.runs|] == s.runs;
      }
    case STask(t, move) =>
      if Mine(s, t) && CanMove(s.g.tasks, t, move) {
        TaskMovesLeft(s.g.tasks, t, s.g.tasks[t].(status := Queued), s.post);
      }
  }

  // ---------------------------------------------------------------- every run

  /** The steps of a run that did something, repeats aside. */
  ghost function Changes(s: State, steps: seq<Revisions.Step>): nat
    decreases |steps|
  {
    if steps == [] then 0
    else
      var after := Revisions.Next(s, steps[0]);
      (if Repeats(steps[0]) || SameWork(s, after) then 0 else 1) + Changes(after, steps[1..])
  }

  function RepeatsIn(steps: seq<Revisions.Step>): nat {
    if steps == [] then 0 else (if Repeats(steps[0]) then 1 else 0) + RepeatsIn(steps[1..])
  }

  lemma {:induction false} ChangesAreBounded(s: State, steps: seq<Revisions.Step>)
    requires Kept(s) && Counted(s) && VerdictsOnly(s) && WritesEnabled(steps) && AllAutomatic(steps)
    ensures Changes(s, steps) + AllLeft(Revisions.Exec(s, steps)) <= AllLeft(s) + 3 * RepeatsIn(steps)
    decreases |steps|
  {
    hide Kept, Counted, VerdictsOnly, Revisions.Next, AllLeft, SameWork;
    if steps != [] {
      var after := Revisions.Next(s, steps[0]);
      StepKeeps(s, steps[0]);
      StepCounted(s, steps[0]);
      StepVerdicts(s, steps[0]);
      if Repeats(steps[0]) {
        RepeatCosts(s, steps[0]);
      } else {
        AutomaticStepFalls(s, steps[0]);
      }
      ChangesAreBounded(after, steps[1..]);
    }
  }

  lemma {:induction false} LeftOfThese(tasks: Tasks, post: PostRef, ids: seq<TaskId>)
    requires forall t :: 0 <= t < |tasks| && tasks[t].post == Some(post) ==> t in ids
    ensures LeftOf(tasks, post) <= |ids| * MOST
    decreases |tasks|
  {
    if tasks != [] {
      var n := |tasks| - 1;
      if tasks[n].post == Some(post) {
        var k :| 0 <= k < |ids| && ids[k] == n;
        var others := ids[..k] + ids[k + 1..];
        forall t | 0 <= t < n && tasks[..n][t].post == Some(post) ensures t in others {
          var j :| 0 <= j < |ids| && ids[j] == t;
          assert others[if j < k then j else j - 1] == t;
        }
        LeftOfThese(tasks[..n], post, others);
      } else {
        LeftOfThese(tasks[..n], post, ids);
      }
    }
  }

  /** From a planned post's start (module RevisionStart): without a person or a publish guard production
      ends. It does at most 44 things a chain, and three more for each message delivered or task queued again. */
  lemma ProductionEnds(s: State, steps: seq<Revisions.Step>)
    requires Kept(s) && Counted(s) && VerdictsOnly(s) && s.revision == 0 && s.runs == []
    requires WritesEnabled(steps) && AllAutomatic(steps)
    ensures Changes(s, steps) <= (s.maxQa + 1) * CHAIN + 3 * RepeatsIn(steps)
  {
    BeginLeft(s);
    hide Kept, Counted, VerdictsOnly, Changes, AllLeft, Revisions.Exec;
    ChangesAreBounded(s, steps);
  }

  lemma BeginLeft(s: State)
    requires Kept(s) && s.revision == 0 && s.runs == []
    ensures AllLeft(s) <= (s.maxQa + 1) * CHAIN
  {
    hide Sound;
    var chain := s.order[0];
    assert Linked(s.g.tasks, s.post, chain, 0);
    forall t | 0 <= t < |s.g.tasks| && s.g.tasks[t].post == Some(s.post) ensures t in chain {}
    LeftOfThese(s.g.tasks, s.post, chain);
  }
}
