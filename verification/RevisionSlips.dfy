/** Runs on which QA's required move does throw (module RevisionStatus): both conditions of Prompt are
    needed. And one on which a stalled run moves a post that is past production. */
module RevisionSlips {
  import opened Options
  import opened TaskGraph
  import opened LiveGraph
  import opened Revisions
  import opened RevisionChains
  import opened RevisionStatus
  import Posts = PostLifecycle

  /** One more step in front of a run. */
  lemma StepBefore(s: State, step: Revisions.Step, steps: seq<Revisions.Step>) returns (longer: seq<Revisions.Step>)
    requires WritesEnabled(steps) && WriteEnabled(step)
    ensures WritesEnabled(longer) && Revisions.Exec(s, longer) == Revisions.Exec(Revisions.Next(s, step), steps)
  {
    hide Revisions.Next;
    longer := [step] + steps;
    assert longer[1..] == steps;
  }

  // ---------------------------------------------------------------- a late duplicate run

  /** A post with a write and a QA task. */
  function Planned(write: TaskStatus, qa: TaskStatus, lists: set<set<TaskId>>, runs: seq<Run>, status: PostStatus): State {
    State(Graph([Task(Some("p1"), Write, 0, write, [], false), Task(Some("p1"), Qa, 0, qa, [0], false)], lists),
          "p1", status, 0, false, runs, [[0, 1]], {}, 2)
  }

  const FRESH := Planned(Pending, Pending, {}, [], Posts.PostStatus.Idea)
  /** Two runs of the write: one has moved the post to DRAFTING, the other is about to. */
  const OVERLAPPING := Planned(Running, Pending, {{0}},
    [Run(0, Posts.PostStatus.Idea, Entered, None), Run(0, Posts.PostStatus.Idea, Started, None)], Posts.PostStatus.Drafting)
  const REVIEWED := Planned(Succeeded, Running, {{0}, {1}},
    [Run(0, Posts.PostStatus.Idea, Entered, None), Run(0, Posts.PostStatus.Idea, Started, None),
     Run(1, Posts.PostStatus.Drafting, Entered, None)], Posts.PostStatus.Qa)

  lemma PairLinked(tasks: Tasks, a: TaskId, b: TaskId, r: nat)
    requires a < |tasks| && b < |tasks| && tasks[a].post == tasks[b].post == Some("p1") && tasks[a].revision == tasks[b].revision == r
    requires tasks[a].action in {Write, Direct} && tasks[b].action == Qa && tasks[a].dependsOn == [] && tasks[b].dependsOn == [a]
    ensures Linked(tasks, "p1", [a, b], r)
  {
    assert ActionsOf(tasks, [a, b]) == [tasks[a].action, Qa];
  }

  /** A state without runs is on course when its status fits. */
  lemma RunlessOnCourse(s: State, first: TaskId, qa: TaskId)
    requires |s.order| == s.revision + 1 && s.order[s.revision] == [first, qa] && first < |s.g.tasks| && s.runs == []
    requires StatusFits(s, first, qa) && forall t :: 0 <= t < |s.g.tasks| ==> s.g.tasks[t].status != Waiting
    ensures OnCourse(s)
  {
    hide StatusFits;
  }

  lemma FreshSound()
    ensures Sound(FRESH.g)
  {
    assert Ranked(FRESH.g.tasks, [0, 1]);
  }

  lemma FreshIsOnCourse()
    ensures Kept(FRESH) && OnCourse(FRESH)
  {
    PairLinked(FRESH.g.tasks, 0, 1, 0);
    FreshSound();
    RunlessOnCourse(FRESH, 0, 1);
    hide Linked, Sound, OnCourse;
  }

  lemma FreshReady(write: TaskStatus)
    requires write in {Pending, Succeeded}
    ensures Ready(Planned(write, Pending, {}, [], Posts.PostStatus.Idea).g.tasks) == if write == Pending then {0} else {1}
  {
    var tasks := Planned(write, Pending, {}, [], Posts.PostStatus.Idea).g.tasks;
    assert tasks[1].dependsOn[0] == 0;
    assert DepsDone(tasks, 0) && (DepsDone(tasks, 1) <==> write == Succeeded);
  }

  const READ_FIRST := Planned(Pending, Pending, {{0}}, [], Posts.PostStatus.Idea)
  const QUEUED_FIRST := Planned(Queued, Pending, {{0}}, [], Posts.PostStatus.Idea)
  const STARTED_FIRST := Planned(Running, Pending, {{0}}, [Run(0, Posts.PostStatus.Idea, Started, None)], Posts.PostStatus.Idea)
  const STARTED_TWICE := Planned(Running, Pending, {{0}},
    [Run(0, Posts.PostStatus.Idea, Started, None), Run(0, Posts.PostStatus.Idea, Started, None)], Posts.PostStatus.Idea)

  lemma WriteIsQueued()
    ensures Revisions.Next(FRESH, SElsewhere(SRead)) == READ_FIRST
    ensures Revisions.Next(READ_FIRST, SElsewhere(SQueue({0}))) == QUEUED_FIRST
  {
    FreshReady(Pending);
  }

  lemma WriteRunsTwice()
    ensures Revisions.Next(Revisions.Next(QUEUED_FIRST, SLoad(0)), SStart(0)) == STARTED_FIRST
    ensures Revisions.Next(Revisions.Next(STARTED_FIRST, SLoad(0)), SStart(1)) == STARTED_TWICE
  {
  }

  lemma WriteEnters()
    ensures Revisions.Next(STARTED_TWICE, SEnter(0)) == OVERLAPPING
  {
  }

  lemma WriteStarts(tail: seq<Revisions.Step>) returns (steps: seq<Revisions.Step>)
    requires WritesEnabled(tail)
    ensures WritesEnabled(steps) && Revisions.Exec(FRESH, steps) == Revisions.Exec(OVERLAPPING, tail)
  {
    hide Revisions.Next;
    WriteIsQueued();
    WriteRunsTwice();
    WriteEnters();
    var loaded, again := Revisions.Next(QUEUED_FIRST, SLoad(0)), Revisions.Next(STARTED_FIRST, SLoad(0));
    steps := StepBefore(STARTED_TWICE, SEnter(0), tail);
    steps := StepBefore(again, SStart(1), steps);
    steps := StepBefore(STARTED_FIRST, SLoad(0), steps);
    steps := StepBefore(loaded, SStart(0), steps);
    steps := StepBefore(QUEUED_FIRST, SLoad(0), steps);
    steps := StepBefore(READ_FIRST, SElsewhere(SQueue({0})), steps);
    steps := StepBefore(FRESH, SElsewhere(SRead), steps);
  }

  lemma QaReviews(tail: seq<Revisions.Step>) returns (steps: seq<Revisions.Step>)
    requires WritesEnabled(tail)
    ensures WritesEnabled(steps) && Revisions.Exec(OVERLAPPING, steps) == Revisions.Exec(REVIEWED, tail)
  {
    var drafting, runs := Posts.PostStatus.Drafting, OVERLAPPING.runs;
    var written := Planned(Succeeded, Pending, {{0}}, runs, drafting);
    var read := Planned(Succeeded, Pending, {{0}, {1}}, runs, drafting);
    var queued := Planned(Succeeded, Queued, {{0}, {1}}, runs, drafting);
    var started := Planned(Succeeded, Running, {{0}, {1}}, runs + [Run(1, drafting, Started, None)], drafting);
    assert Revisions.Next(OVERLAPPING, SFinish(0, false)) == written;
    FreshReady(Succeeded);
    assert Revisions.Next(written, SElsewhere(SRead)) == read;
    assert Revisions.Next(read, SElsewhere(SQueue({1}))) == queued;
    var loaded := Revisions.Next(queued, SLoad(1));
    assert Revisions.Next(loaded, SStart(2)) == started;
    assert Revisions.Next(started, SEnter(2)) == REVIEWED;
    hide Revisions.Next;
    steps := StepBefore(started, SEnter(2), tail);
    steps := StepBefore(loaded, SStart(2), steps);
    steps := StepBefore(queued, SLoad(1), steps);
    steps := StepBefore(read, SElsewhere(SQueue({1})), steps);
    steps := StepBefore(written, SElsewhere(SRead), steps);
    steps := StepBefore(OVERLAPPING, SFinish(0, false), steps);
  }

  /** A second run of the write, started before the first finished, puts the post back to DRAFTING
      while QA is at work: QA's pass then throws. */
  lemma ALateRunMakesQaThrow()
    ensures exists s: State, steps: seq<Revisions.Step> ::
              && Kept(s) && OnCourse(s) && s.runs == [] && WritesEnabled(steps)
              && QaThrows(Revisions.Exec(s, steps), 2)
  {
    FreshIsOnCourse();
    var end := Revisions.Next(REVIEWED, SEnter(1));
    assert QaThrows(end, 2);
    hide Revisions.Next, Kept, OnCourse, QaThrows;
    var steps := [];
    assert Revisions.Exec(end, steps) == end;
    steps := StepBefore(REVIEWED, SEnter(1), steps);
    steps := QaReviews(steps);
    steps := WriteStarts(steps);
    assert Revisions.Exec(FRESH, steps) == end;
  }

  // ---------------------------------------------------------------- a late run on a post past production

  /** A status update that lands on a post past production is a stalled run's: its task has SUCCEEDED
      since, and the post FAILED to go out. */
  lemma OnlyALateRunLands(s: State, i: nat)
    requires Kept(s) && !Posts.InProduction(s.status) && EnterRun(s, i).status != s.status
    ensures s.g.tasks[s.runs[i].task].status == Succeeded && s.status == Posts.PostStatus.Failed
  {
    PastProductionNothingIsLeft(s, s.runs[i].task);
    hide Kept;
  }

  function Finished(status: PostStatus, runs: seq<Run>): State {
    Planned(Succeeded, Succeeded, {{0}, {1}}, runs, status)
  }

  lemma PostIsSentAndFails()
    ensures Revisions.Next(REVIEWED, SQaSend(2)) == Finished(Posts.PendingApproval, REVIEWED.runs)
    ensures Revisions.Next(Finished(Posts.PendingApproval, REVIEWED.runs), SPostMoves(Posts.PostStatus.Approved))
         == Finished(Posts.PostStatus.Approved, REVIEWED.runs)
    ensures Revisions.Next(Finished(Posts.PostStatus.Approved, REVIEWED.runs), SPostMoves(Posts.PostStatus.Failed))
         == Finished(Posts.PostStatus.Failed, REVIEWED.runs)
  {}

  lemma SecondRunLands()
    ensures var end := Revisions.Next(Finished(Posts.PostStatus.Failed, REVIEWED.runs), SEnter(1));
      end.status == Posts.PostStatus.Drafting && forall t: TaskId :: Mine(end, t) ==> end.g.tasks[t].status == Succeeded
  {}

  /** The same two runs of the write: the post is sent, approved and fails to go out, and the second run
      then takes it back to DRAFTING, where every task of it has SUCCEEDED (module PublishingSlips says
      what that breaks). */
  lemma ALateRunTakesAFailedPostBack()
    ensures exists s: State, steps: seq<Revisions.Step> ::
              && Kept(s) && OnCourse(s) && s.runs == [] && WritesEnabled(steps)
              && var end := Revisions.Exec(s, steps);
                 end.status == Posts.PostStatus.Drafting && forall t: TaskId :: Mine(end, t) ==> end.g.tasks[t].status == Succeeded
  {
    FreshIsOnCourse();
    PostIsSentAndFails();
    SecondRunLands();
    hide Revisions.Next, Kept, OnCourse, Finished;
    var sent, approved := Finished(Posts.PendingApproval, REVIEWED.runs), Finished(Posts.PostStatus.Approved, REVIEWED.runs);
    var failed := Finished(Posts.PostStatus.Failed, REVIEWED.runs);
    var end := Revisions.Next(failed, SEnter(1));
    var steps := [];
    assert Revisions.Exec(end, steps) == end;
    steps := StepBefore(failed, SEnter(1), steps);
    steps := StepBefore(approved, SPostMoves(Posts.PostStatus.Failed), steps);
    steps := StepBefore(sent, SPostMoves(Posts.PostStatus.Approved), steps);
    steps := StepBefore(REVIEWED, SQaSend(2), steps);
    steps := QaReviews(steps);
    steps := WriteStarts(steps);
    assert Revisions.Exec(FRESH, steps) == end;
  }

  // ---------------------------------------------------------------- accept_best on a task that never ran

  /** A post sent back for one visual revision, by a Vault regenerate. */
  function SentBack(direct: TaskStatus, qa: TaskStatus, lists: set<set<TaskId>>, runs: seq<Run>): State {
    State(Graph([Task(Some("p1"), Write, 0, Succeeded, [], false), Task(Some("p1"), Qa, 0, Succeeded, [0], false),
                 Task(Some("p1"), Direct, 1, direct, [], false), Task(Some("p1"), Qa, 1, qa, [2], false)], lists),
          "p1", Posts.PostStatus.ChangesRequested, 1, false, runs, [[0, 1], [2, 3]], {}, 2)
  }

  const REOPENED := SentBack(Pending, Pending, {}, [])

  lemma ReopenedSound()
    ensures Sound(REOPENED.g)
  {
    var tasks := REOPENED.g.tasks;
    assert Ranked(tasks, [0, 1, 0, 1]);
    assert forall t :: 0 <= t < 2 ==> DepsDone(tasks, t);
  }

  lemma ReopenedListed()
    ensures AllListed(REOPENED.g.tasks, "p1", [[0, 1], [2, 3]])
  {
  }

  lemma ReopenedChains()
    ensures RevisionChains.Chains(REOPENED.g.tasks, "p1", [[0, 1], [2, 3]])
  {
    var tasks := REOPENED.g.tasks;
    PairLinked(tasks, 0, 1, 0);
    PairLinked(tasks, 2, 3, 1);
    ReopenedListed();
    hide Linked, AllListed;
    var order: seq<seq<TaskId>> := [[0, 1], [2, 3]];
    assert forall r :: 0 <= r < 2 ==> Linked(tasks, "p1", order[r], r);
  }

  lemma ReopenedKept()
    ensures Kept(REOPENED)
  {
    hide Sound, RevisionChains.Chains;
    ReopenedSound();
    ReopenedChains();
  }

  lemma ReopenedIsOnCourse()
    ensures Kept(REOPENED) && OnCourse(REOPENED)
  {
    hide Kept, OnCourse;
    ReopenedKept();
    RunlessOnCourse(REOPENED, 2, 3);
  }

  lemma ReopenedReady(direct: TaskStatus)
    requires direct in {Pending, Succeeded}
    ensures Ready(SentBack(direct, Pending, {}, []).g.tasks) == if direct == Pending then {2} else {3}
  {
    var tasks := SentBack(direct, Pending, {}, []).g.tasks;
    assert tasks[3].dependsOn[0] == 2;
    assert DepsDone(tasks, 2) && (DepsDone(tasks, 3) <==> direct == Succeeded);
  }

  lemma DirectIsQueuedAndFails()
    ensures Revisions.Next(REOPENED, SElsewhere(SRead)) == SentBack(Pending, Pending, {{2}}, [])
    ensures Revisions.Next(SentBack(Pending, Pending, {{2}}, []), SElsewhere(SQueue({2}))) == SentBack(Queued, Pending, {{2}}, [])
    ensures Revisions.Next(SentBack(Queued, Pending, {{2}}, []), STask(2, HandOff(TaskStatus.Failed)))
         == SentBack(TaskStatus.Failed, Pending, {{2}}, [])
  {
    ReopenedReady(Pending);
  }

  lemma DirectIsStopped(tail: seq<Revisions.Step>) returns (steps: seq<Revisions.Step>)
    requires WritesEnabled(tail)
    ensures WritesEnabled(steps)
    ensures Revisions.Exec(REOPENED, steps) == Revisions.Exec(SentBack(TaskStatus.Failed, Pending, {{2}}, []), tail)
  {
    hide Revisions.Next;
    var read := SentBack(Pending, Pending, {{2}}, []);
    var queued := SentBack(Queued, Pending, {{2}}, []);
    DirectIsQueuedAndFails();
    steps := StepBefore(queued, STask(2, HandOff(TaskStatus.Failed)), tail);
    steps := StepBefore(read, SElsewhere(SQueue({2})), steps);
    steps := StepBefore(REOPENED, SElsewhere(SRead), steps);
  }

  lemma BestIsKept()
    ensures Revisions.Next(SentBack(TaskStatus.Failed, Pending, {{2}}, []), STask(2, AcceptBest)) == SentBack(Succeeded, Pending, {{2}}, [])
  {
  }

  lemma QaIsQueued()
    ensures Revisions.Next(SentBack(Succeeded, Pending, {{2}}, []), SElsewhere(SRead)) == SentBack(Succeeded, Pending, {{2}, {3}}, [])
    ensures Revisions.Next(SentBack(Succeeded, Pending, {{2}, {3}}, []), SElsewhere(SQueue({3})))
         == SentBack(Succeeded, Queued, {{2}, {3}}, [])
  {
    ReopenedReady(Succeeded);
  }

  lemma DirectIsAccepted(tail: seq<Revisions.Step>) returns (steps: seq<Revisions.Step>)
    requires WritesEnabled(tail)
    ensures WritesEnabled(steps)
    ensures Revisions.Exec(REOPENED, steps) == Revisions.Exec(SentBack(Succeeded, Queued, {{2}, {3}}, []), tail)
  {
    var failed := SentBack(TaskStatus.Failed, Pending, {{2}}, []);
    var accepted := SentBack(Succeeded, Pending, {{2}}, []);
    var read := SentBack(Succeeded, Pending, {{2}, {3}}, []);
    hide Revisions.Next;
    BestIsKept();
    QaIsQueued();
    steps := StepBefore(read, SElsewhere(SQueue({3})), tail);
    steps := StepBefore(accepted, SElsewhere(SRead), steps);
    steps := StepBefore(failed, STask(2, AcceptBest), steps);
    steps := DirectIsStopped(steps);
  }

  lemma QaRunsFromChangesRequested()
    ensures var queued := SentBack(Succeeded, Queued, {{2}, {3}}, []);
      QaThrows(Revisions.Next(Revisions.Next(Revisions.Next(queued, SLoad(3)), SStart(0)), SEnter(0)), 0)
  {
  }

  /** The Visual Director's task of a Vault regenerate is stopped before any run of it moved the post, and
      people keep the best take: QA then starts from CHANGES_REQUESTED and its pass throws. The take on show
      is there to keep (module TakeStore, AcceptedUnrunExactly); any other direct that never ran has none. */
  lemma AcceptingATaskThatNeverRanMakesQaThrow()
    ensures exists s: State, steps: seq<Revisions.Step> ::
              && Kept(s) && OnCourse(s) && s.runs == [] && WritesEnabled(steps)
              && QaThrows(Revisions.Exec(s, steps), 0)
  {
    hide Revisions.Next, Kept, OnCourse, QaThrows;
    ReopenedIsOnCourse();
    QaRunsFromChangesRequested();
    var queued := SentBack(Succeeded, Queued, {{2}, {3}}, []);
    var loaded := Revisions.Next(queued, SLoad(3));
    var started := Revisions.Next(loaded, SStart(0));
    var end := Revisions.Next(started, SEnter(0));
    var steps := [];
    assert Revisions.Exec(end, steps) == end;
    steps := StepBefore(started, SEnter(0), steps);
    steps := StepBefore(loaded, SStart(0), steps);
    steps := StepBefore(queued, SLoad(3), steps);
    steps := DirectIsAccepted(steps);
    assert Revisions.Exec(REOPENED, steps) == end;
  }
}
