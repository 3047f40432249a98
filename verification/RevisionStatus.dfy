/** Whether QA can always send a post for approval. sendForApproval requires the move to
    PENDING_APPROVAL; what the post's status is then depends on when each run entered it. */
module RevisionStatus {
  import opened Options
  import opened TaskGraph
  import opened LiveGraph
  import opened Revisions
  import opened RevisionChains
  import Posts = PostLifecycle

  // ---------------------------------------------------------------- exactly when QA's send throws

  /** QA runs only while the post is in production, so of the statuses PENDING_APPROVAL can be
      reached from only QA is left. */
  lemma QaThrowsExactlyOutsideQa(s: State, i: nat)
    requires Kept(s) && RunOf(s, i, Qa) && CanMove(s.g.tasks, s.runs[i].task, Succeed)
    ensures QaThrows(s, i) <==> s.status != Posts.PostStatus.Qa
  {
    QaRunsInProduction(s, s.runs[i].task);
  }

  // ---------------------------------------------------------------- when runs keep the status on course

  function Current(s: State): seq<TaskId>
    requires |s.order| == s.revision + 1
  {
    s.order[s.revision]
  }

  predicate Done(s: State, t: TaskId) {
    t < |s.g.tasks| && s.g.tasks[t].status == Succeeded
  }

  /** A run's update of the status lands while its task is RUNNING, and accept_best is only used on a
      Visual Director's task once the post has left CHANGES_REQUESTED (or IDEA). */
  predicate Prompt(s: State, step: Revisions.Step) {
    match step
    case SEnter(i) => EnterRun(s, i).status != s.status ==> s.g.tasks[s.runs[i].task].status == Running
    case STask(t, move) =>
      move == AcceptBest && TaskMoves(s, t, move) != s
      ==> s.status != Posts.PostStatus.Idea && s.status != Posts.PostStatus.ChangesRequested
    case _ => true
  }

  predicate UnderWay(status: PostStatus) {
    status in {Posts.PostStatus.Drafting, Posts.PostStatus.Visualizing, Posts.PostStatus.Adapting, Posts.PostStatus.Qa}
  }

  /** The first task of the chain is entered from where a chain opens; QA after another task was. */
  ghost predicate Opening(s: State, first: TaskId)
    requires first < |s.g.tasks|
  {
    s.status in {Posts.PostStatus.Idea, Posts.PostStatus.ChangesRequested, Posts.PostStatus.Qa, StatusFor(s.g.tasks[first].action)}
  }

  /** A run has put the post where its task works, or found it there. */
  predicate HasEntered(run: Run, target: PostStatus) {
    run.phase == Entered || run.seen == target
  }

  ghost predicate RunFits(s: State, run: Run, first: TaskId, qa: TaskId)
    requires first < |s.g.tasks|
  {
    && Mine(s, run.task) && DepsDone(s.g.tasks, run.task)
    && (run.task == first && !Done(s, first) && HasEntered(run, StatusFor(s.g.tasks[first].action))
        ==> s.status == StatusFor(s.g.tasks[first].action))
    && (run.task == qa && !Done(s, qa) && HasEntered(run, Posts.PostStatus.Qa) ==> s.status == Posts.PostStatus.Qa)
  }

  ghost predicate StatusFits(s: State, first: TaskId, qa: TaskId)
    requires first < |s.g.tasks|
  {
    && (Posts.InProduction(s.status) ==> !Done(s, qa))
    && (!Done(s, first) ==> Opening(s, first))
    && (Done(s, first) && !Done(s, qa) ==> UnderWay(s.status))
    && (s.g.tasks[first].status == Waiting ==> s.status == StatusFor(s.g.tasks[first].action))
  }

  ghost predicate OnlyDirectsWait(tasks: Tasks, post: PostRef) {
    forall t :: 0 <= t < |tasks| && tasks[t].post == Some(post) && tasks[t].status == Waiting ==> tasks[t].action == Direct
  }

  ghost predicate OnCourse(s: State) {
    && |s.order| == s.revision + 1 && Current(s) != []
    && (var first, qa := Current(s)[0], Current(s)[|Current(s)| - 1];
        && first < |s.g.tasks| && StatusFits(s, first, qa)
        && (forall i :: 0 <= i < |s.runs| ==> RunFits(s, s.runs[i], first, qa)))
    && OnlyDirectsWait(s.g.tasks, s.post)
  }

  // ---------------------------------------------------------------- the current chain

  /** The ends of the current chain, and what stands between them. */
  ghost predicate Ends(s: State, first: TaskId, qa: TaskId) {
    && |s.order| == s.revision + 1 && |Current(s)| >= 2
    && first == Current(s)[0] && qa == Current(s)[|Current(s)| - 1] && first != qa
    && Mine(s, first) && Mine(s, qa)
    && s.g.tasks[first].action in {Write, Direct} && s.g.tasks[qa].action == Qa
  }

  lemma EndsOf(s: State)
    requires Kept(s)
    ensures |s.order| == s.revision + 1 && |Current(s)| >= 2
    ensures Ends(s, Current(s)[0], Current(s)[|Current(s)| - 1])
  {
    ChainIdsDiffer(s.g.tasks, s.post, Current(s), s.revision);
  }

  /** Whatever has its dependencies done comes after every other unfinished task of the chain. */
  lemma {:induction false} BeforeIsDone(g: Graph, post: PostRef, chain: seq<TaskId>, r: nat, j: nat, k: nat)
    requires Sound(g) && Linked(g.tasks, post, chain, r) && j < k < |chain| && DepsDone(g.tasks, chain[k])
    ensures g.tasks[chain[j]].status == Succeeded
    decreases k
  {
    assert chain[k - 1] in g.tasks[chain[k]].dependsOn;
    if j < k - 1 {
      assert DepsDone(g.tasks, chain[k - 1]);
      BeforeIsDone(g, post, chain, r, j, k - 1);
    }
  }

  /** An unfinished task with its dependencies done is the only one: the first if the first is not
      done, and QA if QA's are. */
  lemma OnlyOneActive(s: State, t: TaskId, first: TaskId, qa: TaskId)
    requires Kept(s) && Ends(s, first, qa) && Mine(s, t) && s.g.tasks[t].status != Succeeded && DepsDone(s.g.tasks, t)
    ensures s.g.tasks[t].revision == s.revision && s.g.tasks[t].action != Strategy
    ensures !Done(s, first) ==> t == first
    ensures DepsDone(s.g.tasks, qa) ==> t == qa
    ensures !Done(s, qa)
  {
    OnlyTheLastChainIsUnfinished(s, t);
    var chain := Current(s);
    var k :| 0 <= k < |chain| && chain[k] == t;
    assert Linked(s.g.tasks, s.post, chain, s.revision);
    var actions := ActionsOf(s.g.tasks, chain);
    assert k > 0 ==> ActionIndex(actions[0]) < ActionIndex(actions[k]);
    if k > 0 {
      BeforeIsDone(s.g, s.post, chain, s.revision, 0, k);
    }
    if DepsDone(s.g.tasks, qa) && k < |chain| - 1 {
      BeforeIsDone(s.g, s.post, chain, s.revision, k, |chain| - 1);
    }
    if Done(s, qa) {
      FinishedChain(s.g, s.post, chain, s.revision, k);
    }
  }

  lemma QaComesAfterFirst(s: State, first: TaskId, qa: TaskId)
    requires Kept(s) && Ends(s, first, qa) && DepsDone(s.g.tasks, qa)
    ensures Done(s, first)
  {
    BeforeIsDone(s.g, s.post, Current(s), s.revision, 0, |Current(s)| - 1);
  }

  // ---------------------------------------------------------------- quiet steps

  /** Tasks of the post change status without finishing or starting to wait. */
  ghost predicate Quiet(before: Tasks, after: Tasks, post: PostRef) {
    && MineKept(before, after, post)
    && (forall t :: 0 <= t < |before| ==> (before[t].status == Succeeded ==> after[t].status == Succeeded))
    && (forall t :: 0 <= t < |before| && before[t].post == Some(post) ==>
          (after[t].status == Succeeded ==> before[t].status == Succeeded)
          && (after[t].status == Waiting ==> before[t].status == Waiting))
  }

  lemma QuietKeepsCourse(s: State, after: State, first: TaskId, qa: TaskId)
    requires OnCourse(s) && Ends(s, first, qa) && Quiet(s.g.tasks, after.g.tasks, s.post)
    requires after.post == s.post && after.revision == s.revision && after.order == s.order
    requires after.runs == s.runs && after.status == s.status
    ensures OnCourse(after)
  {
    forall i | 0 <= i < |s.runs| ensures RunFits(after, s.runs[i], first, qa) {
      assert RunFits(s, s.runs[i], first, qa);
      assert after.g.tasks[s.runs[i].task].dependsOn == s.g.tasks[s.runs[i].task].dependsOn;
    }
    assert StatusFits(after, first, qa);
  }

  lemma ElsewhereIsQuiet(s: State, step: LiveGraph.Step)
    requires Elsewhere(s, step)
    ensures Quiet(s.g.tasks, LiveGraph.Next(s.g, step).tasks, s.post)
  {
    ElsewhereMineKept(s, step);
  }

  lemma QuietMove(s: State, t: TaskId, move: Move)
    requires move in {Start, Block} || move.HandOff? || move.Requeue?
    ensures Quiet(s.g.tasks, MoveTask(s.g, t, move).tasks, s.post)
  {
    MoveMineKept(s.g, t, move, s.post);
  }

  // ---------------------------------------------------------------- the other steps

  lemma LoadKeepsCourse(s: State, t: TaskId)
    requires Kept(s) && OnCourse(s)
    ensures OnCourse(Load(s, t))
  {
    hide Kept;
    EndsOf(s);
    KeptSound(s);
    var first, qa := Current(s)[0], Current(s)[|Current(s)| - 1];
    if Load(s, t) != s {
      LoadedFits(s, t, first, qa);
      var after := Load(s, t);
      forall i | 0 <= i < |s.runs| ensures RunFits(after, s.runs[i], first, qa) {
        assert RunFits(s, s.runs[i], first, qa);
      }
      assert StatusFits(after, first, qa);
    }
  }

  lemma LoadedFits(s: State, t: TaskId, first: TaskId, qa: TaskId)
    requires Sound(s.g) && Ends(s, first, qa) && Load(s, t) != s
    ensures RunFits(Load(s, t), Run(t, s.status, Loaded, None), first, qa)
  {
  }

  /** A run's bookkeeping changes; its seen status and task do not. */
  lemma RunKeepsCourse(s: State, i: nat, run: Run, first: TaskId, qa: TaskId)
    requires OnCourse(s) && Ends(s, first, qa) && i < |s.runs| && RunFits(s, run, first, qa)
    ensures OnCourse(s.(runs := s.runs[i := run]))
  {
    var after := s.(runs := s.runs[i := run]);
    forall j | 0 <= j < |after.runs| ensures RunFits(after, after.runs[j], first, qa) {
      if j != i {
        assert RunFits(s, s.runs[j], first, qa);
      }
    }
    assert StatusFits(after, first, qa);
  }

  lemma StartKeepsCourse(s: State, i: nat)
    requires Kept(s) && OnCourse(s)
    ensures OnCourse(StartRun(s, i))
  {
    EndsOf(s);
    var first, qa := Current(s)[0], Current(s)[|Current(s)| - 1];
    if RunIs(s, i, Loaded) && CanMove(s.g.tasks, s.runs[i].task, Start) {
      var started := s.(runs := s.runs[i := s.runs[i].(phase := Started)]);
      assert RunFits(s, s.runs[i], first, qa);
      hide OnCourse, Kept;
      RunKeepsCourse(s, i, s.runs[i].(phase := Started), first, qa);
      QuietMove(started, s.runs[i].task, Start);
      QuietKeepsCourse(started, StartRun(s, i), first, qa);
    }
  }

  /** Where the table lets a run's status update land. */
  lemma EntryLands(s: State, run: Run, first: TaskId, qa: TaskId)
    requires Kept(s) && OnCourse(s) && Ends(s, first, qa) && RunFits(s, run, first, qa)
    ensures run.task == first && !Done(s, first) ==>
              var target := StatusFor(s.g.tasks[first].action);
              (if run.seen != target && Posts.CanTransition(s.status, target) then target else s.status) == target
    ensures run.task == qa && !Done(s, qa) ==>
              (if run.seen != Posts.PostStatus.Qa && Posts.CanTransition(s.status, Posts.PostStatus.Qa)
               then Posts.PostStatus.Qa else s.status) == Posts.PostStatus.Qa
  {
    if run.task == qa && !Done(s, qa) {
      QaComesAfterFirst(s, first, qa);
    }
  }

  lemma EnterKeepsCourse(s: State, i: nat)
    requires Kept(s) && OnCourse(s) && Prompt(s, SEnter(i))
    ensures OnCourse(EnterRun(s, i))
  {
    EndsOf(s);
    var first, qa := Current(s)[0], Current(s)[|Current(s)| - 1];
    if RunIs(s, i, Started) {
      var run := s.runs[i];
      assert RunFits(s, run, first, qa);
      EntryLands(s, run, first, qa);
      var after := EnterRun(s, i);
      if after.status == s.status {
        assert RunFits(s, run.(phase := Entered), first, qa);
        RunKeepsCourse(s, i, run.(phase := Entered), first, qa);
      } else {
        OnlyOneActive(s, run.task, first, qa);
        EnteredFits(s, i, first, qa);
      }
    }
  }

  /** A prompt entry is by the one task that is at work. */
  lemma EnteredFits(s: State, i: nat, first: TaskId, qa: TaskId)
    requires OnCourse(s) && Ends(s, first, qa) && RunIs(s, i, Started)
    requires var t := s.runs[i].task;
             && s.g.tasks[t].status == Running && s.g.tasks[t].action != Strategy
             && (!Done(s, first) ==> t == first) && (DepsDone(s.g.tasks, qa) ==> t == qa) && !Done(s, qa)
    requires EnterRun(s, i).status != s.status
    ensures OnCourse(EnterRun(s, i))
  {
    var after := EnterRun(s, i);
    assert after.status == StatusFor(s.g.tasks[s.runs[i].task].action);
    forall j | 0 <= j < |after.runs| ensures RunFits(after, after.runs[j], first, qa) {
      assert RunFits(s, s.runs[j], first, qa);
    }
    assert StatusFits(after, first, qa);
  }

  lemma CountKeepsCourse(s: State, i: nat)
    requires Kept(s) && OnCourse(s)
    ensures OnCourse(CountRun(s, i))
  {
    EndsOf(s);
    var first, qa := Current(s)[0], Current(s)[|Current(s)| - 1];
    if RunOf(s, i, Qa) {
      assert RunFits(s, s.runs[i], first, qa);
      RunKeepsCourse(s, i, s.runs[i].(used := Some(|QaRevisions(s.g.tasks, s.post)|)), first, qa);
    }
  }

  lemma MovedRunFits(s: State, t: TaskId, to: TaskStatus, status: PostStatus, run: Run, first: TaskId, qa: TaskId)
    requires t < |s.g.tasks| && first < |s.g.tasks| && (s.g.tasks[t].status == Succeeded ==> to == Succeeded)
    requires var after := s.(g := s.g.(tasks := SetStatus(s.g.tasks, t, to)), status := status);
             status == s.status || (Done(after, first) && Done(after, qa))
    requires RunFits(s, run, first, qa)
    ensures RunFits(s.(g := s.g.(tasks := SetStatus(s.g.tasks, t, to)), status := status), run, first, qa)
  {
    var after := s.(g := s.g.(tasks := SetStatus(s.g.tasks, t, to)), status := status);
    assert after.g.tasks[run.task].dependsOn == s.g.tasks[run.task].dependsOn;
  }

  /** One of the post's tasks moves, and the status with it only once the whole chain is done. */
  lemma MovedKeepsCourse(s: State, t: TaskId, to: TaskStatus, status: PostStatus, first: TaskId, qa: TaskId)
    requires OnCourse(s) && Ends(s, first, qa) && Mine(s, t) && s.g.tasks[t].status != Succeeded
    requires to == Waiting ==> s.g.tasks[t].action == Direct
    requires var after := s.(g := s.g.(tasks := SetStatus(s.g.tasks, t, to)), status := status);
             StatusFits(after, first, qa) && (status == s.status || (Done(after, first) && Done(after, qa)))
    ensures OnCourse(s.(g := s.g.(tasks := SetStatus(s.g.tasks, t, to)), status := status))
  {
    var after := s.(g := s.g.(tasks := SetStatus(s.g.tasks, t, to)), status := status);
    hide RunFits, StatusFits;
    forall i | 0 <= i < |s.runs| ensures RunFits(after, s.runs[i], first, qa) {
      MovedRunFits(s, t, to, status, s.runs[i], first, qa);
    }
  }

  lemma FitsNow(s: State, first: TaskId, qa: TaskId)
    requires OnCourse(s) && Ends(s, first, qa)
    ensures StatusFits(s, first, qa)
  {
  }

  /** One task of the post is done, with the post where it worked. */
  lemma DoneKeepsCourse(s: State, t: TaskId, first: TaskId, qa: TaskId, move: Move)
    requires Kept(s) && OnCourse(s) && Ends(s, first, qa) && Mine(s, t) && t != qa
    requires CanMove(s.g.tasks, t, move) && MovesTo(move) == Succeeded
    requires t == first ==> UnderWay(s.status)
    ensures OnCourse(s.(g := MoveTask(s.g, t, move)))
  {
    hide Kept, OnCourse;
    FitsNow(s, first, qa);
    MovedKeepsCourse(s, t, Succeeded, s.status, first, qa);
  }

  lemma SpliceKeepsCourse(s: State, after: State, first: TaskId, qa: TaskId)
    requires OnCourse(s) && Ends(s, first, qa) && !HasDirect(s.g.tasks, first)
    requires Done(s, first) && after.g.tasks == Splice(s.g.tasks, first)
    requires forall i :: 0 <= i < |s.runs| ==> after.g.tasks[s.runs[i].task].dependsOn == s.g.tasks[s.runs[i].task].dependsOn
    requires after.post == s.post && after.revision == s.revision && after.status == s.status && after.runs == s.runs
    requires s.g.tasks[first].revision == s.revision
    requires after.order == s.order[s.revision := WithDirect(s.order[s.revision], |s.g.tasks|)]
    ensures OnCourse(after)
  {
    var current := Current(after);
    assert current[0] == first && current[|current| - 1] == qa;
    forall i | 0 <= i < |s.runs| ensures RunFits(after, s.runs[i], first, qa) {
      assert RunFits(s, s.runs[i], first, qa);
    }
    assert StatusFits(after, first, qa);
    forall t | 0 <= t < |after.g.tasks| && after.g.tasks[t].post == Some(s.post) && after.g.tasks[t].status == Waiting
      ensures after.g.tasks[t].action == Direct
    {
      if t < |s.g.tasks| {
        assert s.g.tasks[t].status == Waiting && s.g.tasks[t].action == after.g.tasks[t].action;
      }
    }
  }

  /** The write that can finish is the first task of the current chain. */
  lemma WriteIsCurrent(s: State, w: TaskId, first: TaskId, qa: TaskId)
    requires Kept(s) && Ends(s, first, qa) && Mine(s, w) && s.g.tasks[w].action == Write && s.g.tasks[w].status != Succeeded
    ensures w == first && s.g.tasks[w].revision == s.revision
  {
    OnlyTheLastChainIsUnfinished(s, w);
    WriteIsFirst(s.g.tasks, s.post, Current(s), s.revision, w);
  }

  lemma FinishKeepsCourse(s: State, i: nat, gaps: bool)
    requires Kept(s) && OnCourse(s)
    ensures OnCourse(FinishWriteRun(s, i, gaps))
  {
    EndsOf(s);
    var first, qa := Current(s)[0], Current(s)[|Current(s)| - 1];
    if RunOf(s, i, Write) && CanMove(s.g.tasks, s.runs[i].task, Succeed) {
      var w := s.runs[i].task;
      var done := s.(g := MoveTask(s.g, w, Succeed));
      assert RunFits(s, s.runs[i], first, qa);
      WriteIsCurrent(s, w, first, qa);
      DoneKeepsCourse(s, w, first, qa, Succeed);
      DirectUnchanged(s.g.tasks, w);
      if gaps && !HasDirect(s.g.tasks, w) {
        SplicedKeepsCourse(s, i, done, first, qa);
      }
    }
  }

  lemma SplicedKeepsCourse(s: State, i: nat, done: State, first: TaskId, qa: TaskId)
    requires Kept(s) && OnCourse(s) && Ends(s, first, qa) && RunOf(s, i, Write) && s.runs[i].task == first
    requires CanMove(s.g.tasks, first, Succeed) && !HasDirect(s.g.tasks, first) && s.g.tasks[first].revision == s.revision
    requires done == s.(g := MoveTask(s.g, first, Succeed)) && OnCourse(done) && !HasDirect(done.g.tasks, first)
    ensures OnCourse(FinishWriteRun(s, i, true))
  {
    hide Splice, HasDirect, OnCourse, Kept;
    var after := FinishWriteRun(s, i, true);
    assert SetStatus(s.g.tasks, first, Succeeded) == done.g.tasks;
    RunsKeepDeps(s, first, after, first, qa);
    SpliceKeepsCourse(done, after, first, qa);
  }

  lemma RunsKeepDeps(s: State, w: TaskId, after: State, first: TaskId, qa: TaskId)
    requires OnCourse(s) && Ends(s, first, qa) && w < |s.g.tasks| && s.g.tasks[w].status != Succeeded
    requires after.g.tasks == Splice(SetStatus(s.g.tasks, w, Succeeded), w)
    ensures forall i :: 0 <= i < |s.runs| ==>
              s.runs[i].task < |s.g.tasks| && after.g.tasks[s.runs[i].task].dependsOn == s.g.tasks[s.runs[i].task].dependsOn
  {
    SpliceExtends(s.g.tasks, w);
    forall i | 0 <= i < |s.runs|
      ensures s.runs[i].task < |s.g.tasks| && after.g.tasks[s.runs[i].task].dependsOn == s.g.tasks[s.runs[i].task].dependsOn
    {
      assert RunFits(s, s.runs[i], first, qa);
    }
  }

  lemma RunFitsNow(s: State, i: nat, first: TaskId, qa: TaskId)
    requires OnCourse(s) && Ends(s, first, qa) && i < |s.runs|
    ensures RunFits(s, s.runs[i], first, qa)
  {
  }

  lemma PlanKeepsCourse(s: State, i: nat)
    requires Kept(s) && OnCourse(s)
    ensures OnCourse(PlanRun(s, i))
  {
    hide Kept, OnCourse;
    EndsOf(s);
    var first, qa := Current(s)[0], Current(s)[|Current(s)| - 1];
    if RunOf(s, i, Direct) && CanMove(s.g.tasks, s.runs[i].task, Wait) {
      RunFitsNow(s, i, first, qa);
      FitsNow(s, first, qa);
      MovedKeepsCourse(s, s.runs[i].task, Waiting, s.status, first, qa);
    }
  }

  lemma SendKeepsCourse(s: State, i: nat)
    requires Kept(s) && OnCourse(s)
    ensures OnCourse(QaSend(s, i))
  {
    hide Kept, OnCourse;
    EndsOf(s);
    var first, qa := Current(s)[0], Current(s)[|Current(s)| - 1];
    if RunOf(s, i, Qa) && CanMove(s.g.tasks, s.runs[i].task, Succeed) && !QaThrows(s, i) {
      RunFitsNow(s, i, first, qa);
      QaIsCurrent(s, s.runs[i].task);
      QaComesAfterFirst(s, first, qa);
      MovedKeepsCourse(s, s.runs[i].task, Succeeded, Posts.PendingApproval, first, qa);
    }
  }

  /** The new chain's rows are all PENDING, after every row there was. */
  lemma NewChainRows(s: State, target: Target, enabled: set<Action>, fromQa: bool) returns (qa: TaskId)
    requires |s.order| == s.revision + 1 && Write in enabled
    ensures var after, n := Revise(s, target, enabled, fromQa), |s.g.tasks|;
      && n <= qa == |after.g.tasks| - 1 && |after.order| == after.revision + 1
      && Current(after) != [] && Current(after)[0] == n && Current(after)[|Current(after)| - 1] == qa
      && (forall t :: n <= t <= qa ==> after.g.tasks[t].status == Pending)
      && (forall t :: 0 <= t < n ==> after.g.tasks[t] == s.g.tasks[t])
      && after.status == s.status && after.post == s.post && after.runs == s.runs
  {
    var actions := RevisionActions(target, enabled);
    RevisionActionsChain(target, enabled);
    NonemptyChain(actions);
    hide RevisionActions;
    var after, n := Revise(s, target, enabled, fromQa), |s.g.tasks|;
    AppendedPrefix(s.g.tasks, Some(s.post), s.revision + 1, actions, fromQa);
    qa := n + |actions| - 1;
    forall t | n <= t <= qa ensures after.g.tasks[t].status == Pending {
      AppendedRows(s.g.tasks, Some(s.post), s.revision + 1, actions, fromQa, t - n);
    }
  }

  /** A new chain opens: nobody has run anything of it. */
  lemma NewChainOnCourse(s: State, target: Target, enabled: set<Action>, fromQa: bool)
    requires |s.order| == s.revision + 1 && Write in enabled
    requires s.status == Posts.PostStatus.ChangesRequested || s.status == Posts.PostStatus.Qa
    requires forall i :: 0 <= i < |s.runs| ==> Mine(s, s.runs[i].task) && DepsDone(s.g.tasks, s.runs[i].task)
    requires OnlyDirectsWait(s.g.tasks, s.post)
    ensures OnCourse(Revise(s, target, enabled, fromQa))
  {
    var after, n := Revise(s, target, enabled, fromQa), |s.g.tasks|;
    var qa := NewChainRows(s, target, enabled, fromQa);
    hide Revise, Append, RevisionActions, NewIds;
    forall i | 0 <= i < |s.runs| ensures RunFits(after, s.runs[i], n, qa) {}
    assert StatusFits(after, n, qa);
  }

  lemma AppendedPrefix(tasks: Tasks, post: Option<PostRef>, r: nat, actions: seq<Action>, fromQa: bool)
    ensures |Append(tasks, post, r, actions, fromQa)| == |tasks| + |actions|
    ensures forall t :: 0 <= t < |tasks| ==> Append(tasks, post, r, actions, fromQa)[t] == tasks[t]
  {
  }

  lemma RunsAreMine(s: State, first: TaskId, qa: TaskId)
    requires OnCourse(s) && Ends(s, first, qa)
    ensures forall i :: 0 <= i < |s.runs| ==> Mine(s, s.runs[i].task) && DepsDone(s.g.tasks, s.runs[i].task)
  {
    forall i | 0 <= i < |s.runs| ensures Mine(s, s.runs[i].task) && DepsDone(s.g.tasks, s.runs[i].task) {
      assert RunFits(s, s.runs[i], first, qa);
    }
  }

  lemma WaitersNow(s: State, first: TaskId, qa: TaskId)
    requires OnCourse(s) && Ends(s, first, qa)
    ensures OnlyDirectsWait(s.g.tasks, s.post)
  {
  }

  lemma DepsStayDone(s: State, q: TaskId)
    requires forall i :: 0 <= i < |s.runs| ==> Mine(s, s.runs[i].task) && DepsDone(s.g.tasks, s.runs[i].task)
    requires OnlyDirectsWait(s.g.tasks, s.post) && CanMove(s.g.tasks, q, Succeed)
    ensures var done := s.(g := MoveTask(s.g, q, Succeed));
            && (forall i :: 0 <= i < |s.runs| ==> Mine(done, s.runs[i].task) && DepsDone(done.g.tasks, s.runs[i].task))
            && OnlyDirectsWait(done.g.tasks, s.post)
  {
    var done := s.(g := MoveTask(s.g, q, Succeed));
    forall i | 0 <= i < |s.runs| ensures Mine(done, s.runs[i].task) && DepsDone(done.g.tasks, s.runs[i].task) {
      assert done.g.tasks[s.runs[i].task].dependsOn == s.g.tasks[s.runs[i].task].dependsOn;
    }
  }

  lemma ReviseKeepsCourse(s: State, i: nat, target: Target, enabled: set<Action>)
    requires Kept(s) && OnCourse(s) && Write in enabled
    ensures OnCourse(QaRevise(s, i, target, enabled))
  {
    hide Kept, OnCourse, Revise, MoveTask;
    EndsOf(s);
    var first, qa := Current(s)[0], Current(s)[|Current(s)| - 1];
    if RunOf(s, i, Qa) && s.runs[i].used.Some? && s.runs[i].used.value < s.maxQa && CanMove(s.g.tasks, s.runs[i].task, Succeed) {
      var q := s.runs[i].task;
      RunFitsNow(s, i, first, qa);
      QaIsCurrent(s, q);
      RunsAreMine(s, first, qa);
      WaitersNow(s, first, qa);
      DepsStayDone(s, q);
      var done := s.(g := MoveTask(s.g, q, Succeed));
      NewChainOnCourse(done, target, enabled, true);
      VerdictsDontMatter(Revise(done, target, enabled, true), s.verdicts + {s.revision + 1});
    }
  }

  lemma VerdictsDontMatter(s: State, verdicts: set<nat>)
    requires OnCourse(s)
    ensures OnCourse(s.(verdicts := verdicts))
  {
    var after := s.(verdicts := verdicts);
    var first, qa := Current(s)[0], Current(s)[|Current(s)| - 1];
    forall i | 0 <= i < |s.runs| ensures RunFits(after, s.runs[i], first, qa) {
      assert RunFits(s, s.runs[i], first, qa);
    }
    assert StatusFits(after, first, qa);
  }

  lemma RoutedKeepsCourse(s: State, target: Target, enabled: set<Action>, fromQa: bool)
    requires Kept(s) && OnCourse(s) && Write in enabled
    ensures OnCourse(Revise(s.(status := Posts.PostStatus.ChangesRequested), target, enabled, fromQa))
  {
    EndsOf(s);
    RunsAreMine(s, Current(s)[0], Current(s)[|Current(s)| - 1]);
    hide Kept, Revise, RunFits, StatusFits;
    NewChainOnCourse(s.(status := Posts.PostStatus.ChangesRequested), target, enabled, fromQa);
  }

  lemma TaskMoveKeepsCourse(s: State, t: TaskId, move: Move)
    requires Kept(s) && OnCourse(s) && Prompt(s, STask(t, move))
    ensures OnCourse(TaskMoves(s, t, move))
  {
    EndsOf(s);
    var first, qa := Current(s)[0], Current(s)[|Current(s)| - 1];
    if TaskMoves(s, t, move) != s && CanMove(s.g.tasks, t, move) {
      if move == Settle || move == AcceptBest {
        assert s.g.tasks[t].action == Direct;
        DoneKeepsCourse(s, t, first, qa, move);
      } else {
        QuietMove(s, t, move);
        QuietKeepsCourse(s, TaskMoves(s, t, move), first, qa);
      }
    }
  }

  lemma PostMovesKeepCourse(s: State, to: PostStatus)
    requires Kept(s) && OnCourse(s)
    ensures OnCourse(PostMoves(s, to))
  {
    EndsOf(s);
    var first, qa := Current(s)[0], Current(s)[|Current(s)| - 1];
    if PostMoves(s, to) != s {
      PastProductionNothingIsLeft(s, first);
      PastProductionNothingIsLeft(s, qa);
      var after := PostMoves(s, to);
      forall i | 0 <= i < |s.runs| ensures RunFits(after, s.runs[i], first, qa) {
        assert RunFits(s, s.runs[i], first, qa);
      }
      assert StatusFits(after, first, qa);
    }
  }

  lemma ElsewhereKeepsCourse(s: State, step: LiveGraph.Step)
    requires Kept(s) && OnCourse(s) && Elsewhere(s, step)
    ensures OnCourse(s.(g := LiveGraph.Next(s.g, step)))
  {
    EndsOf(s);
    ElsewhereIsQuiet(s, step);
    hide Kept, OnCourse, Quiet;
    QuietKeepsCourse(s, s.(g := LiveGraph.Next(s.g, step)), Current(s)[0], Current(s)[|Current(s)| - 1]);
  }

  lemma ArchiveKeepsCourse(s: State)
    requires Kept(s) && OnCourse(s)
    ensures OnCourse(s.(archived := true, g := CancelAll(s.g)))
  {
    EndsOf(s);
    CancelMineKept(s.g, s.post);
    assert Quiet(s.g.tasks, CancelAll(s.g).tasks, s.post);
    hide Kept, OnCourse, Quiet;
    QuietKeepsCourse(s, s.(archived := true, g := CancelAll(s.g)), Current(s)[0], Current(s)[|Current(s)| - 1]);
  }

  lemma StepKeepsCourse(s: State, step: Revisions.Step)
    requires Kept(s) && OnCourse(s) && WriteEnabled(step) && Prompt(s, step)
    ensures OnCourse(Revisions.Next(s, step))
  {
    hide Kept, OnCourse, Revise, MoveTask, CancelAll, Load, StartRun, EnterRun, CountRun, FinishWriteRun, PlanRun, QaSend, QaRevise, TaskMoves, PostMoves;
    match step
    case SElsewhere(graphStep) =>
      if Elsewhere(s, graphStep) {
        ElsewhereKeepsCourse(s, graphStep);
      }
    case SLoad(t) => LoadKeepsCourse(s, t);
    case SStart(i) => StartKeepsCourse(s, i);
    case SEnter(i) => EnterKeepsCourse(s, i);
    case SCount(i) => CountKeepsCourse(s, i);
    case SFinish(i, gaps) => FinishKeepsCourse(s, i, gaps);
    case SPlan(i) => PlanKeepsCourse(s, i);
    case SQaSend(i) => SendKeepsCourse(s, i);
    case SQaRevise(i, target, enabled) => ReviseKeepsCourse(s, i, target, enabled);
    case STask(t, move) => TaskMoveKeepsCourse(s, t, move);
    case SHumanFeedback(target, enabled) => RoutedKeepsCourse(s, target, enabled, false);
    case SReopen(target, enabled, fromQa) => RoutedKeepsCourse(s, target, enabled, fromQa);
    case SPostMoves(to) => PostMovesKeepCourse(s, to);
    case SArchive => ArchiveKeepsCourse(s);
  }

  // ---------------------------------------------------------------- every prompt run

  ghost predicate AllPrompt(s: State, steps: seq<Revisions.Step>)
    decreases |steps|
  {
    steps == [] || (Prompt(s, steps[0]) && AllPrompt(Revisions.Next(s, steps[0]), steps[1..]))
  }

  lemma {:induction false} ExecKeepsCourse(s: State, steps: seq<Revisions.Step>)
    requires Kept(s) && OnCourse(s) && WritesEnabled(steps) && AllPrompt(s, steps)
    ensures Kept(Revisions.Exec(s, steps)) && OnCourse(Revisions.Exec(s, steps))
    decreases |steps|
  {
    hide Kept, OnCourse, Revisions.Next, Prompt;
    if steps != [] {
      StepKeeps(s, steps[0]);
      StepKeepsCourse(s, steps[0]);
      ExecKeepsCourse(Revisions.Next(s, steps[0]), steps[1..]);
    }
  }

  /** With every status update landing while its task runs, QA's send never throws. */
  lemma QaNeverThrows(s: State, steps: seq<Revisions.Step>, i: nat)
    requires Kept(s) && OnCourse(s) && WritesEnabled(steps) && AllPrompt(s, steps)
    ensures !QaThrows(Revisions.Exec(s, steps), i)
  {
    hide Kept, OnCourse, Revisions.Exec;
    ExecKeepsCourse(s, steps);
    OnCourseNeverThrows(Revisions.Exec(s, steps), i);
  }

  lemma OnCourseNeverThrows(s: State, i: nat)
    requires Kept(s) && OnCourse(s)
    ensures !QaThrows(s, i)
  {
    if RunOf(s, i, Qa) && CanMove(s.g.tasks, s.runs[i].task, Succeed) {
      EndsOf(s);
      assert RunFits(s, s.runs[i], Current(s)[0], Current(s)[|Current(s)| - 1]);
      QaIsCurrent(s, s.runs[i].task);
    }
  }

  // ---------------------------------------------------------------- exactly which runs throw

  /** No QA send of the run throws. */
  predicate NoneThrows(s: State, steps: seq<Revisions.Step>)
    decreases |steps|
  {
    steps == []
    || ((steps[0].SQaSend? ==> !QaThrows(s, steps[0].run)) && NoneThrows(Revisions.Next(s, steps[0]), steps[1..]))
  }

  /** Every QA send whose task can still succeed finds the post in QA. */
  predicate SendsFromQa(s: State, steps: seq<Revisions.Step>)
    decreases |steps|
  {
    steps == []
    || ((steps[0].SQaSend? && RunOf(s, steps[0].run, Qa) && CanMove(s.g.tasks, s.runs[steps[0].run].task, Succeed)
         ==> s.status == Posts.PostStatus.Qa)
        && SendsFromQa(Revisions.Next(s, steps[0]), steps[1..]))
  }

  /** On every run, late and repeated ones included. */
  lemma {:induction false} RunsThrowExactlyOutsideQa(s: State, steps: seq<Revisions.Step>)
    requires Kept(s) && WritesEnabled(steps)
    ensures NoneThrows(s, steps) <==> SendsFromQa(s, steps)
    decreases |steps|
  {
    hide Kept, Revisions.Next, QaThrows, CanMove;
    if steps != [] {
      if steps[0].SQaSend? && RunOf(s, steps[0].run, Qa) && CanMove(s.g.tasks, s.runs[steps[0].run].task, Succeed) {
        QaThrowsExactlyOutsideQa(s, steps[0].run);
      } else if steps[0].SQaSend? {
        NothingToSend(s, steps[0].run);
      }
      StepKeeps(s, steps[0]);
      RunsThrowExactlyOutsideQa(Revisions.Next(s, steps[0]), steps[1..]);
    }
  }

  lemma NothingToSend(s: State, i: nat)
    requires !(RunOf(s, i, Qa) && CanMove(s.g.tasks, s.runs[i].task, Succeed))
    ensures !QaThrows(s, i)
  {}
}
