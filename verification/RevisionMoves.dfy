/** Which step opens a revision or moves a post in production, and when: said of every step of module
    Revisions at once, on its fields alone. */
module RevisionMoves {
  import opened Options
  import opened TaskGraph
  import opened LiveGraph
  import opened Revisions
  import opened GraphMoves
  import Posts = PostLifecycle

  // ---------------------------------------------------------------- what a revision redoes

  /** Write, direct, adapt, qa. */
  predicate ComesBefore(a: Action, b: Action) {
    match a
    case Strategy => b != Strategy
    case Write => b == Direct || b == Adapt || b == Qa
    case Direct => b == Adapt || b == Qa
    case Adapt => b == Qa
    case Qa => false
  }

  /** The copy is written again for feedback on it, and for feedback on visuals nobody can redo; visuals are
      redone for feedback on them; then what follows. */
  predicate Redone(target: Target, enabled: set<Action>, action: Action) {
    match action
    case Strategy => false
    case Write => Write in enabled && (target != Visual || Direct !in enabled)
    case Direct => Direct in enabled && target != Copy
    case Adapt => Adapt in enabled
    case Qa => true
  }

  ghost predicate InOrder(actions: seq<Action>) {
    forall i, j :: 0 <= i < j < |actions| ==> ComesBefore(actions[i], actions[j])
  }

  lemma {:induction false} EnabledInOrder(order: seq<Action>, enabled: set<Action>)
    requires InOrder(order)
    ensures InOrder(Enabled(order, enabled))
  {
    hide ComesBefore;
    if order != [] {
      var rest := Enabled(order[1..], enabled);
      assert forall k :: 0 <= k < |order[1..]| ==> order[1..][k] == order[k + 1];
      EnabledInOrder(order[1..], enabled);
      forall k | 0 <= k < |rest| ensures ComesBefore(order[0], rest[k]) {
        assert rest[k] in rest;
      }
      assert InOrder([order[0]] + rest);
      assert [] + rest == rest;
    }
  }

  lemma RedoMembers(target: Target, action: Action)
    ensures action in RedoByTarget(target) <==>
      match action
      case Strategy => false
      case Write => target != Visual
      case Direct => target != Copy
      case Adapt => true
      case Qa => true
  {
    assert Write in [Write, Adapt, Qa] && Adapt in [Write, Adapt, Qa] && Qa in [Write, Adapt, Qa];
    assert [Direct, Adapt, Qa][0] == Direct && [Direct, Adapt, Qa][1] == Adapt && [Direct, Adapt, Qa][2] == Qa;
    var both := [Write, Direct, Adapt, Qa];
    assert both[0] == Write && both[1] == Direct && both[2] == Adapt && both[3] == Qa;
  }

  /** A revision redoes exactly that, in the order of the pipeline, and ends in QA whatever is enabled. */
  lemma RevisionRedoesExactly(target: Target, enabled: set<Action>)
    ensures var actions := RevisionActions(target, enabled);
      && (forall a :: a in actions <==> Redone(target, enabled, a))
      && InOrder(actions)
      && |actions| > 0 && actions[|actions| - 1] == Qa
  {
    hide Enabled, RedoByTarget, InOrder, Redone;
    var effective := Effective(target, enabled);
    var chain := Enabled(RedoByTarget(effective), enabled);
    RedoInOrder(effective);
    EnabledInOrder(RedoByTarget(effective), enabled);
    forall a ensures a in chain || a == Qa <==> Redone(target, enabled, a) {
      RedoneOrQa(target, enabled, a);
    }
    NoStrategyRedone(target, enabled);
    EndsTheChain(chain);
  }

  function Effective(target: Target, enabled: set<Action>): Target {
    if target == Visual && Direct !in enabled then Copy else target
  }

  lemma RedoneOrQa(target: Target, enabled: set<Action>, action: Action)
    ensures (action in enabled && action in RedoByTarget(Effective(target, enabled))) || action == Qa <==> Redone(target, enabled, action)
  {
    RedoMembers(Effective(target, enabled), action);
    hide RedoByTarget;
  }

  lemma NoStrategyRedone(target: Target, enabled: set<Action>)
    ensures !Redone(target, enabled, Strategy)
  {
  }

  lemma RedoInOrder(target: Target)
    ensures InOrder(RedoByTarget(target))
  {
  }

  /** With QA put behind a chain that lacks it, the order holds. */
  lemma EndsTheChain(chain: seq<Action>)
    requires InOrder(chain)
    requires Strategy !in chain
    ensures var actions := if chain != [] && chain[|chain| - 1] == Qa then chain else chain + [Qa];
      && (forall a :: a in actions <==> a in chain || a == Qa)
      && InOrder(actions)
      && |actions| > 0 && actions[|actions| - 1] == Qa
  {
    if chain != [] && chain[|chain| - 1] == Qa {
      assert Qa in chain;
    } else {
      QaIsLast(chain);
      forall i | 0 <= i < |chain| ensures ComesBefore(chain[i], Qa) {
        assert chain[i] in chain;
      }
      hide ComesBefore;
    }
  }

  /** Nothing follows a QA, so one that is not last is not there. */
  lemma QaIsLast(chain: seq<Action>)
    requires InOrder(chain)
    requires chain == [] || chain[|chain| - 1] != Qa
    ensures Qa !in chain
  {
    forall i | 0 <= i < |chain| ensures chain[i] != Qa {
      assert i < |chain| - 1 ==> ComesBefore(chain[i], chain[|chain| - 1]);
    }
  }

  // ---------------------------------------------------------------- a revision opens

  /** The run has entered its task, one of the post's for that action, which is RUNNING. */
  predicate Runs(s: State, i: nat, action: Action) {
    && i < |s.runs| && s.runs[i].phase == Entered && s.runs[i].task < |s.g.tasks|
    && var task := s.g.tasks[s.runs[i].task];
       task.post == Some(s.post) && task.action == action && task.status == Running
  }

  /** QA asks for a revision while the count it read is below the limit. */
  predicate QaOpens(s: State, step: Revisions.Step) {
    && step.SQaRevise? && Runs(s, step.run, Qa)
    && s.runs[step.run].used.Some? && s.runs[step.run].used.value < s.maxQa
  }

  predicate PeopleOpen(s: State, step: Revisions.Step) {
    && !s.archived
    && (|| (step.SHumanFeedback? && s.status == Posts.PendingApproval)
        || (step.SReopen? && s.status in {Posts.PendingApproval, Posts.PostStatus.Approved, Posts.PostStatus.Scheduled}))
  }

  predicate Opens(s: State, step: Revisions.Step) {
    QaOpens(s, step) || PeopleOpen(s, step)
  }

  function TargetOf(step: Revisions.Step): Target {
    if step.SQaRevise? || step.SHumanFeedback? || step.SReopen? then step.target else Both
  }

  function EnabledOf(step: Revisions.Step): set<Action> {
    if step.SQaRevise? || step.SHumanFeedback? || step.SReopen? then step.enabled else {}
  }

  predicate IsQaFeedback(step: Revisions.Step) {
    step.SQaRevise? || (step.SReopen? && step.fromQa)
  }

  /** A revision opens exactly when a running QA asks for one within its limit, or people do before anything
      of the post is out; it adds one PENDING task for each action redone, the revision's own, each waiting
      for the one before. QA's does not move the post; people's takes it to CHANGES_REQUESTED. */
  lemma RevisionOpensExactly(s: State, step: Revisions.Step)
    ensures var after, n := Revisions.Next(s, step), |s.g.tasks|;
      && after.revision == s.revision + (if Opens(s, step) then 1 else 0)
      && (Opens(s, step) ==>
            && after.status == (if step.SQaRevise? then s.status else Posts.PostStatus.ChangesRequested)
            && |after.g.tasks| == n + |RevisionActions(TargetOf(step), EnabledOf(step))|
            && forall k :: n <= k < |after.g.tasks| ==>
                 && after.g.tasks[k].post == Some(s.post) && after.g.tasks[k].revision == s.revision + 1
                 && after.g.tasks[k].action == RevisionActions(TargetOf(step), EnabledOf(step))[k - n]
                 && after.g.tasks[k].status == Pending && after.g.tasks[k].dependsOn == (if k > n then [k - 1] else [])
                 && (after.g.tasks[k].fromQa <==> IsQaFeedback(step) && (k == n || after.g.tasks[k].action == Direct)))
  {
    hide RevisionActions;
    match step
    case SQaRevise(i, target, enabled) => QaOpensExactly(s, i, target, enabled);
    case SElsewhere(graphStep) => hide LiveGraph.Next;
    case _ => hide LiveGraph.Next, MoveTask, FinishWrite, CancelAll, QaRevisions;
  }

  lemma QaOpensExactly(s: State, i: nat, target: Target, enabled: set<Action>)
    ensures var after, n, step := QaRevise(s, i, target, enabled), |s.g.tasks|, SQaRevise(i, target, enabled);
      && after.revision == s.revision + (if QaOpens(s, step) then 1 else 0)
      && after.status == s.status
      && (QaOpens(s, step) ==>
            && |after.g.tasks| == n + |RevisionActions(target, enabled)|
            && forall k :: n <= k < |after.g.tasks| ==>
                 && after.g.tasks[k].post == Some(s.post) && after.g.tasks[k].revision == s.revision + 1
                 && after.g.tasks[k].action == RevisionActions(target, enabled)[k - n]
                 && after.g.tasks[k].status == Pending && after.g.tasks[k].dependsOn == (if k > n then [k - 1] else [])
                 && (after.g.tasks[k].fromQa <==> k == n || after.g.tasks[k].action == Direct))
  {
    hide RevisionActions;
  }

  // ---------------------------------------------------------------- the post moves

  /** The status a run of the action takes its post into. */
  predicate StatusOfRun(action: Action, status: Posts.PostStatus) {
    && (action == Write <==> status == Posts.PostStatus.Drafting)
    && (action == Direct <==> status == Posts.PostStatus.Visualizing)
    && (action == Adapt <==> status == Posts.PostStatus.Adapting)
    && (action == Qa <==> status == Posts.PostStatus.Qa)
    && (action == Strategy <==> status == Posts.PostStatus.Idea)
  }

  /** A run that has started and saw the post elsewhere takes it along an edge of the table. */
  predicate Enters(s: State, step: Revisions.Step, to: Posts.PostStatus) {
    && step.SEnter? && step.run < |s.runs| && s.runs[step.run].phase == Started
    && Mine(s, s.runs[step.run].task) && StatusOfRun(s.g.tasks[s.runs[step.run].task].action, to)
    && s.runs[step.run].seen != to && Posts.CanTransition(s.status, to)
  }

  /** The post comes into a status by a run entering it, by a QA that passes it from QA, by feedback, or past
      production by the table's edges. */
  lemma PostMovesExactly(s: State, step: Revisions.Step, to: Posts.PostStatus)
    requires s.status != to
    ensures Revisions.Next(s, step).status == to <==>
      || Enters(s, step, to)
      || (to == Posts.PendingApproval && step.SQaSend? && Runs(s, step.run, Qa) && Posts.CanTransition(s.status, Posts.PendingApproval))
      || (to == Posts.PostStatus.ChangesRequested && PeopleOpen(s, step))
      || (step.SPostMoves? && step.to == to && !Posts.InProduction(s.status) && !Posts.InProduction(to) && Posts.CanTransition(s.status, to))
  {
    hide RevisionActions, Append, LiveGraph.Next, MoveTask, FinishWrite, CancelAll, QaRevisions;
    match step
    case SEnter(i) => if RunIs(s, i, Started) { StatusIsOfRun(s.g.tasks[s.runs[i].task].action, to); } hide StatusOfRun, StatusFor;
    case SQaRevise(i, target, enabled) => QaOpensExactly(s, i, target, enabled); hide QaRevise;
    case _ =>
  }

  lemma StatusIsOfRun(action: Action, status: Posts.PostStatus)
    ensures StatusFor(action) == status <==> StatusOfRun(action, status)
  {
  }

  /** An archived post has no unfinished task: those it had are CANCELLED. */
  lemma ArchivingEndsTheWork(s: State)
    ensures var after := Revisions.Next(s, SArchive);
      && after.archived && |after.g.tasks| == |s.g.tasks|
      && forall t :: 0 <= t < |s.g.tasks| ==>
           after.g.tasks[t].status == if s.g.tasks[t].status in {Succeeded, Escalated, TaskStatus.Failed} then s.g.tasks[t].status else Cancelled
  {
  }

  // ---------------------------------------------------------------- a run goes on

  predicate IsOfPost(s: State, t: TaskId) {
    t < |s.g.tasks| && s.g.tasks[t].post == Some(s.post)
  }

  /** Only a task of the post that is QUEUED, or RUNNING already, is picked up; the run notes the post's status. */
  lemma RunsAreAddedExactly(s: State, step: Revisions.Step)
    ensures var after := Revisions.Next(s, step);
      if step.SLoad? && IsOfPost(s, step.task) && s.g.tasks[step.task].status in {Queued, Running}
      then |after.runs| == |s.runs| + 1 && after.runs[|s.runs|] == Run(step.task, s.status, Loaded, None)
      else |after.runs| == |s.runs|
  {
    hide RevisionActions, Append, LiveGraph.Next, MoveTask, FinishWrite, CancelAll, QaRevisions;
  }

  /** A run starts its task, then enters the post, then, for QA, counts the revisions QA asked for; it keeps
      its task and what it saw. */
  lemma RunsGoOnExactly(s: State, step: Revisions.Step, i: nat)
    requires i < |s.runs|
    ensures i < |Revisions.Next(s, step).runs|
    ensures var before, after := s.runs[i], Revisions.Next(s, step).runs[i];
      && after.task == before.task && after.seen == before.seen
      && (after.phase != before.phase <==>
            && IsOfPost(s, before.task)
            && (|| (before.phase == Loaded && step == SStart(i) && s.g.tasks[before.task].status in {Queued, Running})
                || (before.phase == Started && step == SEnter(i))))
      && (after.phase != before.phase ==> after.phase == if before.phase == Loaded then Started else Entered)
      && after.used == (if step == SCount(i) && before.phase == Entered && IsOfPost(s, before.task) && s.g.tasks[before.task].action == Qa
                        then Some(|AskedByQa(s)|) else before.used)
  {
    hide RevisionActions, Append, LiveGraph.Next, MoveTask, FinishWrite, CancelAll;
    AskedIsCounted(s);
    hide QaRevisions, AskedByQa;
  }

  /** The post's revisions with QA's feedback. */
  function AskedByQa(s: State): set<nat> {
    set t | 0 <= t < |s.g.tasks| && IsOfPost(s, t) && s.g.tasks[t].fromQa && s.g.tasks[t].revision != 0 :: s.g.tasks[t].revision
  }

  lemma AskedIsCounted(s: State)
    ensures AskedByQa(s) == QaRevisions(s.g.tasks, s.post)
  {
  }

  /** A task of the post SUCCEEDS when its run finishes it: the write with its copy, QA with a pass from QA or a
      revision within the limit; a direct when its takes are settled or kept. */
  predicate EndsWell(s: State, step: Revisions.Step, t: TaskId)
    requires t < |s.g.tasks|
  {
    || (step.SFinish? && Runs(s, step.run, Write) && s.runs[step.run].task == t)
    || (step.SQaSend? && Runs(s, step.run, Qa) && s.runs[step.run].task == t && Posts.CanTransition(s.status, Posts.PendingApproval))
    || (QaOpens(s, step) && s.runs[step.run].task == t)
    || (step.STask? && step.task == t && step.move == Settle && s.g.tasks[t].status == Waiting)
    || (step.STask? && step.task == t && step.move == AcceptBest && s.g.tasks[t].action == Direct
        && s.g.tasks[t].status in {Escalated, TaskStatus.Failed})
  }

  predicate StatusIn(s: State, t: TaskId, statuses: set<TaskStatus>) {
    t < |s.g.tasks| && s.g.tasks[t].status in statuses
  }

  predicate HandsOff(s: State, step: Revisions.Step, t: TaskId, to: TaskStatus) {
    step.STask? && step.task == t && step.move.HandOff? && (step.move.to == Escalated <==> to == Escalated)
    && StatusIn(s, t, {Queued, Running, Waiting})
  }

  predicate WorkTakes(s: State, step: Revisions.Step, t: TaskId, to: TaskStatus)
    requires t < |s.g.tasks|
  {
    match to
    case Pending => false
    case Queued =>
      || (step.SElsewhere? && step.step.SQueue? && step.step.list in s.g.lists && t in step.step.list && StatusIn(s, t, {Pending}))
      || (step.STask? && step.task == t && step.move.Requeue? && step.move.from == s.g.tasks[t].status
          && StatusIn(s, t, {Running, BlockedBudget, Escalated, TaskStatus.Failed}))
    case Running =>
      step.SStart? && step.run < |s.runs| && s.runs[step.run].phase == Loaded && s.runs[step.run].task == t && StatusIn(s, t, {Queued})
    case Waiting => step.SPlan? && Runs(s, step.run, Direct) && s.runs[step.run].task == t
    case Succeeded => EndsWell(s, step, t)
    case Escalated => HandsOff(s, step, t, Escalated)
    case Failed => HandsOff(s, step, t, TaskStatus.Failed)
    case BlockedBudget => step.STask? && step.task == t && step.move == Block && StatusIn(s, t, {Queued, Running})
    case Cancelled => step.SArchive? && StatusIn(s, t, {Pending, Queued, Running, Waiting, BlockedBudget})
  }

  /** A task of the post comes into a status by its own run, by what hands it off, requeues or resolves it, and
      by no step of another task's. */
  lemma WorkMovesExactly(s: State, step: Revisions.Step, t: TaskId, to: TaskStatus)
    requires IsOfPost(s, t) && s.g.tasks[t].status != to
    ensures t < |Revisions.Next(s, step).g.tasks|
    ensures Revisions.Next(s, step).g.tasks[t].status == to <==> WorkTakes(s, step, t, to)
  {
    hide Revisions.Next, WorkTakes;
    match step
    case SElsewhere(graphStep) => ElsewhereMoves(s, graphStep, t, to);
    case SFinish(i, gaps) => FinishingMoves(s, i, gaps, t, to);
    case SStart(_) => RunningMoves(s, step, t, to);
    case SPlan(_) => RunningMoves(s, step, t, to);
    case SQaSend(_) => PassingMoves(s, step, t, to);
    case SQaRevise(i, target, enabled) => RevisingMoves(s, i, target, enabled, t, to);
    case STask(u, move) => HandlingMoves(s, u, move, t, to);
    case SArchive => ArchivingMoves(s, t, to);
    case _ => OthersMove(s, step, t, to);
  }

  lemma ElsewhereMoves(s: State, step: LiveGraph.Step, t: TaskId, to: TaskStatus)
    requires IsOfPost(s, t) && s.g.tasks[t].status != to
    ensures t < |Revisions.Next(s, SElsewhere(step)).g.tasks|
    ensures Revisions.Next(s, SElsewhere(step)).g.tasks[t].status == to <==> WorkTakes(s, SElsewhere(step), t, to)
  {
    StatusChangesExactly(s.g, step, t, to);
    hide LiveGraph.Next;
  }

  lemma FinishingMoves(s: State, i: nat, gaps: bool, t: TaskId, to: TaskStatus)
    requires IsOfPost(s, t) && s.g.tasks[t].status != to
    ensures t < |Revisions.Next(s, SFinish(i, gaps)).g.tasks|
    ensures Revisions.Next(s, SFinish(i, gaps)).g.tasks[t].status == to <==> WorkTakes(s, SFinish(i, gaps), t, to)
  {
    if RunOf(s, i, Write) {
      FinishChanges(s.g, s.runs[i].task, gaps, t, to);
    }
    hide FinishWrite, HasDirect;
  }

  lemma RunningMoves(s: State, step: Revisions.Step, t: TaskId, to: TaskStatus)
    requires IsOfPost(s, t) && s.g.tasks[t].status != to && (step.SStart? || step.SPlan?)
    ensures t < |Revisions.Next(s, step).g.tasks|
    ensures Revisions.Next(s, step).g.tasks[t].status == to <==> WorkTakes(s, step, t, to)
  {
  }

  lemma PassingMoves(s: State, step: Revisions.Step, t: TaskId, to: TaskStatus)
    requires IsOfPost(s, t) && s.g.tasks[t].status != to && step.SQaSend?
    ensures t < |Revisions.Next(s, step).g.tasks|
    ensures Revisions.Next(s, step).g.tasks[t].status == to <==> WorkTakes(s, step, t, to)
  {
  }

  lemma RevisingMoves(s: State, i: nat, target: Target, enabled: set<Action>, t: TaskId, to: TaskStatus)
    requires IsOfPost(s, t) && s.g.tasks[t].status != to
    ensures var step := SQaRevise(i, target, enabled);
      t < |Revisions.Next(s, step).g.tasks| && (Revisions.Next(s, step).g.tasks[t].status == to <==> WorkTakes(s, step, t, to))
  {
    hide RevisionActions, NewChain;
  }

  lemma HandlingMoves(s: State, u: TaskId, move: Move, t: TaskId, to: TaskStatus)
    requires IsOfPost(s, t) && s.g.tasks[t].status != to
    ensures t < |Revisions.Next(s, STask(u, move)).g.tasks|
    ensures Revisions.Next(s, STask(u, move)).g.tasks[t].status == to <==> WorkTakes(s, STask(u, move), t, to)
  {
  }

  lemma ArchivingMoves(s: State, t: TaskId, to: TaskStatus)
    requires IsOfPost(s, t) && s.g.tasks[t].status != to
    ensures t < |Revisions.Next(s, SArchive).g.tasks|
    ensures Revisions.Next(s, SArchive).g.tasks[t].status == to <==> WorkTakes(s, SArchive, t, to)
  {
  }

  lemma OthersMove(s: State, step: Revisions.Step, t: TaskId, to: TaskStatus)
    requires IsOfPost(s, t) && s.g.tasks[t].status != to
    requires step.SLoad? || step.SEnter? || step.SCount? || step.SHumanFeedback? || step.SReopen? || step.SPostMoves?
    ensures t < |Revisions.Next(s, step).g.tasks|
    ensures Revisions.Next(s, step).g.tasks[t].status == to <==> WorkTakes(s, step, t, to)
  {
    hide RevisionActions, NewChain, QaRevisions, StatusFor;
  }
}
