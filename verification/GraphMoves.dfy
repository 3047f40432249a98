/** Which step changes a task's status, adds tasks or rewires them, and when: said of every step of
    module LiveGraph at once, on the rows alone. */
module GraphMoves {
  import opened Options
  import opened TaskGraph
  import opened LiveGraph

  // ---------------------------------------------------------------- a task's status

  predicate Was(g: Graph, t: TaskId, statuses: set<TaskStatus>) {
    t < |g.tasks| && g.tasks[t].status in statuses
  }

  /** `to` is the status the step takes the task to, from the status it is in. */
  predicate Takes(g: Graph, step: Step, t: TaskId, to: TaskStatus) {
    match to
    case Pending => false
    case Queued =>
      || (step.SQueue? && step.list in g.lists && t in step.list && Was(g, t, {Pending}))
      || (step.SMove? && step.task == t && step.move.Requeue? && Was(g, t, {Running, BlockedBudget, Escalated, TaskStatus.Failed})
          && Was(g, t, {step.move.from}))
    case Running => step.SMove? && step.task == t && step.move == Start && Was(g, t, {Queued})
    case Waiting => step.SMove? && step.task == t && step.move == Wait && Was(g, t, {Running})
    case Succeeded =>
      || (step.SMove? && step.task == t && step.move == Succeed && Was(g, t, {Running}))
      || (step.SFinishWrite? && step.write == t && Was(g, t, {Running}))
      || (step.SMove? && step.task == t && step.move == Settle && Was(g, t, {Waiting}))
      || (step.SMove? && step.task == t && step.move == AcceptBest && Was(g, t, {Escalated, TaskStatus.Failed}))
    case Escalated =>
      step.SMove? && step.task == t && step.move == HandOff(Escalated) && Was(g, t, {Queued, Running, Waiting})
    case Failed =>
      step.SMove? && step.task == t && step.move.HandOff? && step.move.to != Escalated && Was(g, t, {Queued, Running, Waiting})
    case BlockedBudget => step.SMove? && step.task == t && step.move == Block && Was(g, t, {Queued, Running})
    case Cancelled => step.SCancelAll? && Was(g, t, {Pending, Queued, Running, Waiting, BlockedBudget})
  }

  /** A task comes into a status exactly by the updates that name the status it was in; one that SUCCEEDED or
      was CANCELLED never leaves it. */
  lemma StatusChangesExactly(g: Graph, step: Step, t: TaskId, to: TaskStatus)
    requires t < |g.tasks| && g.tasks[t].status != to
    ensures t < |Next(g, step).tasks|
    ensures Next(g, step).tasks[t].status == to <==> Takes(g, step, t, to)
  {
    if step.SMove? {
      hide FinishWrite, Queue, CancelAll, Append;
    } else {
      hide MovesFrom, MovesTo, Was;
      match step
      case SFinishWrite(w, gaps) => FinishChanges(g, w, gaps, t, to);
      case _ => OthersChange(g, step, t, to);
    }
  }

  lemma FinishChanges(g: Graph, w: TaskId, gaps: bool, t: TaskId, to: TaskStatus)
    requires t < |g.tasks| && g.tasks[t].status != to
    ensures t < |FinishWrite(g, w, gaps).tasks|
    ensures FinishWrite(g, w, gaps).tasks[t].status == to <==> Takes(g, SFinishWrite(w, gaps), t, to)
  {
    hide HasDirect, Rewired;
  }

  lemma OthersChange(g: Graph, step: Step, t: TaskId, to: TaskStatus)
    requires t < |g.tasks| && g.tasks[t].status != to && !step.SMove? && !step.SFinishWrite?
    ensures t < |Next(g, step).tasks|
    ensures Next(g, step).tasks[t].status == to <==> Takes(g, step, t, to)
  {
    hide NewChain, MovesFrom, MovesTo, Ready;
  }

  // ---------------------------------------------------------------- the graph grows

  predicate InChain(tasks: Tasks, t: TaskId, w: TaskId)
    requires t < |tasks| && w < |tasks|
  {
    tasks[t].post == tasks[w].post && tasks[t].revision == tasks[w].revision
  }

  /** The write succeeds with takes its copy no longer fits, and its chain has no direct to redo them. */
  predicate Splices(g: Graph, step: Step) {
    && step.SFinishWrite? && step.gaps && Was(g, step.write, {Running})
    && forall t :: 0 <= t < |g.tasks| && InChain(g.tasks, t, step.write) ==> g.tasks[t].action != Direct
  }

  lemma SplicesIs(g: Graph, w: TaskId, gaps: bool)
    requires CanMove(g.tasks, w, Succeed)
    ensures Splices(g, SFinishWrite(w, gaps)) <==> gaps && !HasDirect(SetStatus(g.tasks, w, Succeeded), w)
  {
    var done := SetStatus(g.tasks, w, Succeeded);
    assert forall t :: 0 <= t < |g.tasks| ==> done[t].action == g.tasks[t].action && (SameChain(done[t], done[w]) <==> InChain(g.tasks, t, w));
  }

  /** What a task is for never changes; what it waits for only where a direct is spliced in behind a write it
      waits for, and then in that one place. */
  lemma RowsStayExactly(g: Graph, step: Step, t: TaskId)
    requires t < |g.tasks|
    ensures var before, after := g.tasks[t], Next(g, step).tasks[t];
      && after.post == before.post && after.action == before.action
      && after.revision == before.revision && after.fromQa == before.fromQa
      && |after.dependsOn| == |before.dependsOn|
      && forall k :: 0 <= k < |before.dependsOn| ==>
           after.dependsOn[k] == if Splices(g, step) && InChain(g.tasks, t, step.write) && before.dependsOn[k] == step.write
                                 then |g.tasks| else before.dependsOn[k]
  {
    match step
    case SRead =>
    case SQueue(list) =>
    case SMove(u, move) =>
    case SFinishWrite(w, gaps) =>
      if CanMove(g.tasks, w, Succeed) {
        SplicesIs(g, w, gaps);
        hide HasDirect, Splices;
      }
    case SAppend(post, revision, actions, fromQa) =>
    case SCancelAll =>
  }

  /** A task is added only by a revision's chain or a splice: PENDING, each behind the one before it. Of QA's
      feedback a chain's first task gets a copy, and its direct one. */
  lemma TasksAddedExactly(g: Graph, step: Step)
    ensures var n, after := |g.tasks|, Next(g, step).tasks;
      && |after| == n + (if step.SAppend? then |step.actions| else if Splices(g, step) then 1 else 0)
      && (step.SAppend? ==> forall k :: 0 <= k < |step.actions| ==>
            && after[n + k].post == step.post && after[n + k].revision == step.revision
            && after[n + k].action == step.actions[k] && after[n + k].status == Pending
            && after[n + k].dependsOn == (if k > 0 then [n + k - 1] else [])
            && (after[n + k].fromQa <==> step.fromQa && (k == 0 || step.actions[k] == Direct)))
      && (Splices(g, step) ==>
            && after[n].action == Direct && after[n].status == Pending && after[n].dependsOn == [step.write] && !after[n].fromQa
            && after[n].post == g.tasks[step.write].post && after[n].revision == g.tasks[step.write].revision)
  {
    match step
    case SRead =>
    case SQueue(list) =>
    case SMove(u, move) =>
    case SFinishWrite(w, gaps) =>
      if CanMove(g.tasks, w, Succeed) {
        SplicesIs(g, w, gaps);
        hide HasDirect, Splices;
      }
    case SAppend(post, revision, actions, fromQa) =>
    case SCancelAll =>
  }

  // ---------------------------------------------------------------- on every run

  /** At that moment of the run the task was PENDING and everything it waits for had SUCCEEDED. */
  ghost predicate ReadyAt(g: Graph, steps: seq<Step>, t: TaskId, i: nat) {
    i <= |steps| && t in Ready(Exec(g, steps[..i]).tasks)
  }

  ghost predicate ListsWereReady(g: Graph, steps: seq<Step>) {
    forall list, t :: list in Exec(g, steps).lists && list !in g.lists && t in list ==> exists i: nat :: ReadyAt(g, steps, t, i)
  }

  /** Whatever advance() is ever going to queue was ready at some moment of the run. */
  lemma {:induction false} OnlyReadyTasksAreListed(g: Graph, steps: seq<Step>)
    ensures ListsWereReady(g, steps)
    decreases |steps|
  {
    hide Ready;
    if steps != [] {
      var after := Next(g, steps[0]);
      OnlyReadyTasksAreListed(after, steps[1..]);
      forall list, t | list in Exec(g, steps).lists && list !in g.lists && t in list ensures exists i: nat :: ReadyAt(g, steps, t, i) {
        if list in after.lists {
          ListedByRead(g, steps[0], list);
          assert steps[..0] == [];
          assert ReadyAt(g, steps, t, 0);
        } else {
          var i: nat :| ReadyAt(after, steps[1..], t, i);
          assert steps[..i + 1][0] == steps[0] && steps[..i + 1][1..] == steps[1..][..i];
          assert ReadyAt(g, steps, t, i + 1);
        }
      }
    }
  }

  lemma ListedByRead(g: Graph, step: Step, list: set<TaskId>)
    requires list in Next(g, step).lists && list !in g.lists
    ensures step == SRead && list == Ready(g.tasks)
  {
    hide Ready, Splice, Append, SetStatus;
  }
}
