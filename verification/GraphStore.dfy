/** The task table as its code updates it (apps/api/src/orchestrator/{graph,feedback,run-task,sweeper}.ts):
    each method leaves the rows its step of module LiveGraph describes. */
module GraphStore {
  import opened Options
  import opened TaskGraph
  import opened LiveGraph
  import opened Revisions

  /** The tasks of a ready list. */
  function Listed(ready: seq<TaskId>): set<TaskId> {
    set t | t in ready
  }

  class GraphRows {
    var tasks: Tasks
    /** The ready lists read so far. */
    ghost var lists: set<set<TaskId>>

    constructor (tasks: Tasks)
      ensures Now() == Graph(tasks, {})
    {
      this.tasks, this.lists := tasks, {};
    }

    ghost function Now(): Graph
      reads this
    {
      Graph(tasks, lists)
    }

    // -------------------------------------------------------------- advance

    /** The read of advance(): the PENDING tasks whose dependencies have all SUCCEEDED. */
    method FindReady() returns (ready: seq<TaskId>)
      modifies `lists
      ensures Now() == Read(old(Now()))
      ensures Listed(ready) == Ready(tasks)
    {
      var succeeded := set t | 0 <= t < |tasks| && tasks[t].status == Succeeded;
      ready := [];
      for t := 0 to |tasks|
        invariant forall i :: i in ready <==> 0 <= i < t && tasks[i].status == Pending && DepsDone(tasks, i)
      {
        if tasks[t].status == Pending && forall d :: d in tasks[t].dependsOn ==> d in succeeded {
          ready := ready + [t];
        }
      }
      lists := lists + {Ready(tasks)};
    }

    /** The update of advance(), on the list it read; returns how many tasks it queued. */
    method QueueReady(ready: seq<TaskId>) returns (queued: nat)
      requires Listed(ready) in lists && forall t :: t in ready ==> t < |tasks|
      modifies `tasks
      ensures Now() == LiveGraph.Queue(old(Now()), Listed(ready))
      ensures queued == 0 ==> tasks == old(tasks)
    {
      queued := 0;
      for i := 0 to |ready|
        invariant |tasks| == |old(tasks)|
        invariant forall t :: 0 <= t < |tasks| ==>
                    tasks[t] == if t in ready[..i] && old(tasks)[t].status == Pending
                                then old(tasks)[t].(status := Queued) else old(tasks)[t]
        invariant queued == 0 ==> tasks == old(tasks)
      {
        var t := ready[i];
        assert ready[..i + 1] == ready[..i] + [t];
        assert t in ready;
        if tasks[t].status == Pending {
          tasks := tasks[t := tasks[t].(status := Queued)];
          queued := queued + 1;
        }
      }
      assert ready[..|ready|] == ready;
      assert tasks == LiveGraph.Queue(old(Now()), Listed(ready)).tasks;
    }

    // -------------------------------------------------------------- one task

    /** Every conditional status update: `true` when the row was in a status it names. */
    method UpdateStatus(t: TaskId, move: Move) returns (moved: bool)
      modifies `tasks
      ensures Now() == MoveTask(old(Now()), t, move)
      ensures moved <==> CanMove(old(tasks), t, move)
    {
      moved := t < |tasks| && tasks[t].status in MovesFrom(move);
      if moved {
        tasks := tasks[t := tasks[t].(status := MovesTo(move))];
      }
    }

    /** runWrite's transaction. */
    method FinishWriteIn(w: TaskId, gaps: bool) returns (stored: bool)
      modifies `tasks
      ensures Now() == FinishWrite(old(Now()), w, gaps)
    {
      stored := UpdateStatus(w, Succeed);
      if stored && gaps {
        var direct := SpliceDirectAfter(w);
      }
    }

    // -------------------------------------------------------------- the graph grows

    /** appendRevision: one task per action, each waiting for the one created before it. Returns the
        ids of the chain. */
    method AppendRevision(post: Option<PostRef>, revision: nat, target: Target, enabled: set<Action>, fromQa: bool)
      returns (created: seq<TaskId>)
      modifies `tasks
      ensures tasks == Append(old(tasks), post, revision, RevisionActions(target, enabled), fromQa)
      ensures created == NewIds(|old(tasks)|, |RevisionActions(target, enabled)|)
    {
      hide RevisionActions;
      var actions := RevisionActions(target, enabled);
      created := [];
      for k := 0 to |actions|
        invariant |tasks| == |old(tasks)| + k && |created| == k
        invariant forall i :: 0 <= i < k ==> created[i] == |old(tasks)| + i
        invariant tasks == old(tasks) + NewChain(post, revision, actions, fromQa, |old(tasks)|)[..k]
      {
        var previous := if k == 0 then None else Some(created[k - 1]);
        var row := Task(post, actions[k], revision, Pending, if previous.Some? then [previous.value] else [],
                        fromQa && (previous.None? || actions[k] == Direct));
        assert row == NewChain(post, revision, actions, fromQa, |old(tasks)|)[k];
        created := created + [|tasks|];
        tasks := tasks + [row];
      }
    }

    /** spliceDirectAfter: nothing when the chain has a direct already. */
    method SpliceDirectAfter(w: TaskId) returns (direct: Option<TaskId>)
      requires w < |tasks|
      modifies `tasks
      ensures tasks == Splice(old(tasks), w)
      ensures direct.None? <==> HasDirect(old(tasks), w)
    {
      if exists t :: 0 <= t < |tasks| && SameChain(tasks[t], tasks[w]) && tasks[t].action == Direct {
        return None;
      }
      var n := |tasks|;
      var write := tasks[w];
      tasks := tasks + [Task(write.post, Direct, write.revision, Pending, [w], false)];
      for t := 0 to n
        invariant |tasks| == n + 1 && tasks[n] == Task(write.post, Direct, write.revision, Pending, [w], false)
        invariant forall i :: 0 <= i < n ==>
                    tasks[i] == if i < t && SameChain(old(tasks)[i], write)
                                then old(tasks)[i].(dependsOn := Rewired(old(tasks)[i].dependsOn, w, n)) else old(tasks)[i]
      {
        if SameChain(tasks[t], write) && w in tasks[t].dependsOn {
          tasks := tasks[t := tasks[t].(dependsOn := Rewired(tasks[t].dependsOn, w, n))];
        } else if SameChain(tasks[t], write) {
          NothingToRewire(tasks[t].dependsOn, w, n);
        }
      }
      direct := Some(n);
    }

    // -------------------------------------------------------------- the sweeper

    /** sweepBudget, once today's budget has room: every blocked task is queued again. */
    method SweepBudget() returns (requeued: nat)
      modifies `tasks
      ensures |tasks| == |old(tasks)|
      ensures forall t :: 0 <= t < |tasks| ==>
                tasks[t] == if old(tasks)[t].status == BlockedBudget then old(tasks)[t].(status := Queued) else old(tasks)[t]
    {
      requeued := 0;
      for t := 0 to |tasks|
        invariant |tasks| == |old(tasks)|
        invariant forall i :: 0 <= i < |tasks| ==>
                    tasks[i] == if i < t && old(tasks)[i].status == BlockedBudget
                                then old(tasks)[i].(status := Queued) else old(tasks)[i]
      {
        var moved := UpdateStatus(t, Requeue(BlockedBudget));
        if moved {
          requeued := requeued + 1;
        }
      }
    }
  }

  lemma NothingToRewire(dependsOn: seq<TaskId>, w: TaskId, direct: TaskId)
    requires w !in dependsOn
    ensures Rewired(dependsOn, w, direct) == dependsOn
  {
  }
}
