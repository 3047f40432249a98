/** What the progress of a graph says of its rows: whom a stopped task holds up, and what each number
    of an entry counts. */
module ProgressCounts {
  import opened Options
  import opened TaskGraph
  import opened LiveGraph
  import opened Progress

  // ---------------------------------------------------------------- behind a stopped task

  /** Row `after` depends on row `before`. */
  predicate DependsOnRow(tasks: seq<ProgressTask>, after: nat, before: nat)
    requires after < |tasks| && before < |tasks|
  {
    tasks[before].id.Some? && tasks[before].id.value in tasks[after].dependsOn
  }

  /** Rows from a PENDING one back to one that is escalated, failed or cancelled, all between PENDING. */
  ghost predicate LeadsToStopped(tasks: seq<ProgressTask>, path: seq<nat>) {
    && |path| >= 2
    && (forall k :: 0 <= k < |path| ==> path[k] < |tasks| && tasks[path[k]].id.Some?)
    && (forall k :: 0 <= k < |path| - 1 ==> tasks[path[k]].status == Pending && DependsOnRow(tasks, path[k], path[k + 1]))
    && (var last := tasks[path[|path| - 1]].status;
        last == Escalated || last == TaskStatus.Failed || last == Cancelled)
  }

  ghost predicate IsStuck(tasks: seq<ProgressTask>, id: Id) {
    exists path :: LeadsToStopped(tasks, path) && tasks[path[0]].id == Some(id)
  }

  lemma {:induction false} PathIsBlocked(tasks: seq<ProgressTask>, blocked: set<Id>, path: seq<nat>)
    requires DistinctIds(tasks) && Closed(tasks, blocked) && LeadsToStopped(tasks, path)
    ensures tasks[path[0]].id.value in blocked
    decreases |path|
  {
    hide StatusById;
    var task, next := tasks[path[0]], tasks[path[1]];
    assert task in tasks && DependsOnRow(tasks, path[0], path[1]);
    StatusOfId(tasks, path[1]);
    if |path| > 2 {
      PathIsBlocked(tasks, blocked, path[1..]);
    }
    assert Holds(tasks, blocked, next.id.value);
    assert HeldBack(tasks, blocked, task);
  }

  lemma StuckIsClosed(tasks: seq<ProgressTask>, stuck: set<Id>, i: nat)
    requires DistinctIds(tasks) && i < |tasks| && HeldBack(tasks, stuck, tasks[i])
    requires forall id :: id in stuck ==> IsStuck(tasks, id)
    ensures IsStuck(tasks, tasks[i].id.value)
  {
    hide StatusById;
    var d :| d in tasks[i].dependsOn && Holds(tasks, stuck, d);
    if d in stuck {
      var path :| LeadsToStopped(tasks, path) && tasks[path[0]].id == Some(d);
      assert DependsOnRow(tasks, i, path[0]);
      var longer := [i] + path;
      assert forall k :: 0 <= k < |path| ==> longer[k + 1] == path[k];
      assert LeadsToStopped(tasks, longer);
    } else {
      OnlyListedIds(tasks, d);
      var j :| 0 <= j < |tasks| && tasks[j].id == Some(d);
      StatusOfId(tasks, j);
      assert DependsOnRow(tasks, i, j);
      assert LeadsToStopped(tasks, [i, j]);
    }
  }

  /** The blocked ids are those of the rows from which PENDING rows lead back to a stopped one. */
  lemma BlockedExactlyBehindAStop(tasks: seq<ProgressTask>, blocked: set<Id>, id: Id)
    requires DistinctIds(tasks) && IsBlockedSet(tasks, blocked)
    ensures id in blocked <==> IsStuck(tasks, id)
  {
    hide HeldBack;
    if IsStuck(tasks, id) {
      var path :| LeadsToStopped(tasks, path) && tasks[path[0]].id == Some(id);
      PathIsBlocked(tasks, blocked, path);
    }
    var stuck := set other | other in AllIds(tasks) && IsStuck(tasks, other);
    forall task | task in tasks && HeldBack(tasks, stuck, task) ensures task.id.Some? && task.id.value in stuck {
      var i :| 0 <= i < |tasks| && tasks[i] == task;
      HeldHasId(tasks, stuck, task);
      StuckIsClosed(tasks, stuck, i);
    }
    assert Closed(tasks, stuck);
  }

  lemma HeldHasId(tasks: seq<ProgressTask>, blocked: set<Id>, task: ProgressTask)
    requires HeldBack(tasks, blocked, task)
    ensures task.status == Pending && task.id.Some?
  {
  }

  // ---------------------------------------------------------------- what an entry counts

  ghost function Rows(tasks: seq<ProgressTask>, test: ProgressTask -> bool): set<nat> {
    set i: nat | i < |tasks| && test(tasks[i])
  }

  predicate IsOne(task: ProgressTask, agent: Agent, statuses: set<TaskStatus>) {
    task.agent == agent && task.status in statuses
  }

  predicate IsOneBlocked(task: ProgressTask, agent: Agent, blocked: set<Id>) {
    IsOne(task, agent, {Pending, BlockedBudget}) && task.id.Some? && task.id.value in blocked
  }

  /** How many of the agent's rows are in one of the statuses. */
  ghost function Number(tasks: seq<ProgressTask>, agent: Agent, statuses: set<TaskStatus>): nat {
    |Rows(tasks, task => IsOne(task, agent, statuses))|
  }

  ghost function NumberBlocked(tasks: seq<ProgressTask>, agent: Agent, blocked: set<Id>): nat {
    |Rows(tasks, task => IsOneBlocked(task, agent, blocked))|
  }

  lemma OneRowMore(tasks: seq<ProgressTask>, test: ProgressTask -> bool)
    requires tasks != []
    ensures var n := |tasks| - 1;
            |Rows(tasks, test)| == |Rows(tasks[..n], test)| + if test(tasks[n]) then 1 else 0
  {
    var n := |tasks| - 1;
    assert forall i: nat :: i < n ==> tasks[..n][i] == tasks[i];
    assert n !in Rows(tasks[..n], test);
    if test(tasks[n]) {
      assert Rows(tasks, test) == Rows(tasks[..n], test) + {n};
    } else {
      assert Rows(tasks, test) == Rows(tasks[..n], test);
    }
  }

  lemma OneMore(tasks: seq<ProgressTask>, agent: Agent, statuses: set<TaskStatus>)
    requires tasks != []
    ensures var n := |tasks| - 1;
            Number(tasks, agent, statuses) == Number(tasks[..n], agent, statuses) + if IsOne(tasks[n], agent, statuses) then 1 else 0
  {
    OneRowMore(tasks, task => IsOne(task, agent, statuses));
  }

  lemma OneMoreBlocked(tasks: seq<ProgressTask>, agent: Agent, blocked: set<Id>)
    requires tasks != []
    ensures var n := |tasks| - 1;
            NumberBlocked(tasks, agent, blocked)
            == NumberBlocked(tasks[..n], agent, blocked) + if IsOneBlocked(tasks[n], agent, blocked) then 1 else 0
  {
    OneRowMore(tasks, task => IsOneBlocked(task, agent, blocked));
  }

  const UNCANCELLED := {Pending, Queued, Running, Waiting, Succeeded, TaskStatus.Failed, Escalated, BlockedBudget}

  /** An agent has an entry when one of its tasks is not cancelled, and each number of it counts the
      tasks it is named for. */
  lemma {:induction false} EntriesCount(tasks: seq<ProgressTask>, blocked: set<Id>, agent: Agent)
    ensures Tally(tasks, blocked, agent).Some? <==> Number(tasks, agent, UNCANCELLED) > 0
    ensures Tally(tasks, blocked, agent).Some? ==>
              var e := Tally(tasks, blocked, agent).value;
              && e.agent == agent
              && e.total == Number(tasks, agent, UNCANCELLED)
              && e.done == Number(tasks, agent, {Succeeded})
              && e.running == Number(tasks, agent, {Queued, Running})
              && e.waiting == Number(tasks, agent, {Waiting})
              && e.escalated == Number(tasks, agent, {Escalated, TaskStatus.Failed})
              && e.blocked == NumberBlocked(tasks, agent, blocked)
    decreases |tasks|
  {
    hide Number, NumberBlocked;
    if tasks == [] {
      NoTasks(agent, blocked);
    } else {
      EntriesCount(tasks[..|tasks| - 1], blocked, agent);
      OneMore(tasks, agent, UNCANCELLED);
      OneMore(tasks, agent, {Succeeded});
      OneMore(tasks, agent, {Queued, Running});
      OneMore(tasks, agent, {Waiting});
      OneMore(tasks, agent, {Escalated, TaskStatus.Failed});
      OneMoreBlocked(tasks, agent, blocked);
      if Number(tasks[..|tasks| - 1], agent, UNCANCELLED) == 0 {
        NoneBefore(tasks[..|tasks| - 1], agent, blocked);
      }
    }
  }

  /** With no task of the agent counted so far, no number counts one. */
  lemma NoneBefore(tasks: seq<ProgressTask>, agent: Agent, blocked: set<Id>)
    requires Number(tasks, agent, UNCANCELLED) == 0
    ensures forall statuses :: statuses <= UNCANCELLED ==> Number(tasks, agent, statuses) == 0
    ensures NumberBlocked(tasks, agent, blocked) == 0
  {
    assert Rows(tasks, task => IsOne(task, agent, UNCANCELLED)) == {};
    forall i: nat | i < |tasks| ensures !IsOne(tasks[i], agent, UNCANCELLED) {
      assert i !in Rows(tasks, task => IsOne(task, agent, UNCANCELLED));
    }
  }

  lemma NoTasks(agent: Agent, blocked: set<Id>)
    ensures forall statuses :: Number([], agent, statuses) == 0
    ensures NumberBlocked([], agent, blocked) == 0
  {
  }
}
