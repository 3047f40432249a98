/** The progress of a graph (packages/shared/src/progress.ts): which PENDING tasks can never run
    without a person, and when an agent's share is settled
    (apps/api/src/orchestrator/progress.ts). */
module Progress {
  import opened Options
  import opened TaskGraph
  import opened LiveGraph

  type Id = TaskId

  datatype ProgressTask = ProgressTask(id: Option<Id>, agent: Agent, status: TaskStatus, dependsOn: seq<Id>)

  // ---------------------------------------------------------------- blocked tasks

  predicate IsStopped(status: TaskStatus) {
    status in {Escalated, TaskStatus.Failed, Cancelled}
  }

  /** The statusById map: the last row with an id gives its status. */
  function StatusById(tasks: seq<ProgressTask>): map<Id, TaskStatus> {
    if tasks == [] then map[]
    else
      var last := tasks[|tasks| - 1];
      var rest := StatusById(tasks[..|tasks| - 1]);
      if last.id.Some? then rest[last.id.value := last.status] else rest
  }

  predicate Holds(tasks: seq<ProgressTask>, blocked: set<Id>, d: Id) {
    d in blocked || (d in StatusById(tasks) && IsStopped(StatusById(tasks)[d]))
  }

  /** A PENDING task with a dependency that is stopped or already held back. */
  predicate HeldBack(tasks: seq<ProgressTask>, blocked: set<Id>, task: ProgressTask) {
    task.status == Pending && task.id.Some? && exists d :: d in task.dependsOn && Holds(tasks, blocked, d)
  }

  ghost predicate Closed(tasks: seq<ProgressTask>, blocked: set<Id>) {
    forall task :: task in tasks && HeldBack(tasks, blocked, task) ==> task.id.value in blocked
  }

  /** The tasks stuck behind a stopped one, directly or further upstream, and no others. */
  ghost predicate IsBlockedSet(tasks: seq<ProgressTask>, blocked: set<Id>) {
    Closed(tasks, blocked) && forall closed: set<Id> :: Closed(tasks, closed) ==> blocked <= closed
  }

  lemma MoreHolds(tasks: seq<ProgressTask>, less: set<Id>, more: set<Id>, task: ProgressTask)
    requires less <= more && HeldBack(tasks, less, task)
    ensures HeldBack(tasks, more, task)
  {
    var d :| d in task.dependsOn && Holds(tasks, less, d);
    assert Holds(tasks, more, d);
  }

  ghost function AllIds(tasks: seq<ProgressTask>): set<Id> {
    set task | task in tasks && task.id.Some? :: task.id.value
  }

  /** blockedTaskIds */
  method BlockedTaskIds(tasks: seq<ProgressTask>) returns (blocked: set<Id>)
    ensures IsBlockedSet(tasks, blocked)
  {
    hide StatusById;
    blocked := {};
    var changed := true;
    while changed
      invariant blocked <= AllIds(tasks)
      invariant forall closed: set<Id> :: Closed(tasks, closed) ==> blocked <= closed
      invariant !changed ==> Closed(tasks, blocked)
      decreases AllIds(tasks) - blocked, changed
    {
      changed := false;
      ghost var before := blocked;
      for i := 0 to |tasks|
        invariant before <= blocked <= AllIds(tasks)
        invariant changed <==> blocked != before
        invariant forall closed: set<Id> :: Closed(tasks, closed) ==> blocked <= closed
        invariant !changed ==> forall task :: task in tasks[..i] && HeldBack(tasks, blocked, task) ==> task.id.value in blocked
      {
        var task := tasks[i];
        assert tasks[..i + 1] == tasks[..i] + [task];
        if !(task.status != Pending || task.id.None? || task.id.value in blocked) {
          if exists d :: d in task.dependsOn && Holds(tasks, blocked, d) {
            assert HeldBack(tasks, blocked, task);
            forall closed: set<Id> | Closed(tasks, closed) ensures task.id.value in closed {
              MoreHolds(tasks, blocked, closed, task);
            }
            blocked := blocked + {task.id.value};
            changed := true;
          }
        }
      }
      assert tasks[..|tasks|] == tasks;
    }
  }

  lemma BlockedSetIsUnique(tasks: seq<ProgressTask>, one: set<Id>, other: set<Id>)
    requires IsBlockedSet(tasks, one) && IsBlockedSet(tasks, other)
    ensures one == other
  {
    assert one <= other && other <= one;
  }

  ghost predicate DistinctIds(tasks: seq<ProgressTask>) {
    forall i, j :: 0 <= i < j < |tasks| && tasks[i].id.Some? ==> tasks[i].id != tasks[j].id
  }

  lemma {:induction false} StatusOfId(tasks: seq<ProgressTask>, i: nat)
    requires DistinctIds(tasks) && i < |tasks| && tasks[i].id.Some?
    ensures tasks[i].id.value in StatusById(tasks) && StatusById(tasks)[tasks[i].id.value] == tasks[i].status
    decreases |tasks|
  {
    var n := |tasks| - 1;
    if i < n {
      assert tasks[..n][i] == tasks[i];
      assert DistinctIds(tasks[..n]);
      StatusOfId(tasks[..n], i);
    }
  }

  lemma {:induction false} OnlyListedIds(tasks: seq<ProgressTask>, d: Id)
    requires d in StatusById(tasks)
    ensures exists i :: 0 <= i < |tasks| && tasks[i].id == Some(d)
    decreases |tasks|
  {
    var n := |tasks| - 1;
    if tasks[n].id != Some(d) {
      OnlyListedIds(tasks[..n], d);
      var i :| 0 <= i < n && tasks[..n][i].id == Some(d);
      assert tasks[i].id == Some(d);
    }
  }

  lemma SameStatus(tasks: seq<ProgressTask>, other: seq<ProgressTask>, d: Id)
    requires DistinctIds(tasks) && DistinctIds(other) && forall task :: task in tasks <==> task in other
    requires d in StatusById(tasks)
    ensures d in StatusById(other) && StatusById(other)[d] == StatusById(tasks)[d]
  {
    OnlyListedIds(tasks, d);
    var i :| 0 <= i < |tasks| && tasks[i].id == Some(d);
    StatusOfId(tasks, i);
    assert tasks[i] in other;
    var j :| 0 <= j < |other| && other[j] == tasks[i];
    StatusOfId(other, j);
  }

  /** The order the tasks come in does not matter. */
  lemma AnyOrderBlocksTheSame(tasks: seq<ProgressTask>, other: seq<ProgressTask>, blocked: set<Id>)
    requires DistinctIds(tasks) && DistinctIds(other) && forall task :: task in tasks <==> task in other
    ensures IsBlockedSet(tasks, blocked) <==> IsBlockedSet(other, blocked)
  {
    forall d ensures d in StatusById(tasks) <==> d in StatusById(other)
      ensures d in StatusById(tasks) ==> StatusById(other)[d] == StatusById(tasks)[d]
    {
      if d in StatusById(tasks) { SameStatus(tasks, other, d); }
      if d in StatusById(other) { SameStatus(other, tasks, d); }
    }
    assert StatusById(tasks) == StatusById(other);
    forall closed: set<Id> ensures Closed(tasks, closed) <==> Closed(other, closed) {
      assert forall task :: HeldBack(tasks, closed, task) <==> HeldBack(other, closed, task);
    }
  }

  // ---------------------------------------------------------------- no silent deadlock

  /** A graph's tasks as progress counts them. */
  function Counted(tasks: Tasks): (counted: seq<ProgressTask>)
    ensures |counted| == |tasks|
  {
    seq(|tasks|, t requires 0 <= t < |tasks| =>
          ProgressTask(Some(t), AgentFor(tasks[t].action), tasks[t].status, tasks[t].dependsOn))
  }

  predicate InFlight(status: TaskStatus) {
    status in {Queued, Running, Waiting, BlockedBudget}
  }

  predicate NothingMoves(tasks: Tasks) {
    && (forall t :: 0 <= t < |tasks| ==> !InFlight(tasks[t].status))
    && (forall t :: 0 <= t < |tasks| && tasks[t].status == Pending ==> !DepsDone(tasks, t))
  }

  lemma CountedStatus(tasks: Tasks, t: TaskId)
    requires t < |tasks|
    ensures t in StatusById(Counted(tasks)) && StatusById(Counted(tasks))[t] == tasks[t].status
  {
    StatusOfId(Counted(tasks), t);
  }

  /** When nothing is in flight and nothing is ready, every PENDING task is behind a stopped one. */
  lemma {:induction false} PendingIsBlocked(tasks: Tasks, rank: seq<nat>, blocked: set<Id>, t: TaskId)
    requires Ranked(tasks, rank) && NothingMoves(tasks) && IsBlockedSet(Counted(tasks), blocked)
    requires t < |tasks| && tasks[t].status == Pending
    ensures t in blocked
    decreases rank[t]
  {
    hide StatusById;
    assert !DepsDone(tasks, t) && Above(tasks[t].dependsOn, rank, rank[t]);
    var d :| d in tasks[t].dependsOn && (d >= |tasks| || tasks[d].status != Succeeded);
    CountedStatus(tasks, d);
    if tasks[d].status == Pending {
      PendingIsBlocked(tasks, rank, blocked, d);
    } else {
      assert !InFlight(tasks[d].status);
    }
    assert Holds(Counted(tasks), blocked, d);
    assert Counted(tasks)[t] in Counted(tasks);
    assert HeldBack(Counted(tasks), blocked, Counted(tasks)[t]);
  }

  /** A task that is ready is never blocked, nor is any that is not PENDING. */
  lemma ReadyIsNotBlocked(tasks: Tasks, blocked: set<Id>, t: TaskId)
    requires IsBlockedSet(Counted(tasks), blocked) && t < |tasks|
    requires tasks[t].status != Pending || DepsDone(tasks, t)
    ensures t !in blocked
  {
    hide StatusById;
    var counted := Counted(tasks);
    forall task | task in counted && HeldBack(counted, blocked - {t}, task) ensures task.id.value in blocked - {t} {
      MoreHolds(counted, blocked - {t}, blocked, task);
      if task.id.value == t {
        var d :| d in task.dependsOn && Holds(counted, blocked - {t}, d);
        NotHeld(tasks, blocked, t, d);
      }
    }
    assert Closed(counted, blocked - {t});
  }

  lemma NotHeld(tasks: Tasks, blocked: set<Id>, t: TaskId, d: TaskId)
    requires IsBlockedSet(Counted(tasks), blocked) && t < |tasks| && DepsDone(tasks, t) && d in tasks[t].dependsOn
    ensures !Holds(Counted(tasks), blocked - {t}, d)
  {
    hide StatusById;
    CountedStatus(tasks, d);
    BlockedArePending(tasks, blocked);
  }

  lemma BlockedArePending(tasks: Tasks, blocked: set<Id>)
    requires IsBlockedSet(Counted(tasks), blocked)
    ensures forall t :: t in blocked ==> t < |tasks| && tasks[t].status == Pending
  {
    hide StatusById;
    var counted := Counted(tasks);
    var pending := set t | t in blocked && t < |tasks| && tasks[t].status == Pending;
    forall task | task in counted && HeldBack(counted, pending, task) ensures task.id.value in pending {
      MoreHolds(counted, pending, blocked, task);
    }
    assert Closed(counted, pending);
  }

  // ---------------------------------------------------------------- progress entries

  datatype Entry = Entry(agent: Agent, done: nat, total: nat, running: nat, waiting: nat, escalated: nat, blocked: nat)

  /** One more task in its agent's entry. */
  function Count(entry: Entry, task: ProgressTask, blocked: set<Id>): Entry {
    var more := entry.(total := entry.total + 1);
    match task.status
    case Succeeded => more.(done := entry.done + 1)
    case Queued => more.(running := entry.running + 1)
    case Running => more.(running := entry.running + 1)
    case Waiting => more.(waiting := entry.waiting + 1)
    case Escalated => more.(escalated := entry.escalated + 1)
    case Failed => more.(escalated := entry.escalated + 1)
    case _ => if task.id.Some? && task.id.value in blocked then more.(blocked := entry.blocked + 1) else more
  }

  predicate CountsFor(task: ProgressTask, agent: Agent) {
    task.agent == agent && task.status != Cancelled
  }

  /** An agent's entry over the tasks; nothing when it has none. */
  function Tally(tasks: seq<ProgressTask>, blocked: set<Id>, agent: Agent): Option<Entry> {
    if tasks == [] then None
    else
      var last := tasks[|tasks| - 1];
      var rest := Tally(tasks[..|tasks| - 1], blocked, agent);
      if !CountsFor(last, agent) then rest
      else Some(Count(if rest.Some? then rest.value else Entry(agent, 0, 0, 0, 0, 0, 0), last, blocked))
  }

  const AGENT_ORDER := [Strategist, Copywriter, VisualDirector, Adapter, Manager]

  function Rank(agent: Agent): nat {
    match agent
    case Strategist => 0
    case Copywriter => 1
    case VisualDirector => 2
    case Adapter => 3
    case Manager => 4
  }

  /** Exactly the entries of the agents that have tasks. */
  ghost predicate Tallies(tasks: seq<ProgressTask>, blocked: set<Id>, aggregate: seq<Entry>) {
    forall entry :: entry in aggregate <==> Tally(tasks, blocked, entry.agent) == Some(entry)
  }

  predicate InPipelineOrder(aggregate: seq<Entry>) {
    forall i, j :: 0 <= i < j < |aggregate| ==> Rank(aggregate[i].agent) < Rank(aggregate[j].agent)
  }

  /** aggregateProgress: an entry for each agent that has tasks, in pipeline order. */
  method AggregateProgress(tasks: seq<ProgressTask>) returns (aggregate: seq<Entry>)
    ensures exists blocked: set<Id> :: IsBlockedSet(tasks, blocked) && Tallies(tasks, blocked, aggregate)
    ensures InPipelineOrder(aggregate)
  {
    hide IsBlockedSet;
    var blockedIds := BlockedTaskIds(tasks);
    var byAgent: map<Agent, Entry> := map[];
    for i := 0 to |tasks|
      invariant forall agent :: agent in byAgent <==> Tally(tasks[..i], blockedIds, agent).Some?
      invariant forall agent :: agent in byAgent ==> Tally(tasks[..i], blockedIds, agent) == Some(byAgent[agent])
      invariant forall agent :: agent in byAgent ==> byAgent[agent].agent == agent
    {
      var task := tasks[i];
      assert tasks[..i + 1][..i] == tasks[..i];
      if task.status != Cancelled {
        var entry := if task.agent in byAgent then byAgent[task.agent] else Entry(task.agent, 0, 0, 0, 0, 0, 0);
        byAgent := byAgent[task.agent := Count(entry, task, blockedIds)];
      }
    }
    assert tasks[..|tasks|] == tasks;
    aggregate := [];
    for k := 0 to |AGENT_ORDER|
      invariant forall entry :: entry in aggregate <==> entry.agent in AGENT_ORDER[..k] && entry.agent in byAgent && byAgent[entry.agent] == entry
      invariant forall i :: 0 <= i < |aggregate| ==> Rank(aggregate[i].agent) < k
      invariant InPipelineOrder(aggregate)
    {
      assert AGENT_ORDER[..k + 1] == AGENT_ORDER[..k] + [AGENT_ORDER[k]];
      if AGENT_ORDER[k] in byAgent {
        aggregate := aggregate + [byAgent[AGENT_ORDER[k]]];
      }
    }
    forall agent: Agent ensures agent in AGENT_ORDER[..|AGENT_ORDER|] {
      EveryAgentIsOrdered(agent);
    }
    assert Tallies(tasks, blockedIds, aggregate);
  }

  lemma EveryAgentIsOrdered(agent: Agent)
    ensures agent in AGENT_ORDER[..|AGENT_ORDER|]
  {
    assert AGENT_ORDER[..|AGENT_ORDER|] == AGENT_ORDER;
    assert AGENT_ORDER[0] == Strategist && AGENT_ORDER[1] == Copywriter && AGENT_ORDER[2] == VisualDirector;
    assert AGENT_ORDER[3] == Adapter && AGENT_ORDER[4] == Manager;
  }

  /** isSettled */
  predicate IsSettled(entry: Entry) {
    entry.total > 0 && entry.done + entry.escalated + entry.blocked == entry.total
  }

  /** Nothing of the task is left to happen without a person. */
  predicate AtRest(task: ProgressTask, blocked: set<Id>) {
    task.status in {Succeeded, Escalated, TaskStatus.Failed}
    || (task.status in {Pending, BlockedBudget} && task.id.Some? && task.id.value in blocked)
  }

  ghost predicate AgentAtRest(tasks: seq<ProgressTask>, blocked: set<Id>, agent: Agent) {
    forall task :: task in tasks && CountsFor(task, agent) ==> AtRest(task, blocked)
  }

  lemma LastAtRest(tasks: seq<ProgressTask>, blocked: set<Id>, agent: Agent)
    requires tasks != []
    ensures var n := |tasks| - 1;
            AgentAtRest(tasks, blocked, agent)
            <==> AgentAtRest(tasks[..n], blocked, agent) && (CountsFor(tasks[n], agent) ==> AtRest(tasks[n], blocked))
  {
    var n := |tasks| - 1;
    assert tasks == tasks[..n] + [tasks[n]];
    assert forall task :: task in tasks <==> task in tasks[..n] || task == tasks[n];
  }

  /** An agent is settled exactly when each of its tasks is at rest. */
  lemma {:induction false} SettledExactlyAtRest(tasks: seq<ProgressTask>, blocked: set<Id>, agent: Agent)
    ensures Tally(tasks, blocked, agent).None? ==> AgentAtRest(tasks, blocked, agent)
    ensures Tally(tasks, blocked, agent).Some? ==>
              var e := Tally(tasks, blocked, agent).value;
              && e.total > 0 && e.done + e.escalated + e.blocked <= e.total
              && (IsSettled(e) <==> AgentAtRest(tasks, blocked, agent))
    decreases |tasks|
  {
    if tasks != [] {
      var n := |tasks| - 1;
      SettledExactlyAtRest(tasks[..n], blocked, agent);
      LastAtRest(tasks, blocked, agent);
      hide AgentAtRest;
    }
  }

  ghost predicate AllSettled(tasks: seq<ProgressTask>, blocked: set<Id>) {
    forall agent :: Tally(tasks, blocked, agent).Some? ==> IsSettled(Tally(tasks, blocked, agent).value)
  }

  ghost predicate AllAtRest(tasks: seq<ProgressTask>, blocked: set<Id>) {
    forall task :: task in tasks && task.status != Cancelled ==> AtRest(task, blocked)
  }

  lemma AllSettledExactlyAtRest(tasks: seq<ProgressTask>, blocked: set<Id>)
    ensures AllSettled(tasks, blocked) <==> AllAtRest(tasks, blocked)
  {
    hide Tally, IsSettled, AtRest;
    forall agent: Agent
      ensures (Tally(tasks, blocked, agent).Some? ==> IsSettled(Tally(tasks, blocked, agent).value))
         <==> AgentAtRest(tasks, blocked, agent)
    {
      SettledExactlyAtRest(tasks, blocked, agent);
    }
    if AllSettled(tasks, blocked) {
      forall task | task in tasks && task.status != Cancelled ensures AtRest(task, blocked) {
        assert AgentAtRest(tasks, blocked, task.agent) && CountsFor(task, task.agent);
      }
    }
  }

  lemma AtRestExactlyWhenNothingMoves(tasks: Tasks, rank: seq<nat>, blocked: set<Id>)
    requires Ranked(tasks, rank) && IsBlockedSet(Counted(tasks), blocked)
    ensures AllAtRest(Counted(tasks), blocked) <==> NothingMoves(tasks)
  {
    hide StatusById, IsBlockedSet, Ranked, DepsDone;
    var counted := Counted(tasks);
    if NothingMoves(tasks) {
      forall task | task in counted && task.status != Cancelled ensures AtRest(task, blocked) {
        var t :| 0 <= t < |counted| && counted[t] == task;
        assert !InFlight(tasks[t].status);
        if task.status == Pending {
          PendingIsBlocked(tasks, rank, blocked, t);
        }
      }
    }
    if AllAtRest(counted, blocked) {
      forall t | 0 <= t < |tasks|
        ensures !InFlight(tasks[t].status) && (tasks[t].status == Pending ==> !DepsDone(tasks, t))
      {
        assert counted[t] in counted;
        if tasks[t].status != Pending || DepsDone(tasks, t) {
          ReadyIsNotBlocked(tasks, blocked, t);
        }
      }
    }
  }

  /** Every agent of an acyclic graph is settled exactly when nothing is in flight and nothing is
      ready: the work never stops without saying so. */
  lemma SettledExactlyWhenNothingMoves(tasks: Tasks, blocked: set<Id>)
    requires LiveGraph.Acyclic(tasks) && IsBlockedSet(Counted(tasks), blocked)
    ensures AllSettled(Counted(tasks), blocked) <==> NothingMoves(tasks)
  {
    hide IsBlockedSet, AllSettled, AllAtRest, NothingMoves;
    var rank :| Ranked(tasks, rank);
    AllSettledExactlyAtRest(Counted(tasks), blocked);
    AtRestExactlyWhenNothingMoves(tasks, rank, blocked);
  }
}
