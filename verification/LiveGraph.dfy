/** The task table of an approved graph while it runs and grows: advance
    (apps/api/src/orchestrator/graph.ts), the status updates of run-task, escalation, sweeper and
    take-completion, and the chains and splices of feedback.ts. Every conditional update is one step. */
module LiveGraph {
  import opened Options
  import opened TaskGraph
  import PlanTasks

  type TaskId = nat

  datatype TaskStatus =
    | Pending | Queued | Running | Waiting
    | Succeeded | Escalated | Failed | BlockedBudget | Cancelled

  /** An AgentTask row; rows are numbered in the order they are created. `fromQa` says its feedback
      is QA's. */
  datatype Task = Task(
    post: Option<PostRef>, action: Action, revision: nat,
    status: TaskStatus, dependsOn: seq<TaskId>, fromQa: bool)

  type Tasks = seq<Task>

  /** `lists` holds the ready list of every advance() so far and never shrinks: any of them may be
      acted on later, on a table that has moved on, again, or never. */
  datatype Graph = Graph(tasks: Tasks, lists: set<set<TaskId>>)

  // ---------------------------------------------------------------- advance

  predicate DepsDone(tasks: Tasks, t: TaskId)
    requires t < |tasks|
  {
    forall d :: d in tasks[t].dependsOn ==> d < |tasks| && tasks[d].status == Succeeded
  }

  /** What one advance() finds ready. */
  function Ready(tasks: Tasks): set<TaskId> {
    set t | 0 <= t < |tasks| && tasks[t].status == Pending && DepsDone(tasks, t)
  }

  function Read(g: Graph): Graph {
    g.(lists := g.lists + {Ready(g.tasks)})
  }

  /** The update that follows, on the list as it was read: what is still PENDING is QUEUED. */
  function Queue(g: Graph, list: set<TaskId>): Graph {
    if list !in g.lists then g
    else g.(tasks := seq(|g.tasks|, t requires 0 <= t < |g.tasks| =>
                          if t in list && g.tasks[t].status == Pending then g.tasks[t].(status := Queued) else g.tasks[t]))
  }

  // ---------------------------------------------------------------- one task's status

  /** Every update a task's run, its hand-off, the sweeper or its resolver makes. */
  datatype Move =
    | Start                          // runTask
    | Succeed                        // succeed
    | Wait                           // planShots, directVaultTake
    | Settle                         // completeIfSettled
    | HandOff(to: TaskStatus)        // handOffTaskIn: ESCALATED or FAILED
    | Block                          // blockTaskOnBudget
    | Requeue(from: TaskStatus)      // requeueTask
    | AcceptBest                     // acceptBestTake

  function MovesFrom(move: Move): set<TaskStatus> {
    match move
    case Start => {Queued, Running}
    case Succeed => {Running}
    case Wait => {Running}
    case Settle => {Waiting}
    case HandOff(_) => {Queued, Running, Waiting}
    case Block => {Queued, Running}
    case Requeue(from) => {from} * {Queued, Running, BlockedBudget, Escalated, Failed}
    case AcceptBest => {Escalated, Failed}
  }

  function MovesTo(move: Move): TaskStatus {
    match move
    case Start => Running
    case Succeed => Succeeded
    case Wait => Waiting
    case Settle => Succeeded
    case HandOff(to) => if to == Escalated then Escalated else Failed
    case Block => BlockedBudget
    case Requeue(_) => Queued
    case AcceptBest => Succeeded
  }

  predicate CanMove(tasks: Tasks, t: TaskId, move: Move) {
    t < |tasks| && tasks[t].status in MovesFrom(move)
  }

  function SetStatus(tasks: Tasks, t: TaskId, status: TaskStatus): (after: Tasks)
    requires t < |tasks|
    ensures |after| == |tasks|
  {
    tasks[t := tasks[t].(status := status)]
  }

  function MoveTask(g: Graph, t: TaskId, move: Move): Graph {
    if CanMove(g.tasks, t, move) then g.(tasks := SetStatus(g.tasks, t, MovesTo(move))) else g
  }

  predicate Unfinished(status: TaskStatus) {
    status in {Pending, Queued, Running, Waiting, BlockedBudget}
  }

  /** archiveCampaign */
  function CancelAll(g: Graph): Graph {
    g.(tasks := seq(|g.tasks|, t requires 0 <= t < |g.tasks| =>
                      if Unfinished(g.tasks[t].status) then g.tasks[t].(status := Cancelled) else g.tasks[t]))
  }

  // ---------------------------------------------------------------- the graph grows

  function NewChain(post: Option<PostRef>, revision: nat, actions: seq<Action>, fromQa: bool, first: TaskId): (chain: Tasks)
    ensures |chain| == |actions|
  {
    seq(|actions|, k requires 0 <= k < |actions| =>
          Task(post, actions[k], revision, Pending, if k == 0 then [] else [first + k - 1],
               fromQa && (k == 0 || actions[k] == Direct)))
  }

  /** appendRevision */
  function Append(tasks: Tasks, post: Option<PostRef>, revision: nat, actions: seq<Action>, fromQa: bool): Tasks {
    tasks + NewChain(post, revision, actions, fromQa, |tasks|)
  }

  predicate SameChain(a: Task, b: Task) {
    a.post == b.post && a.revision == b.revision
  }

  function Rewired(dependsOn: seq<TaskId>, write: TaskId, direct: TaskId): (after: seq<TaskId>)
    ensures |after| == |dependsOn|
  {
    seq(|dependsOn|, k requires 0 <= k < |dependsOn| => if dependsOn[k] == write then direct else dependsOn[k])
  }

  predicate HasDirect(tasks: Tasks, w: TaskId)
    requires w < |tasks|
  {
    exists t :: 0 <= t < |tasks| && SameChain(tasks[t], tasks[w]) && tasks[t].action == Direct
  }

  /** spliceDirectAfter */
  function Splice(tasks: Tasks, w: TaskId): Tasks
    requires w < |tasks|
  {
    if HasDirect(tasks, w) then tasks
    else
      seq(|tasks|, t requires 0 <= t < |tasks| =>
            if SameChain(tasks[t], tasks[w]) then tasks[t].(dependsOn := Rewired(tasks[t].dependsOn, w, |tasks|)) else tasks[t])
      + [Task(tasks[w].post, Direct, tasks[w].revision, Pending, [w], false)]
  }

  /** runWrite's transaction: the write SUCCEEDED, and a direct spliced in when its new copy no longer
      has the scenes or slides the takes fill. */
  function FinishWrite(g: Graph, w: TaskId, gaps: bool): Graph {
    if !CanMove(g.tasks, w, Succeed) then g
    else
      var done := SetStatus(g.tasks, w, Succeeded);
      g.(tasks := if gaps then Splice(done, w) else done)
  }

  // ---------------------------------------------------------------- what every step keeps

  /** Numbers that grow along every dependency. */
  ghost predicate Ranked(tasks: Tasks, rank: seq<nat>) {
    |rank| == |tasks| && forall t :: 0 <= t < |tasks| ==> Above(tasks[t].dependsOn, rank, rank[t])
  }

  ghost predicate Above(dependsOn: seq<TaskId>, rank: seq<nat>, n: nat) {
    forall d :: d in dependsOn ==> d < |rank| && rank[d] < n
  }

  ghost predicate Acyclic(tasks: Tasks) {
    exists rank :: Ranked(tasks, rank)
  }

  predicate Started(status: TaskStatus) {
    status != Pending && status != Cancelled
  }

  /** Readiness is stable: whatever was started, or ever read as ready, waits for nothing. */
  ghost predicate Sound(g: Graph) {
    && Acyclic(g.tasks)
    && (forall t :: 0 <= t < |g.tasks| && Started(g.tasks[t].status) ==> DepsDone(g.tasks, t))
    && (forall list, t :: list in g.lists && t in list ==> t < |g.tasks| && DepsDone(g.tasks, t))
  }

  lemma InstantiatedIsSound(tasks: seq<PlanTasks.Task>, nodes: seq<Node>, g: Graph)
    requires PlanTasks.Instantiates(tasks, nodes)
    requires |g.tasks| == |tasks| && g.lists == {}
    requires forall t :: 0 <= t < |tasks| ==> g.tasks[t].status == Pending && g.tasks[t].dependsOn == tasks[t].dependsOn
    ensures Sound(g)
  {
    var rank: seq<nat> := seq(|tasks|, t => t);
    forall t | 0 <= t < |tasks| ensures Above(g.tasks[t].dependsOn, rank, t) {
      assert |nodes[t].deps| == |tasks[t].dependsOn|;
    }
    assert Ranked(g.tasks, rank);
  }

  /** Tasks whose rows keep their dependencies, none of them leaving SUCCEEDED. */
  ghost predicate Extends(before: Tasks, after: Tasks) {
    && |before| <= |after|
    && forall t :: 0 <= t < |before| ==>
         && (before[t].status == Succeeded ==> after[t].status == Succeeded)
         && (DepsDone(before, t) ==> after[t].dependsOn == before[t].dependsOn)
  }

  lemma ExtendedDepsDone(before: Tasks, after: Tasks, t: TaskId)
    requires Extends(before, after) && t < |before| && DepsDone(before, t)
    ensures DepsDone(after, t)
  {
  }

  /** Same dependencies, statuses only moving on from where the task was ready. */
  lemma StatusesKeepSound(g: Graph, after: Tasks)
    requires Sound(g) && |after| == |g.tasks| && Extends(g.tasks, after)
    requires forall t :: 0 <= t < |after| ==> after[t].dependsOn == g.tasks[t].dependsOn
    requires forall t :: 0 <= t < |after| && Started(after[t].status) ==> DepsDone(g.tasks, t)
    ensures Sound(g.(tasks := after))
  {
    hide DepsDone;
    var rank :| Ranked(g.tasks, rank);
    forall t | 0 <= t < |after| ensures Above(after[t].dependsOn, rank, rank[t]) {
      assert Above(g.tasks[t].dependsOn, rank, rank[t]);
    }
    assert Ranked(after, rank);
    forall t | 0 <= t < |after| && DepsDone(g.tasks, t) ensures DepsDone(after, t) {
      ExtendedDepsDone(g.tasks, after, t);
    }
  }

  lemma ReadKeepsSound(g: Graph)
    requires Sound(g)
    ensures Sound(Read(g))
  {
  }

  lemma QueueKeepsSound(g: Graph, list: set<TaskId>)
    requires Sound(g)
    ensures Sound(Queue(g, list))
  {
    if list in g.lists {
      StatusesKeepSound(g, Queue(g, list).tasks);
    }
  }

  lemma MoveKeepsSound(g: Graph, t: TaskId, move: Move)
    requires Sound(g)
    ensures Sound(MoveTask(g, t, move))
  {
    if CanMove(g.tasks, t, move) {
      StatusesKeepSound(g, SetStatus(g.tasks, t, MovesTo(move)));
    }
  }

  lemma CancelKeepsSound(g: Graph)
    requires Sound(g)
    ensures Sound(CancelAll(g))
  {
    StatusesKeepSound(g, CancelAll(g).tasks);
  }

  lemma AppendRanked(tasks: Tasks, rank: seq<nat>, post: Option<PostRef>, revision: nat, actions: seq<Action>, fromQa: bool)
    requires Ranked(tasks, rank)
    ensures Ranked(Append(tasks, post, revision, actions, fromQa), rank + seq(|actions|, k => k))
  {
    var after := Append(tasks, post, revision, actions, fromQa);
    var more := rank + seq(|actions|, k => k);
    forall t | 0 <= t < |after| ensures Above(after[t].dependsOn, more, more[t]) {
      if t < |tasks| {
        assert Above(tasks[t].dependsOn, rank, rank[t]);
      } else {
        assert after[t] == NewChain(post, revision, actions, fromQa, |tasks|)[t - |tasks|];
      }
    }
  }

  lemma AppendKeepsSound(g: Graph, post: Option<PostRef>, revision: nat, actions: seq<Action>, fromQa: bool)
    requires Sound(g)
    ensures Sound(g.(tasks := Append(g.tasks, post, revision, actions, fromQa)))
  {
    var after := Append(g.tasks, post, revision, actions, fromQa);
    var rank :| Ranked(g.tasks, rank);
    AppendRanked(g.tasks, rank, post, revision, actions, fromQa);
    assert Acyclic(after);
    forall t | 0 <= t < |g.tasks| && DepsDone(g.tasks, t) ensures DepsDone(after, t) {
      ExtendedDepsDone(g.tasks, after, t);
    }
    assert forall t :: |g.tasks| <= t < |after| ==> after[t].status == Pending;
    hide DepsDone, Append;
  }

  /** The splice only rewires tasks that wait for the write, so none that was ever ready; the new
      direct fits between the numbers of the write and of what follows it. */
  lemma SpliceRanked(tasks: Tasks, w: TaskId, rank: seq<nat>)
    requires Ranked(tasks, rank) && w < |tasks| && !HasDirect(tasks, w)
    ensures Ranked(Splice(tasks, w), seq(|tasks|, t requires 0 <= t < |tasks| => 2 * rank[t]) + [2 * rank[w] + 1])
  {
    var after := Splice(tasks, w);
    var finer := seq(|tasks|, t requires 0 <= t < |tasks| => 2 * rank[t]) + [2 * rank[w] + 1];
    forall t | 0 <= t < |after| ensures Above(after[t].dependsOn, finer, finer[t]) {
      if t < |tasks| {
        assert Above(tasks[t].dependsOn, rank, rank[t]);
        RewiredAbove(tasks[t].dependsOn, w, rank, rank[t], finer);
      }
    }
  }

  lemma RewiredAbove(dependsOn: seq<TaskId>, w: TaskId, rank: seq<nat>, n: nat, finer: seq<nat>)
    requires Above(dependsOn, rank, n) && w < |rank|
    requires finer == seq(|rank|, t requires 0 <= t < |rank| => 2 * rank[t]) + [2 * rank[w] + 1]
    ensures Above(dependsOn, finer, 2 * n) && Above(Rewired(dependsOn, w, |rank|), finer, 2 * n)
  {
    var rewired := Rewired(dependsOn, w, |rank|);
    forall d | d in rewired ensures d < |finer| && finer[d] < 2 * n {
      var k :| 0 <= k < |rewired| && rewired[k] == d;
      assert dependsOn[k] in dependsOn;
    }
  }

  lemma SpliceExtends(tasks: Tasks, w: TaskId)
    requires w < |tasks| && tasks[w].status != Succeeded
    ensures Extends(tasks, Splice(SetStatus(tasks, w, Succeeded), w))
  {
    var done := SetStatus(tasks, w, Succeeded);
    var after := Splice(done, w);
    forall t | 0 <= t < |tasks| && DepsDone(tasks, t) ensures after[t].dependsOn == tasks[t].dependsOn {
      assert w !in tasks[t].dependsOn;
      assert Rewired(tasks[t].dependsOn, w, |tasks|) == tasks[t].dependsOn;
    }
  }

  lemma SpliceKeepsSound(g: Graph, w: TaskId)
    requires Sound(g) && CanMove(g.tasks, w, Succeed)
    ensures Sound(g.(tasks := Splice(SetStatus(g.tasks, w, Succeeded), w)))
  {
    var done := SetStatus(g.tasks, w, Succeeded);
    var after := Splice(done, w);
    MoveKeepsSound(g, w, Succeed);
    if !HasDirect(done, w) {
      var rank :| Ranked(done, rank);
      SpliceRanked(done, w, rank);
      SpliceExtends(g.tasks, w);
      forall t | 0 <= t < |g.tasks| && DepsDone(g.tasks, t) ensures DepsDone(after, t) {
        ExtendedDepsDone(g.tasks, after, t);
      }
      assert forall t :: 0 <= t < |g.tasks| && Started(after[t].status) ==> DepsDone(g.tasks, t);
      hide DepsDone, Splice, Ranked;
    }
  }

  lemma FinishWriteKeepsSound(g: Graph, w: TaskId, gaps: bool)
    requires Sound(g)
    ensures Sound(FinishWrite(g, w, gaps))
  {
    if CanMove(g.tasks, w, Succeed) {
      MoveKeepsSound(g, w, Succeed);
      SpliceKeepsSound(g, w);
    }
  }

  // ---------------------------------------------------------------- every run

  datatype Step =
    | SRead
    | SQueue(list: set<TaskId>)
    | SMove(task: TaskId, move: Move)
    | SFinishWrite(write: TaskId, gaps: bool)
    | SAppend(post: Option<PostRef>, revision: nat, actions: seq<Action>, fromQa: bool)
    | SCancelAll

  function Next(g: Graph, step: Step): Graph {
    match step
    case SRead => Read(g)
    case SQueue(list) => Queue(g, list)
    case SMove(t, move) => MoveTask(g, t, move)
    case SFinishWrite(w, gaps) => FinishWrite(g, w, gaps)
    case SAppend(post, revision, actions, fromQa) => g.(tasks := Append(g.tasks, post, revision, actions, fromQa))
    case SCancelAll => CancelAll(g)
  }

  lemma StepKeepsSound(g: Graph, step: Step)
    requires Sound(g)
    ensures Sound(Next(g, step))
  {
    hide Sound;
    match step
    case SRead => ReadKeepsSound(g);
    case SQueue(list) => QueueKeepsSound(g, list);
    case SMove(t, move) => MoveKeepsSound(g, t, move);
    case SFinishWrite(w, gaps) => FinishWriteKeepsSound(g, w, gaps);
    case SAppend(post, revision, actions, fromQa) => AppendKeepsSound(g, post, revision, actions, fromQa);
    case SCancelAll => CancelKeepsSound(g);
  }

  function Exec(g: Graph, steps: seq<Step>): Graph
    decreases |steps|
  {
    if steps == [] then g else Exec(Next(g, steps[0]), steps[1..])
  }

  /** On every interleaving, stale reads included, the graph stays acyclic and no task runs before
      what it depends on has SUCCEEDED. */
  lemma {:induction false} RunsInOrder(g: Graph, steps: seq<Step>)
    requires Sound(g)
    ensures Acyclic(Exec(g, steps).tasks)
    ensures forall t :: 0 <= t < |Exec(g, steps).tasks| && Started(Exec(g, steps).tasks[t].status) ==>
              DepsDone(Exec(g, steps).tasks, t)
    decreases |steps|
  {
    if steps != [] {
      StepKeepsSound(g, steps[0]);
      RunsInOrder(Next(g, steps[0]), steps[1..]);
    }
  }
}
