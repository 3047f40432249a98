/** One post of a live graph: its status, its revision chains and the task runs that act on both
    (apps/api/src/orchestrator/{run-task,feedback,escalation,sweeper}.ts). The rest of the graph
    moves on around it. */
module Revisions {
  import opened Options
  import opened TaskGraph
  import opened LiveGraph
  import Posts = PostLifecycle

  type PostStatus = Posts.PostStatus

  /** ACTION_POST_STATUS for the per-post actions. */
  function StatusFor(action: Action): PostStatus {
    match action
    case Strategy => Posts.PostStatus.Idea
    case Write => Posts.PostStatus.Drafting
    case Direct => Posts.PostStatus.Visualizing
    case Adapt => Posts.PostStatus.Adapting
    case Qa => Posts.PostStatus.Qa
  }

  // ---------------------------------------------------------------- revision chains

  datatype Target = Copy | Visual | Both

  function RedoByTarget(target: Target): seq<Action> {
    match target
    case Copy => [Write, Adapt, Qa]
    case Visual => [Direct, Adapt, Qa]
    case Both => [Write, Direct, Adapt, Qa]
  }

  /** revisionActions */
  function RevisionActions(target: Target, enabled: set<Action>): seq<Action> {
    var effective := if target == Visual && Direct !in enabled then Copy else target;
    var chain := Enabled(RedoByTarget(effective), enabled);
    if chain != [] && chain[|chain| - 1] == Qa then chain else chain + [Qa]
  }

  function ActionIndex(action: Action): nat {
    match action
    case Strategy => 0
    case Write => 1
    case Direct => 2
    case Adapt => 3
    case Qa => 4
  }

  /** A chain in pipeline order that ends in QA and starts with what can take a post out of
      CHANGES_REQUESTED. */
  ghost predicate ChainOfActions(actions: seq<Action>) {
    && 2 <= |actions| <= 4
    && actions[0] in {Write, Direct} && actions[|actions| - 1] == Qa
    && forall j, k :: 0 <= j < k < |actions| ==> ActionIndex(actions[j]) < ActionIndex(actions[k])
  }

  /** The end every revision chain has. */
  function Ending(enabled: set<Action>): seq<Action> {
    if Adapt in enabled then [Adapt, Qa] else [Qa]
  }

  lemma EndsInQa(head: seq<Action>, enabled: set<Action>)
    ensures var chain := head + Enabled([Adapt, Qa], enabled);
            (if chain != [] && chain[|chain| - 1] == Qa then chain else chain + [Qa])
            == if head != [] && head[|head| - 1] == Qa && Adapt !in enabled && Qa !in enabled then head else head + Ending(enabled)
  {
    assert [Adapt, Qa][1..] == [Qa] && [Qa][1..] == [] && Enabled([], enabled) == [];
    assert Enabled([Qa], enabled) == if Qa in enabled then [Qa] else [];
    assert Enabled([Adapt, Qa], enabled) == (if Adapt in enabled then [Adapt] else []) + Enabled([Qa], enabled);
  }

  /** What a revision redoes before the common ending. */
  function Head(target: Target, enabled: set<Action>): seq<Action> {
    match target
    case Copy => [Write]
    case Visual => if Direct in enabled then [Direct] else [Write]
    case Both => if Direct in enabled then [Write, Direct] else [Write]
  }

  lemma RedoHead(target: Target, enabled: set<Action>)
    requires Write in enabled
    ensures RevisionActions(target, enabled) == Head(target, enabled) + Ending(enabled)
  {
    var effective := if target == Visual && Direct !in enabled then Copy else target;
    RedoEnabled(effective, enabled);
    EndsInQa(Head(effective, enabled), enabled);
    hide Ending, Enabled, RedoByTarget;
  }

  lemma RedoEnabled(target: Target, enabled: set<Action>)
    requires Write in enabled && (target == Visual ==> Direct in enabled)
    ensures Enabled(RedoByTarget(target), enabled) == Head(target, enabled) + Enabled([Adapt, Qa], enabled)
  {
    hide Enabled;
    var rest := Enabled([Adapt, Qa], enabled);
    if target == Copy {
      EnabledFirst(Write, [Adapt, Qa], enabled);
      assert [Write] + [Adapt, Qa] == RedoByTarget(Copy);
    } else {
      EnabledFirst(Direct, [Adapt, Qa], enabled);
      assert [Direct] + [Adapt, Qa] == RedoByTarget(Visual);
      if target == Both {
        EnabledFirst(Write, RedoByTarget(Visual), enabled);
        assert [Write] + RedoByTarget(Visual) == RedoByTarget(Both);
        assert [Write] + ([Direct] + rest) == [Write, Direct] + rest;
        assert [Write] + ([] + rest) == [Write] + rest;
      }
    }
  }

  lemma EnabledFirst(first: Action, rest: seq<Action>, enabled: set<Action>)
    ensures Enabled([first] + rest, enabled) == (if first in enabled then [first] else []) + Enabled(rest, enabled)
  {
    assert ([first] + rest)[1..] == rest;
  }

  lemma RevisionActionsChain(target: Target, enabled: set<Action>)
    requires Write in enabled
    ensures ChainOfActions(RevisionActions(target, enabled))
  {
    hide RevisionActions;
    RedoHead(target, enabled);
    var actions := Head(target, enabled) + Ending(enabled);
    assert |actions| == |Head(target, enabled)| + |Ending(enabled)|;
  }

  // ---------------------------------------------------------------- the state and its steps

  datatype Phase = Loaded | Started | Entered

  /** One execution of task.run: the row it loaded (of it, the post's status then), how far it is, and
      the revision count it has read. Runs of one task may overlap, stall and come back. */
  datatype Run = Run(task: TaskId, seen: PostStatus, phase: Phase, used: Option<nat>)

  /** `order` lists each revision's tasks in chain order and `verdicts` the revisions QA's verdict
      opened: history that no step reads. */
  datatype State = State(
    g: Graph, post: PostRef, status: PostStatus, revision: nat, archived: bool,
    runs: seq<Run>, order: seq<seq<TaskId>>, verdicts: set<nat>, maxQa: nat)

  /** qaRevisionCount */
  function QaRevisions(tasks: Tasks, post: PostRef): set<nat> {
    set t | 0 <= t < |tasks| && tasks[t].post == Some(post) && tasks[t].revision > 0 && tasks[t].fromQa :: tasks[t].revision
  }

  predicate Mine(s: State, t: TaskId) {
    t < |s.g.tasks| && s.g.tasks[t].post == Some(s.post)
  }

  predicate RunIs(s: State, i: nat, phase: Phase) {
    i < |s.runs| && s.runs[i].phase == phase && Mine(s, s.runs[i].task)
  }

  predicate RunOf(s: State, i: nat, action: Action) {
    RunIs(s, i, Entered) && s.g.tasks[s.runs[i].task].action == action
  }

  function Load(s: State, t: TaskId): State {
    if Mine(s, t) && s.g.tasks[t].status in {Queued, Running}
    then s.(runs := s.runs + [Run(t, s.status, Loaded, None)]) else s
  }

  function StartRun(s: State, i: nat): State {
    if RunIs(s, i, Loaded) && CanMove(s.g.tasks, s.runs[i].task, Start)
    then s.(g := MoveTask(s.g, s.runs[i].task, Start), runs := s.runs[i := s.runs[i].(phase := Started)]) else s
  }

  /** enterPostStatus: by the status the run saw when it loaded, and only over an edge the table has. */
  function EnterRun(s: State, i: nat): State {
    if !RunIs(s, i, Started) then s
    else
      var target := StatusFor(s.g.tasks[s.runs[i].task].action);
      s.(runs := s.runs[i := s.runs[i].(phase := Entered)],
         status := if s.runs[i].seen != target && Posts.CanTransition(s.status, target) then target else s.status)
  }

  function CountRun(s: State, i: nat): State {
    if RunOf(s, i, Qa) then s.(runs := s.runs[i := s.runs[i].(used := Some(|QaRevisions(s.g.tasks, s.post)|))]) else s
  }

  function WithDirect(order: seq<TaskId>, direct: TaskId): seq<TaskId>
    requires order != []
  {
    [order[0], direct] + order[1..]
  }

  function FinishWriteRun(s: State, i: nat, gaps: bool): State {
    if !RunOf(s, i, Write) || !CanMove(s.g.tasks, s.runs[i].task, Succeed) then s
    else
      var w := s.runs[i].task;
      var r := s.g.tasks[w].revision;
      var spliced := gaps && !HasDirect(s.g.tasks, w);
      s.(g := FinishWrite(s.g, w, gaps),
         order := if spliced && r < |s.order| && s.order[r] != []
                  then s.order[r := WithDirect(s.order[r], |s.g.tasks|)] else s.order)
  }

  function PlanRun(s: State, i: nat): State {
    if RunOf(s, i, Direct) then s.(g := MoveTask(s.g, s.runs[i].task, Wait)) else s
  }

  /** sendForApproval's required transition fails, and its transaction with it. */
  predicate QaThrows(s: State, i: nat) {
    RunOf(s, i, Qa) && CanMove(s.g.tasks, s.runs[i].task, Succeed) && !Posts.CanTransition(s.status, Posts.PendingApproval)
  }

  function QaSend(s: State, i: nat): State {
    if !RunOf(s, i, Qa) || !CanMove(s.g.tasks, s.runs[i].task, Succeed) || QaThrows(s, i) then s
    else s.(g := MoveTask(s.g, s.runs[i].task, Succeed), status := Posts.PendingApproval)
  }

  function NewIds(first: TaskId, n: nat): (ids: seq<TaskId>)
    ensures |ids| == n && forall k :: 0 <= k < n ==> ids[k] == first + k
  {
    seq(n, k => first + k)
  }

  function Revise(s: State, target: Target, enabled: set<Action>, fromQa: bool): State {
    var actions := RevisionActions(target, enabled);
    s.(g := s.g.(tasks := Append(s.g.tasks, Some(s.post), s.revision + 1, actions, fromQa)),
       revision := s.revision + 1,
       order := s.order + [NewIds(|s.g.tasks|, |actions|)])
  }

  /** reviseAfterQa, on the count the run read. */
  function QaRevise(s: State, i: nat, target: Target, enabled: set<Action>): State {
    if !RunOf(s, i, Qa) || s.runs[i].used.None? || s.runs[i].used.value >= s.maxQa
       || !CanMove(s.g.tasks, s.runs[i].task, Succeed)
    then s
    else
      var done := s.(g := MoveTask(s.g, s.runs[i].task, Succeed));
      Revise(done, target, enabled, true).(verdicts := s.verdicts + {s.revision + 1})
  }

  /** routeHumanFeedback */
  function HumanFeedback(s: State, target: Target, enabled: set<Action>): State {
    if s.archived || !Posts.CanTransition(s.status, Posts.PostStatus.ChangesRequested) then s
    else Revise(s.(status := Posts.PostStatus.ChangesRequested), target, enabled, false)
  }

  /** reopenForRevision, for a copy edit, a Vault regenerate or the publish guard. */
  function Reopen(s: State, target: Target, enabled: set<Action>, fromQa: bool): State {
    if s.archived || !Posts.WaitsOrApproved(s.status) then s
    else Revise(s.(status := Posts.PostStatus.ChangesRequested), target, enabled, fromQa)
  }

  /** Approval and publishing: statuses past production, over the table's edges. */
  function PostMoves(s: State, to: PostStatus): State {
    if !Posts.InProduction(s.status) && !Posts.InProduction(to) && Posts.CanTransition(s.status, to)
    then s.(status := to) else s
  }

  /** What the sweeper, a hand-off, the visual loop or a person does to one of the post's tasks. */
  function TaskMoves(s: State, t: TaskId, move: Move): State {
    if !Mine(s, t) || move in {Start, Succeed, Wait} then s
    else if move == AcceptBest && s.g.tasks[t].action != Direct then s
    else s.(g := MoveTask(s.g, t, move))
  }

  /** Steps of advance, and of the tasks of other posts. */
  predicate Elsewhere(s: State, step: LiveGraph.Step) {
    match step
    case SRead => true
    case SQueue(_) => true
    case SMove(t, _) => !Mine(s, t)
    case SFinishWrite(w, _) => !Mine(s, w)
    case SAppend(post, _, _, _) => post != Some(s.post)
    case SCancelAll => false
  }

  datatype Step =
    | SElsewhere(step: LiveGraph.Step)
    | SLoad(task: TaskId)
    | SStart(run: nat)
    | SEnter(run: nat)
    | SCount(run: nat)
    | SFinish(run: nat, gaps: bool)
    | SPlan(run: nat)
    | SQaSend(run: nat)
    | SQaRevise(run: nat, target: Target, enabled: set<Action>)
    | STask(task: TaskId, move: Move)
    | SHumanFeedback(target: Target, enabled: set<Action>)
    | SReopen(target: Target, enabled: set<Action>, fromQa: bool)
    | SPostMoves(to: PostStatus)
    | SArchive

  function Next(s: State, step: Step): State {
    match step
    case SElsewhere(graphStep) => if Elsewhere(s, graphStep) then s.(g := LiveGraph.Next(s.g, graphStep)) else s
    case SLoad(t) => Load(s, t)
    case SStart(i) => StartRun(s, i)
    case SEnter(i) => EnterRun(s, i)
    case SCount(i) => CountRun(s, i)
    case SFinish(i, gaps) => FinishWriteRun(s, i, gaps)
    case SPlan(i) => PlanRun(s, i)
    case SQaSend(i) => QaSend(s, i)
    case SQaRevise(i, target, enabled) => QaRevise(s, i, target, enabled)
    case STask(t, move) => TaskMoves(s, t, move)
    case SHumanFeedback(target, enabled) => HumanFeedback(s, target, enabled)
    case SReopen(target, enabled, fromQa) => Reopen(s, target, enabled, fromQa)
    case SPostMoves(to) => PostMoves(s, to)
    case SArchive => s.(archived := true, g := CancelAll(s.g))
  }

  /** The pipeline has a Copywriter (`write`). */
  predicate WriteEnabled(step: Step) {
    match step
    case SQaRevise(_, _, enabled) => Write in enabled
    case SHumanFeedback(_, enabled) => Write in enabled
    case SReopen(_, enabled, _) => Write in enabled
    case _ => true
  }

  function Exec(s: State, steps: seq<Step>): State
    decreases |steps|
  {
    if steps == [] then s else Exec(Next(s, steps[0]), steps[1..])
  }
}
