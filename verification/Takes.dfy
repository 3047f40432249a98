/** The visual loop of one post: its takes, its direct tasks and every transaction that writes them
    (apps/api/src/orchestrator/{takes,visuals,vault-takes,visual-review,render-outcomes,take-completion}.ts,
    regenerateAsset in apps/api/src/services/assets.ts). */
module Takes {
  import opened Options
  import G = LiveGraph

  type TakeId = nat
  type TaskNo = nat
  /** slotKey: a script scene, a carousel slide or the single image. */
  type Place = string

  datatype TakeStatus = Queued | Rendering | Ready | Failed | Rejected
  datatype Verdict = Accept | Regenerate
  datatype Review = Review(verdict: Verdict, score: int)
  datatype Origin = FromDirector | FromReview | FromVault

  /** An Asset row of role SHOT; rows are numbered in the order they are created. `task` is the direct
      task that waits on it; `file` says it has a url. */
  datatype Take = Take(
    task: Option<TaskNo>, root: TakeId, place: Place, version: nat,
    status: TakeStatus, file: bool, review: Option<Review>, isCurrent: bool,
    origin: Origin, attempt: nat, onTrial: bool, pendingDirection: bool, successorOf: Option<TakeId>)

  type TakeRows = seq<Take>

  /** What a job read before the transaction it goes on to. */
  datatype Read =
    | Reviewed(take: TakeId, onTrial: bool)   // onReviewDone: the take is waited for
    | NoneQueued(no: TaskNo, last: TakeId)    // redirectVaultTask: no Vault take of the task is QUEUED
    | AlreadyDirected(take: TakeId)           // directVaultTake: a QUEUED take an earlier run directed
    | AllSettled(no: TaskNo)                  // completeIfSettled: every take on show is accepted
    | Picked(no: TaskNo, picks: map<TakeId, TakeId>)   // acceptBestTake: a take to keep for each lineage

  /** `tasks` holds the post's direct tasks in the order they were planned, at most the last of them
      unfinished (module RevisionChains). `noted` never shrinks: any read may be acted on later, again or
      never. `latest` is the newest shot list's places and `revived` the takes accept_best brought back
      from REJECTED: history. */
  datatype State = State(
    takes: TakeRows, tasks: seq<G.TaskStatus>, planned: bool, lastAttempt: nat, noted: set<Read>,
    latest: set<Place>, revived: set<TakeId>)

  predicate TaskIs(s: State, no: TaskNo, status: G.TaskStatus) {
    no < |s.tasks| && s.tasks[no] == status
  }

  predicate Of(take: Take, no: TaskNo) {
    take.task == Some(no)
  }

  // ---------------------------------------------------------------- takes.ts

  /** The newest version of a lineage (0 when it has none). */
  function MaxVersion(takes: TakeRows, root: TakeId): (version: nat)
    ensures forall t :: 0 <= t < |takes| && takes[t].root == root ==> takes[t].version <= version
  {
    if takes == [] then 0
    else
      var last, rest := takes[|takes| - 1], MaxVersion(takes[..|takes| - 1], root);
      if last.root == root && last.version > rest then last.version else rest
  }

  /** createTake: v1 of a new lineage, or the next version of the parent's. */
  function NewTake(takes: TakeRows, parent: Option<TakeId>, task: Option<TaskNo>, place: Place, isCurrent: bool,
                   origin: Origin, attempt: nat, onTrial: bool, pendingDirection: bool, successorOf: Option<TakeId>): Take
    requires parent.Some? ==> parent.value < |takes|
  {
    var root := if parent.Some? then takes[parent.value].root else |takes|;
    Take(task, root, place, MaxVersion(takes, root) + 1, Queued, false, None, isCurrent,
         origin, attempt, onTrial, pendingDirection, successorOf)
  }

  /** What supersedeTaskTakes sets aside. */
  predicate Supersedable(take: Take) {
    take.status == Queued || take.status == Rendering
    || (take.status == Ready && (take.review.None? || take.review.value.verdict == Regenerate))
  }

  function Supersede(takes: TakeRows, no: TaskNo): (after: TakeRows)
    ensures |after| == |takes|
  {
    seq(|takes|, t requires 0 <= t < |takes| =>
          if Of(takes[t], no) && Supersedable(takes[t]) then takes[t].(status := Rejected) else takes[t])
  }

  /** currentOfLineage: the newest current take of a lineage. */
  function CurrentOf(takes: TakeRows, root: TakeId): (current: Option<TakeId>)
    ensures current.Some? ==> current.value < |takes| && takes[current.value].isCurrent && takes[current.value].root == root
  {
    if takes == [] then None
    else
      var n := |takes| - 1;
      var rest := CurrentOf(takes[..n], root);
      if takes[n].isCurrent && takes[n].root == root && (rest.None? || takes[rest.value].version < takes[n].version)
      then Some(n) else rest
  }

  predicate HasVaultTake(takes: TakeRows, no: TaskNo) {
    exists t :: 0 <= t < |takes| && Of(takes[t], no) && takes[t].origin == FromVault
  }

  // ---------------------------------------------------------------- planShots

  /** lineageBySlot: the replaced current take of a place (the last of several). */
  function ParentAt(takes: TakeRows, place: Place): (parent: Option<TakeId>)
    ensures parent.Some? ==> parent.value < |takes| && takes[parent.value].isCurrent && takes[parent.value].place == place
    ensures parent.None? ==> forall t :: 0 <= t < |takes| ==> !(takes[t].isCurrent && takes[t].place == place)
  {
    if takes == [] then None
    else
      var n := |takes| - 1;
      if takes[n].isCurrent && takes[n].place == place then Some(n) else ParentAt(takes[..n], place)
  }

  function NoneCurrent(takes: TakeRows): (after: TakeRows)
    ensures |after| == |takes|
  {
    seq(|takes|, t requires 0 <= t < |takes| => takes[t].(isCurrent := false))
  }

  /** A take for each shot, continuing the lineage of the take that was in its place. */
  function TakesFor(replaced: TakeRows, takes: TakeRows, no: TaskNo, shots: seq<Place>): TakeRows
    requires |replaced| <= |takes|
    decreases |shots|
  {
    if shots == [] then takes
    else
      TakesFor(replaced,
               takes + [NewTake(takes, ParentAt(replaced, shots[0]), Some(no), shots[0], true, FromDirector, 1, false, false, None)],
               no, shots[1..])
  }

  function PlanShots(s: State, no: TaskNo, shots: seq<Place>): State {
    if !TaskIs(s, no, G.Running) || HasVaultTake(s.takes, no) then s
    else
      var superseded := Supersede(s.takes, no);
      s.(tasks := s.tasks[no := G.Waiting],
         takes := TakesFor(superseded, NoneCurrent(superseded), no, shots),
         latest := set p | p in shots)
  }

  // ---------------------------------------------------------------- renders

  function SetTake(s: State, t: TakeId, take: Take): State
    requires t < |s.takes|
  {
    s.(takes := s.takes[t := take])
  }

  /** render.submit */
  function Submit(s: State, t: TakeId): State {
    if t < |s.takes| && s.takes[t].status == Queued && !s.takes[t].pendingDirection
    then SetTake(s, t, s.takes[t].(status := Rendering)) else s
  }

  /** render.poll stored a READY take. */
  function Rendered(s: State, t: TakeId): State {
    if t < |s.takes| && s.takes[t].status == Rendering then SetTake(s, t, s.takes[t].(status := Ready, file := true)) else s
  }

  /** handOffWaitingTask */
  function HandOffFor(s: State, take: Take): State {
    if take.task.None? || !TaskIs(s, take.task.value, G.Waiting) then s
    else s.(tasks := s.tasks[take.task.value := if take.status == Rejected then G.Escalated else G.Failed])
  }

  /** failTake: the take and the task that waits on it, in one transaction. */
  function FailTake(s: State, t: TakeId, to: TakeStatus): State {
    if t < |s.takes| && s.takes[t].status in {Queued, Rendering, Ready} && s.takes[t].review.None? && to in {TakeStatus.Failed, Rejected}
    then HandOffFor(SetTake(s, t, s.takes[t].(status := to)), s.takes[t].(status := to)) else s
  }

  // ---------------------------------------------------------------- the review

  function StoreReview(s: State, t: TakeId, review: Review): State {
    if t < |s.takes| && s.takes[t].status == Ready && s.takes[t].review.None?
    then SetTake(s, t, s.takes[t].(review := Some(review))) else s
  }

  /** promoteVaultTake: `published` says the post is past taking it. */
  function Promote(s: State, t: TakeId, published: bool): State
    requires t < |s.takes|
  {
    var take := s.takes[t];
    if take.isCurrent || take.status != Ready then s
    else
      var onShow := CurrentOf(s.takes, take.root);
      if take.task.None? && (published || (onShow.Some? && s.takes[onShow.value].version > take.version))
      then SetTake(s, t, take.(onTrial := false))
      else
        s.(takes := seq(|s.takes|, i requires 0 <= i < |s.takes| =>
                          if i == t then take.(isCurrent := true, onTrial := false)
                          else if s.takes[i].isCurrent && (s.takes[i].root == take.root || s.takes[i].place == take.place)
                          then s.takes[i].(isCurrent := false)
                          else s.takes[i]))
  }

  /** regenerateTake's transaction guards on the take's status and on whether it is on show, by the
      `onTrial` that was read. */
  predicate CanRegenerate(s: State, t: TakeId, onTrial: bool) {
    t < |s.takes| && s.takes[t].status == Ready && s.takes[t].isCurrent == !onTrial
  }

  /** regenerateTake: the weak take REJECTED, the next one in its place. */
  function RegenerateTake(s: State, t: TakeId, onTrial: bool): State {
    if !CanRegenerate(s, t, onTrial) then s
    else
      var take := s.takes[t];
      var rejected := s.takes[t := take.(status := Rejected, isCurrent := false)];
      s.(takes := rejected + [NewTake(rejected, Some(t), take.task, take.place, !onTrial, FromReview,
                                      take.attempt + 1, onTrial, false, Some(t))])
  }

  /** escalateTask */
  function Escalate(s: State, no: TaskNo): State {
    if no < |s.tasks| && s.tasks[no] in G.MovesFrom(G.HandOff(G.Escalated))
    then s.(tasks := s.tasks[no := G.Escalated]) else s
  }

  function Note(s: State, read: Read): State {
    s.(noted := s.noted + {read})
  }

  /** onReviewDone's read: a take whose task no longer waits, or whose trial outside any plan is over, is
      left alone. */
  function ReadReview(s: State, t: TakeId): State {
    if t < |s.takes| && s.takes[t].review.Some?
       && (if s.takes[t].task.Some? then TaskIs(s, s.takes[t].task.value, G.Waiting) else s.takes[t].onTrial)
    then Note(s, Reviewed(t, s.takes[t].onTrial)) else s
  }

  /** A review job on its way to regenerateTake. */
  predicate Weak(s: State, t: TakeId) {
    t < |s.takes| && s.takes[t].review.Some? && s.takes[t].review.value.verdict == Regenerate
    && s.takes[t].attempt < s.lastAttempt
  }

  /** The transaction onReviewDone goes on to, on what it read. */
  function ActOnReview(s: State, t: TakeId, onTrial: bool, published: bool): State {
    if Reviewed(t, onTrial) !in s.noted || t >= |s.takes| || s.takes[t].review.None? then s
    else if s.takes[t].review.value.verdict == Accept then (if onTrial then Promote(s, t, published) else s)
    else if Weak(s, t) then RegenerateTake(s, t, onTrial)
    else if s.takes[t].task.Some? then Escalate(s, s.takes[t].task.value)
    else if s.takes[t].status == Ready && !s.takes[t].isCurrent then SetTake(s, t, s.takes[t].(status := Rejected))
    else s
  }

  // ---------------------------------------------------------------- a WAITING task ends

  /** settled, on the task's takes. */
  predicate Settled(takes: TakeRows, no: TaskNo) {
    && (exists t :: 0 <= t < |takes| && Of(takes[t], no) && takes[t].isCurrent)
    && (forall t :: 0 <= t < |takes| && Of(takes[t], no) && takes[t].isCurrent ==>
          takes[t].status == Ready && takes[t].review.Some? && takes[t].review.value.verdict == Accept)
  }

  function ReadSettled(s: State, no: TaskNo): State {
    if Settled(s.takes, no) then Note(s, AllSettled(no)) else s
  }

  /** completeIfSettled's update, on the takes as they were read. */
  function Complete(s: State, no: TaskNo): State {
    if AllSettled(no) in s.noted && TaskIs(s, no, G.Waiting) then s.(tasks := s.tasks[no := G.Succeeded]) else s
  }

  /** A take still on trial that its task's newest one of the lineage. */
  predicate NewestTrial(takes: TakeRows, no: TaskNo, t: TakeId) {
    && t < |takes| && Of(takes[t], no) && takes[t].onTrial && !takes[t].isCurrent
    && forall u :: 0 <= u < |takes| && Of(takes[u], no) && takes[u].onTrial && !takes[u].isCurrent && takes[u].root == takes[t].root
                   ==> takes[u].version <= takes[t].version
  }

  /** awaitedTakes */
  predicate Awaited(takes: TakeRows, no: TaskNo, t: TakeId) {
    (t < |takes| && Of(takes[t], no) && takes[t].isCurrent) || NewestTrial(takes, no, t)
  }

  /** blockingTake */
  predicate Blocking(takes: TakeRows, no: TaskNo, t: TakeId) {
    Awaited(takes, no, t)
    && (takes[t].status == TakeStatus.Failed || (takes[t].status == Rejected && takes[t].review.None?))
  }

  /** IN_THE_LOOP */
  predicate InTheLoop(take: Take) {
    Supersedable(take) || (take.onTrial && take.status == Ready && !take.isCurrent)
  }

  /** redrive queues a job for the take (or fails it): all but a task's take still to be directed. */
  predicate RedriveActs(take: Take) {
    !(take.status == Queued && take.pendingDirection && take.task.Some?)
  }

  // ---------------------------------------------------------------- people

  predicate Finished(take: Take) {
    take.file && (take.status == Ready || take.status == Rejected)
  }

  /** For each of the task's lineages a take of it that has a file. */
  predicate PicksHold(takes: TakeRows, no: TaskNo, picks: map<TakeId, TakeId>) {
    && picks != map[]
    && (forall t :: 0 <= t < |takes| && Of(takes[t], no) ==> takes[t].root in picks)
    && (forall root :: root in picks ==> exists t :: 0 <= t < |takes| && Of(takes[t], no) && takes[t].root == root)
    && (forall root :: root in picks ==> picks[root] < |takes| && takes[picks[root]].root == root && takes[picks[root]].file)
  }

  /** What acceptBestTake may pick. */
  predicate PicksFit(takes: TakeRows, no: TaskNo, picks: map<TakeId, TakeId>) {
    PicksHold(takes, no, picks) && forall root :: root in picks ==> Finished(takes[picks[root]])
  }

  function ReadBest(s: State, no: TaskNo, picks: map<TakeId, TakeId>): State {
    if PicksFit(s.takes, no, picks) then Note(s, Picked(no, picks)) else s
  }

  function AfterAccept(take: Take, t: TakeId, no: TaskNo, picks: map<TakeId, TakeId>): Take {
    if t in picks.Values then take.(isCurrent := true, status := Ready, onTrial := false)
    else if take.root in picks && (take.isCurrent || take.status == Queued || take.status == Rendering)
    then take.(isCurrent := false,
               status := if take.status == Queued || take.status == Rendering
                            || (Of(take, no) && take.onTrial && take.status == Ready)
                         then Rejected else take.status)
    else if Of(take, no) && take.onTrial && take.status == Ready then take.(status := Rejected, isCurrent := false)
    else take
  }

  function Revived(takes: TakeRows, picks: map<TakeId, TakeId>): set<TakeId> {
    set t | t in picks.Values && t < |takes| && takes[t].status == Rejected
  }

  /** acceptBestTake's transaction, on the takes it picked. */
  function AcceptBest(s: State, no: TaskNo, picks: map<TakeId, TakeId>): State {
    if no < |s.tasks| && s.tasks[no] in {G.Escalated, G.Failed} && Picked(no, picks) in s.noted
    then s.(tasks := s.tasks[no := G.Succeeded],
            takes := seq(|s.takes|, t requires 0 <= t < |s.takes| => AfterAccept(s.takes[t], t, no, picks)),
            revived := s.revived + Revived(s.takes, picks))
    else s
  }

  predicate AllDone(s: State) {
    forall no :: 0 <= no < |s.tasks| ==> s.tasks[no] == G.Succeeded
  }

  predicate LineageInFlight(takes: TakeRows, root: TakeId) {
    exists t :: 0 <= t < |takes| && takes[t].root == root
      && (takes[t].status == Queued || takes[t].status == Rendering
          || (takes[t].task.None? && takes[t].onTrial && takes[t].status == Ready && !takes[t].isCurrent))
  }

  /** slotRivals: a current take of another lineage in the same place. */
  predicate HasRival(takes: TakeRows, root: TakeId, place: Place) {
    exists t :: 0 <= t < |takes| && takes[t].isCurrent && takes[t].root != root && takes[t].place == place
  }

  /** regenerateAsset: on a planned post the take belongs to a new revision's direct task. */
  function RegenerateAsset(s: State, asset: TakeId): State {
    if asset >= |s.takes| || !AllDone(s) || LineageInFlight(s.takes, s.takes[asset].root)
       || HasRival(s.takes, s.takes[asset].root, s.takes[asset].place)
    then s
    else
      s.(tasks := if s.planned then s.tasks + [G.Pending] else s.tasks,
         takes := s.takes + [NewTake(s.takes, Some(asset), if s.planned then Some(|s.tasks|) else None, s.takes[asset].place,
                                     false, FromVault, 1, true, true, None)])
  }

  /** The last Vault take of a task (the newest row). */
  function LastVault(takes: TakeRows, no: TaskNo): (t: TakeId)
    requires HasVaultTake(takes, no)
    ensures t < |takes| && Of(takes[t], no) && takes[t].origin == FromVault
  {
    var n := |takes| - 1;
    if Of(takes[n], no) && takes[n].origin == FromVault then n
    else
      assert HasVaultTake(takes[..n], no) by {
        var t :| 0 <= t < |takes| && Of(takes[t], no) && takes[t].origin == FromVault;
        assert takes[..n][t] == takes[t];
      }
      LastVault(takes[..n], no)
  }

  predicate VaultQueued(takes: TakeRows, no: TaskNo) {
    exists t :: 0 <= t < |takes| && Of(takes[t], no) && takes[t].origin == FromVault && takes[t].status == Queued
  }

  function ReadVaultTakes(s: State, no: TaskNo): State {
    if HasVaultTake(s.takes, no) && !VaultQueued(s.takes, no) then Note(s, NoneQueued(no, LastVault(s.takes, no))) else s
  }

  /** redirectVaultTask's transaction, on the last Vault take it read: a fresh one of the same lineage. It
      does not look at the task's status. */
  function RedirectVault(s: State, no: TaskNo, last: TakeId): State {
    if NoneQueued(no, last) !in s.noted || last >= |s.takes| then s
    else
      var superseded := Supersede(s.takes, no);
      var onShow := CurrentOf(superseded, s.takes[last].root);
      s.(takes := superseded + [NewTake(superseded, Some(if onShow.Some? then onShow.value else last), Some(no), s.takes[last].place,
                                        false, FromVault, 1, true, true, None)])
  }

  function StartsWaiting(s: State, task: Option<TaskNo>): State {
    if task.Some? && TaskIs(s, task.value, G.Running) then s.(tasks := s.tasks[task.value := G.Waiting]) else s
  }

  /** directVaultTake: the Visual Director's plan stored on the take, and the task that asked for it
      WAITING. The transaction checks that the take is still QUEUED. */
  function DirectVaultTake(s: State, t: TakeId): State {
    if t < |s.takes| && s.takes[t].status == Queued && s.takes[t].pendingDirection
    then StartsWaiting(SetTake(s, t, s.takes[t].(pendingDirection := false)), s.takes[t].task) else s
  }

  function ReadDirected(s: State, t: TakeId): State {
    if t < |s.takes| && s.takes[t].status == Queued && s.takes[t].origin == FromVault && !s.takes[t].pendingDirection
    then Note(s, AlreadyDirected(t)) else s
  }

  /** directVaultTake on a take an earlier run already directed: only the task is updated. */
  function ResumeVault(s: State, t: TakeId): State {
    if AlreadyDirected(t) in s.noted && t < |s.takes| then StartsWaiting(s, s.takes[t].task) else s
  }

  // ---------------------------------------------------------------- tasks

  /** A revision chain with a direct task is appended (module Revisions). */
  function AddTask(s: State): State {
    if s.planned && AllDone(s) then s.(tasks := s.tasks + [G.Pending]) else s
  }

  /** advance, a run's start, a hand-off, a budget block or a requeue. */
  function MoveTask(s: State, no: TaskNo, move: G.Move): State {
    if no < |s.tasks| && s.tasks[no] in G.MovesFrom(move) && !(move in {G.Succeed, G.Wait, G.Settle, G.AcceptBest})
    then s.(tasks := s.tasks[no := G.MovesTo(move)]) else s
  }

  function QueueTask(s: State, no: TaskNo): State {
    if TaskIs(s, no, G.Pending) then s.(tasks := s.tasks[no := G.Queued]) else s
  }

  // ---------------------------------------------------------------- the steps

  datatype Step =
    | SAddTask | SQueueTask(no: TaskNo) | SMoveTask(no: TaskNo, move: G.Move)
    | SPlanShots(no: TaskNo, shots: seq<Place>)
    | SSubmit(t: TakeId) | SRendered(t: TakeId) | SFailTake(t: TakeId, to: TakeStatus)
    | SStoreReview(t: TakeId, review: Review)
    | SReadReview(t: TakeId) | SActOnReview(t: TakeId, onTrial: bool, published: bool)
    | SReadSettled(no: TaskNo) | SComplete(no: TaskNo)
    | SReadBest(no: TaskNo, picks: map<TakeId, TakeId>) | SAcceptBest(no: TaskNo, picks: map<TakeId, TakeId>)
    | SRegenerateAsset(asset: TakeId)
    | SReadVaultTakes(no: TaskNo) | SRedirectVault(no: TaskNo, last: TakeId)
    | SDirectVaultTake(t: TakeId)
    | SReadDirected(t: TakeId) | SResumeVault(t: TakeId)

  function Next(s: State, step: Step): State {
    match step
    case SAddTask => AddTask(s)
    case SQueueTask(no) => QueueTask(s, no)
    case SMoveTask(no, move) => MoveTask(s, no, move)
    case SPlanShots(no, shots) => PlanShots(s, no, shots)
    case SSubmit(t) => Submit(s, t)
    case SRendered(t) => Rendered(s, t)
    case SFailTake(t, to) => FailTake(s, t, to)
    case SStoreReview(t, review) => StoreReview(s, t, review)
    case SReadReview(t) => ReadReview(s, t)
    case SActOnReview(t, onTrial, published) => ActOnReview(s, t, onTrial, published)
    case SReadSettled(no) => ReadSettled(s, no)
    case SComplete(no) => Complete(s, no)
    case SReadBest(no, picks) => ReadBest(s, no, picks)
    case SAcceptBest(no, picks) => AcceptBest(s, no, picks)
    case SRegenerateAsset(asset) => RegenerateAsset(s, asset)
    case SReadVaultTakes(no) => ReadVaultTakes(s, no)
    case SRedirectVault(no, last) => RedirectVault(s, no, last)
    case SDirectVaultTake(t) => DirectVaultTake(s, t)
    case SReadDirected(t) => ReadDirected(s, t)
    case SResumeVault(t) => ResumeVault(s, t)
  }

  ghost predicate Distinct(shots: seq<Place>) {
    forall i, j :: 0 <= i < j < |shots| ==> shots[i] != shots[j]
  }

  predicate HasTakes(takes: TakeRows, no: TaskNo) {
    exists t :: 0 <= t < |takes| && Of(takes[t], no)
  }

  function Exec(s: State, steps: seq<Step>): State
    decreases |steps|
  {
    if steps == [] then s else Exec(Next(s, steps[0]), steps[1..])
  }

  /** A planned post before any direct task ran. */
  predicate Initial(s: State) {
    s.takes == [] && s.tasks == [] && s.planned && s.latest == {} && s.lastAttempt >= 1 && s.noted == {} && s.revived == {}
  }
}
