/** One post's rows from its first approval round to the last platform it goes out on, and every
    transaction that writes them, each as one step. Sources: the files of apps/api/src/publishing,
    apps/api/src/orchestrator/{approval-round,publishing,post-status,feedback,vault-takes}.ts and
    apps/api/src/services/{approvals,publishing,posts,campaigns,clients}.ts. */
module Publishing {
  import opened Options
  import opened ApprovalChain
  import opened PostLifecycle

  datatype Text = Text(caption: string, hashtags: seq<string>)
  datatype PlatformCaption = PlatformCaption(platform: Platform, caption: string)
  datatype Copy = Copy(caption: string, hashtags: seq<string>, platformCaptions: seq<PlatformCaption>, body: string)

  function CaptionFor(entries: seq<PlatformCaption>, p: Platform, otherwise: string): string {
    if entries == [] then otherwise
    else if entries[0].platform == p then entries[0].caption
    else CaptionFor(entries[1..], p, otherwise)
  }

  /** variantTextOf: the platform's own caption, the main one without it; the copy's hashtags. */
  function VariantCopyOf(copy: Copy, p: Platform): Text {
    Text(CaptionFor(copy.platformCaptions, p, copy.caption), copy.hashtags)
  }

  /** The text is what the copy has for the platform: the caption of the first entry for it, the main caption
      when there is none, and the copy's hashtags. */
  ghost predicate OwnText(copy: Copy, p: Platform, text: Text) {
    var entries := copy.platformCaptions;
    && text.hashtags == copy.hashtags
    && (forall i :: 0 <= i < |entries| && entries[i].platform == p && (forall j :: 0 <= j < i ==> entries[j].platform != p)
          ==> text.caption == entries[i].caption)
    && ((forall i :: 0 <= i < |entries| ==> entries[i].platform != p) ==> text.caption == copy.caption)
  }

  lemma {:induction false} CaptionIsTheFirst(entries: seq<PlatformCaption>, p: Platform, otherwise: string)
    ensures forall i :: 0 <= i < |entries| && entries[i].platform == p && (forall j :: 0 <= j < i ==> entries[j].platform != p)
              ==> CaptionFor(entries, p, otherwise) == entries[i].caption
    ensures (forall i :: 0 <= i < |entries| ==> entries[i].platform != p) ==> CaptionFor(entries, p, otherwise) == otherwise
  {
    if entries != [] && entries[0].platform != p {
      CaptionIsTheFirst(entries[1..], p, otherwise);
      forall i | 0 <= i < |entries| && entries[i].platform == p && (forall j :: 0 <= j < i ==> entries[j].platform != p)
        ensures CaptionFor(entries, p, otherwise) == entries[i].caption
      {
        assert entries[1..][i - 1] == entries[i];
        assert forall j :: 0 <= j < i - 1 ==> entries[1..][j] == entries[j + 1];
      }
    }
  }

  lemma VariantIsOwnText(copy: Copy, p: Platform)
    ensures OwnText(copy, p, VariantCopyOf(copy, p))
  {
    CaptionIsTheFirst(copy.platformCaptions, p, copy.caption);
  }

  /** What contentHash covers. Hashes are compared by what they hash (module ContentHash proves
      that the hashed text determines it). */
  datatype Content = Content(copy: Option<Copy>, variants: map<Platform, Text>, assetIds: set<string>)

  /** An ApprovalRequest row. `openedOn` is the hash the round was created with: a history value that
      no step reads. */
  datatype Round = Round(walk: ChainState, contentHash: Content, openedOn: Content)

  /** A publish.run message. */
  datatype Run = Run(platform: Platform, attempt: nat)

  /** History: a claim that passed, and what its payload was built from. `resumed` marks a repeat of
      an attempt that was already PUBLISHING. */
  datatype Sent = Sent(platform: Platform, attempt: nat, round: nat, content: Content, resumed: bool)

  /** What transaction A of publisher.schedule hands transaction B: the round it prepared and the
      platforms whose variants may be put on a slot. */
  datatype Plan = Plan(round: nat, platforms: set<Platform>)

  /** `runs` holds every publish.run message ever queued and never shrinks, so a step may act on any
      of them at any time, twice or never: delayed, duplicated and lost messages alike. `plans` does
      the same for the plans of publisher.schedule workers between their two transactions. `atWork` says
      an agents' task of the post is unfinished: from a chain's start to the QA that ends it (module
      RevisionChains: past production every task of the post has SUCCEEDED). */
  datatype Db = Db(
    status: PostStatus,
    copy: Option<Copy>,
    assetIds: set<string>,
    variants: map<Platform, Text>,
    rounds: seq<Round>,
    jobs: Jobs,
    plans: set<Plan>,
    runs: set<Run>,
    sent: seq<Sent>,
    campaignArchived: bool,
    clientArchived: bool,
    atWork: bool,
    planned: bool,
    platforms: seq<Platform>,
    takesType: set<Platform>)

  function CurrentContent(db: Db): Content {
    Content(db.copy, db.variants, db.assetIds)
  }

  predicate Archived(db: Db) {
    db.campaignArchived || db.clientArchived
  }

  predicate LatestIs(db: Db, status: RoundStatus) {
    |db.rounds| > 0 && db.rounds[|db.rounds| - 1].walk.status == status
  }

  // ---------------------------------------------------------------- pieces the steps share

  predicate Reopenable(round: Round) {
    round.walk.status == Pending || round.walk.status == RoundStatus.Approved
  }

  function CancelRounds(rounds: seq<Round>): seq<Round> {
    seq(|rounds|, i requires 0 <= i < |rounds| => rounds[i].(walk := Superseded(rounds[i].walk)))
  }

  predicate HasReopenable(db: Db) {
    exists r :: r in db.rounds && Reopenable(r)
  }

  function OpenRound(db: Db, chain: Chain): Db {
    db.(rounds := db.rounds + [Round(Fresh(chain), CurrentContent(db), CurrentContent(db))])
  }

  /** syncPostPublishStatus */
  function Sync(db: Db): Db {
    if !PublishDriven(db.status) then db
    else
      var target := StatusOfJobs(db.jobs);
      if CanTransition(db.status, target) then db.(status := target) else db
  }

  /** Rounds superseded, waiting jobs called off, a new round on what the post holds now. */
  function Reopen(db: Db, chain: Chain): Db {
    OpenRound(db.(rounds := CancelRounds(db.rounds), jobs := CancelWaiting(db.jobs),
                  status := PendingApproval), chain)
  }

  /** reopenForRevision: as Reopen, but the agents get the post and QA opens the next round. */
  function ReopenForRevision(db: Db): Db {
    db.(rounds := CancelRounds(db.rounds), jobs := CancelWaiting(db.jobs),
        status := PostStatus.ChangesRequested, atWork := true)
  }

  function SetJob(db: Db, p: Platform, job: Job): Db {
    db.(jobs := db.jobs[p := job])
  }

  // ---------------------------------------------------------------- production and approval

  /** The agents' work on the post, whatever it stores: a transaction that only goes through while its
      task is RUNNING. */
  function AgentWork(db: Db, status: PostStatus, copy: Option<Copy>, assetIds: set<string>): Db {
    if db.atWork && InProduction(status)
    then db.(status := status, copy := copy, assetIds := assetIds) else db
  }

  /** The statuses of ACTION_POST_STATUS. */
  predicate EnteredByRun(status: PostStatus) {
    status in {Drafting, Visualizing, Adapting, Qa}
  }

  /** enterPostStatus: a run moves the post into its task's status along any edge there is. It looks at
      nothing else, so one that stalled does so however late. */
  function EnterStatus(db: Db, status: PostStatus): Db {
    if db.planned && EnteredByRun(status) && CanTransition(db.status, status) then db.(status := status) else db
  }

  /** sendForApproval: the RUNNING QA task's, which put the post in QA. */
  function SendForApproval(db: Db, chain: Chain): Db {
    if !db.atWork || db.status != Qa then db else OpenRound(db.(status := PendingApproval, atWork := false), chain)
  }

  /** decide and approveAll on round `r` (0-based); a requireTransition that throws undoes it all. */
  function Decide(db: Db, r: nat, actor: Actor, decision: Decision): Db {
    if r >= |db.rounds| || ChainRejection(db.rounds[r].walk, actor).Some? then db
    else
      var walk := Record(db.rounds[r].walk, actor, decision);
      var decided := db.(rounds := db.rounds[r := db.rounds[r].(walk := walk)]);
      match walk.status
      case Approved => if CanTransition(db.status, PostStatus.Approved)
                       then decided.(status := PostStatus.Approved) else db
      // routeHumanFeedback throws for a post without a plan to revise
      case ChangesRequested => if db.planned && CanTransition(db.status, PostStatus.ChangesRequested)
                               then decided.(status := PostStatus.ChangesRequested, atWork := true) else db
      case _ => decided
  }

  /** editCopy: `gaps` says the new copy no longer fits the post's takes. */
  function EditCopy(db: Db, copy: Copy, gaps: bool, chain: Chain): Db {
    if db.campaignArchived || !WaitsOrApproved(db.status) || db.copy.None? then db
    else
      var edited := db.(copy := Some(copy));
      if gaps then (if db.planned then ReopenForRevision(edited) else db)
      else if !HasReopenable(db) then edited
      else Reopen(edited, chain)
  }

  /** regenerateAsset on a planned post (routeVisualRevision). */
  function ReviseVisuals(db: Db): Db {
    if db.planned && !db.campaignArchived && WaitsOrApproved(db.status) then ReopenForRevision(db) else db
  }

  /** promoteVaultTake and reopenApproval outside any plan: the post's current takes become `assetIds`. */
  function PromoteTake(db: Db, assetIds: set<string>, chain: Chain): Db {
    if db.planned || Frozen(db.status) then db
    else
      var promoted := db.(assetIds := assetIds);
      if !HasReopenable(db) then promoted
      else if !CanTransition(db.status, PendingApproval) then db
      else Reopen(promoted, chain)
  }

  // ---------------------------------------------------------------- scheduling

  /** scheduleDue; rounds are numbered from 1. */
  predicate ScheduleDue(db: Db, round: nat) {
    db.status == PostStatus.Approved && !Archived(db) && |db.rounds| == round
    && LatestIs(db, RoundStatus.Approved)
  }

  predicate Counts(db: Db, p: Platform) {
    p in db.jobs && db.jobs[p].status != JobStatus.Cancelled
  }

  predicate TakesVariant(db: Db, p: Platform) {
    p in db.platforms && p in db.takesType
  }

  function PreparedVariants(db: Db, copy: Copy): map<Platform, Text> {
    map p | p in db.variants.Keys + (set q | q in db.platforms && q in db.takesType) ::
      if p in db.variants && (!TakesVariant(db, p) || Counts(db, p)) then db.variants[p]
      else VariantCopyOf(copy, p)
  }

  /** prepareVariants: transaction A of publisher.schedule. */
  function PrepareVariants(db: Db, round: nat): Db {
    if !ScheduleDue(db, round) || db.copy.None? then db
    else
      var items := set p | p in db.platforms && p in db.takesType && !Counts(db, p);
      var prepared := db.(variants := PreparedVariants(db, db.copy.value),
                          plans := db.plans + {Plan(round, items)});
      var latest := db.rounds[round - 1];
      if latest.contentHash == CurrentContent(db)
      then prepared.(rounds := db.rounds[round - 1 := latest.(contentHash := CurrentContent(prepared))])
      else prepared
  }

  /** The row commitSchedule and schedule write: a new one, or the CANCELLED one counting on. */
  function ScheduledRow(jobs: Jobs, p: Platform): Job {
    Job(JobStatus.Scheduled, if p in jobs then jobs[p].attempts + 1 else 0, None)
  }

  predicate Schedulable(db: Db, p: Platform) {
    p in db.variants && !Counts(db, p)
  }

  function ScheduledJobs(db: Db, plan: Plan, picked: set<Platform>): Jobs {
    db.jobs + (map p | p in picked && p in plan.platforms && Schedulable(db, p) :: ScheduledRow(db.jobs, p))
  }

  /** commitSchedule: transaction B, for the planned platforms that got a slot and an account. */
  function CommitSchedule(db: Db, plan: Plan, picked: set<Platform>): Db {
    if plan !in db.plans || !ScheduleDue(db, plan.round) then db
    else Sync(db.(jobs := ScheduledJobs(db, plan, picked)))
  }

  /** schedule (POST /publish-jobs): a teammate puts one platform on a day. */
  function ScheduleByHand(db: Db, p: Platform): Db {
    if Archived(db) || !PublishDriven(db.status) || !LatestIs(db, RoundStatus.Approved)
       || !TakesVariant(db, p) || !Schedulable(db, p) || db.copy.None?
    then db
    else Sync(SetJob(db, p, ScheduledRow(db.jobs, p)))
  }

  // ---------------------------------------------------------------- publishing

  function NextRun(jobs: Jobs, p: Platform): Run
    requires p in jobs
  {
    Run(p, jobs[p].attempts + 1)
  }

  /** queueDue: the SCHEDULED jobs whose slot has come. */
  function QueueDue(db: Db, due: set<Platform>): Db {
    var moved := set p | p in db.jobs && p in due && db.jobs[p].status == JobStatus.Scheduled;
    db.(jobs := map p | p in db.jobs ::
                  if p in moved then db.jobs[p].(status := Queued) else db.jobs[p],
        runs := db.runs + (set p | p in moved :: NextRun(db.jobs, p)))
  }

  /** redriveQueued: another publish.run for a QUEUED job whose run was lost or gave up. */
  function Redrive(db: Db, p: Platform): Db {
    if p in db.jobs && db.jobs[p].status == Queued
    then db.(runs := db.runs + {NextRun(db.jobs, p)}) else db
  }

  /** onThisAttempt, and the same condition as a where clause (onAttempt). */
  predicate OnAttempt(job: Job, attempt: nat) {
    (job.status == Queued && job.attempts + 1 == attempt)
    || (job.status == JobStatus.Publishing && job.attempts == attempt)
  }

  /** failJobIn */
  function FailJob(db: Db, p: Platform, attempt: nat): Db {
    if p !in db.jobs || !OnAttempt(db.jobs[p], attempt) then db
    else Sync(SetJob(db, p, db.jobs[p].(status := JobStatus.Failed, attempts := attempt)))
  }

  /** What the guard reads besides the post's own rows, and whether the payload can be built. */
  datatype Checks = Checks(bannedHits: bool, tokenFails: bool, payloadOk: bool)

  datatype Guard = ArchivedGuard | ApprovalGuard | ContentHashGuard | BannedWordsGuard | TokenGuard

  /** evaluateGuards: the first guard the post fails. */
  function EvaluateGuards(db: Db, checks: Checks): Option<Guard> {
    if Archived(db) then Some(ArchivedGuard)
    else if !LatestIs(db, RoundStatus.Approved) then Some(ApprovalGuard)
    else if db.rounds[|db.rounds| - 1].contentHash != CurrentContent(db) then Some(ContentHashGuard)
    else if checks.bannedHits then Some(BannedWordsGuard)
    else if checks.tokenFails then Some(TokenGuard)
    else None
  }

  /** refuseIn, for a job that is on its attempt. */
  function Refuse(db: Db, p: Platform, attempt: nat, guard: Guard, chain: Chain): Db
    requires p in db.jobs
  {
    var job := db.jobs[p];
    var calledOff := db.(jobs := CallOffWith(db.jobs, p));
    if guard == TokenGuard then FailJob(db, p, attempt)
    else if guard == ArchivedGuard then Sync(calledOff)
    else if job.containerId.Some? then FailJob(db, p, attempt)
    else if db.status != PostStatus.Approved && db.status != PostStatus.Scheduled then Sync(calledOff)
    else if guard == BannedWordsGuard then
      if db.planned then ReopenForRevision(calledOff) else Sync(calledOff)
    else Reopen(calledOff, chain)
  }

  /** claim: the one transaction that lets a job go out. */
  function Claim(db: Db, run: Run, checks: Checks, chain: Chain): Db {
    var p := run.platform;
    if run !in db.runs || p !in db.jobs || !OnAttempt(db.jobs[p], run.attempt) then db
    else
      var guard := EvaluateGuards(db, checks);
      if guard.Some? then Refuse(db, p, run.attempt, guard.value, chain)
      else if !checks.payloadOk then FailJob(db, p, run.attempt)
      else
        var resumed := db.jobs[p].status == JobStatus.Publishing;
        var claimed := SetJob(db, p, db.jobs[p].(status := JobStatus.Publishing, attempts := run.attempt))
                       .(sent := db.sent + [Sent(p, run.attempt, |db.rounds| - 1, CurrentContent(db), resumed)]);
        if resumed then claimed else Sync(claimed)
  }

  /** What a call to the platform for attempt `attempt` ends in. */
  datatype Outcome =
    | Container(containerId: string)   // saveContainer
    | Out                              // recordPublished
    | TryAgain                         // retryLater

  function Settle(db: Db, p: Platform, attempt: nat, outcome: Outcome): Db {
    if p !in db.jobs || db.jobs[p].status != JobStatus.Publishing || db.jobs[p].attempts != attempt then db
    else
      match outcome
      case Container(c) => SetJob(db, p, db.jobs[p].(containerId := Some(c)))
      case Out => Sync(SetJob(db, p, db.jobs[p].(status := Published)))
      case TryAgain =>
        Sync(SetJob(db, p, db.jobs[p].(status := Queued)))
        .(runs := db.runs + {Run(p, attempt + 1)})
  }

  /** retry: `resumed` is the container without its posting marker. */
  function Retry(db: Db, p: Platform, resumed: string): Db {
    if p !in db.jobs || db.jobs[p].status != JobStatus.Failed || !PublishDriven(db.status) || Archived(db) then db
    else
      var job := db.jobs[p];
      var container := if job.containerId.Some? then Some(resumed) else None;
      Sync(SetJob(db, p, job.(status := Queued, containerId := container)))
      .(runs := db.runs + {NextRun(db.jobs, p)})
  }

  /** cancel: a waiting job called off or a failed one dropped. */
  function Cancel(db: Db, p: Platform): Db {
    if p in db.jobs && (db.jobs[p].status == JobStatus.Failed || NotYetOut(db.jobs[p]))
    then Sync(SetJob(db, p, db.jobs[p].(status := JobStatus.Cancelled))) else db
  }

  /** cancelScheduledWhere on this post, which it selects only for a job that may be called off. */
  function CallOff(db: Db): Db {
    if exists p :: p in db.jobs && NotYetOut(db.jobs[p])
    then Sync(db.(jobs := CancelWaiting(db.jobs))) else db
  }

  function CancelPendingRounds(rounds: seq<Round>): seq<Round> {
    seq(|rounds|, i requires 0 <= i < |rounds| =>
      if rounds[i].walk.status == Pending then rounds[i].(walk := Superseded(rounds[i].walk)) else rounds[i])
  }

  /** archiveCampaign: its pending rounds are cancelled, its approved ones stand. */
  function ArchiveCampaign(db: Db): Db {
    if db.campaignArchived then db
    else CallOff(db.(campaignArchived := true, rounds := CancelPendingRounds(db.rounds)))
  }

  /** archiveClient */
  function ArchiveClient(db: Db): Db {
    if db.clientArchived then db else CallOff(db.(clientArchived := true))
  }

  // ---------------------------------------------------------------- runs of the whole system

  datatype Step =
    | SAgentWork(status: PostStatus, copy: Option<Copy>, assetIds: set<string>)
    | SEnter(status: PostStatus)
    | SSendForApproval(chain: Chain)
    | SDecide(round: nat, actor: Actor, decision: Decision)
    | SEditCopy(edit: Copy, gaps: bool, chain: Chain)
    | SReviseVisuals
    | SPromoteTake(assetIds: set<string>, chain: Chain)
    | SPrepareVariants(round: nat)
    | SCommitSchedule(plan: Plan, picked: set<Platform>)
    | SScheduleByHand(p: Platform)
    | SQueueDue(due: set<Platform>)
    | SRedrive(p: Platform)
    | SClaim(run: Run, checks: Checks, chain: Chain)
    | SSettle(p: Platform, attempt: nat, outcome: Outcome)
    | SFailJob(p: Platform, attempt: nat)
    | SRetry(p: Platform, resumed: string)
    | SCancel(p: Platform)
    | SArchiveCampaign
    | SArchiveClient
    /** Copy or takes changed at any time by anything at all, under no lock and in any status: a late review
        job changes the takes of a planned post so (module TakeSlips). */
    | SDrift(copy: Option<Copy>, assetIds: set<string>)

  function Next(db: Db, step: Step): Db {
    match step
    case SAgentWork(status, copy, assetIds) => AgentWork(db, status, copy, assetIds)
    case SEnter(status) => EnterStatus(db, status)
    case SSendForApproval(chain) => SendForApproval(db, chain)
    case SDecide(r, actor, decision) => Decide(db, r, actor, decision)
    case SEditCopy(edit, gaps, chain) => EditCopy(db, edit, gaps, chain)
    case SReviseVisuals => ReviseVisuals(db)
    case SPromoteTake(assetIds, chain) => PromoteTake(db, assetIds, chain)
    case SPrepareVariants(round) => PrepareVariants(db, round)
    case SCommitSchedule(plan, picked) => CommitSchedule(db, plan, picked)
    case SScheduleByHand(p) => ScheduleByHand(db, p)
    case SQueueDue(due) => QueueDue(db, due)
    case SRedrive(p) => Redrive(db, p)
    case SClaim(run, checks, chain) => Claim(db, run, checks, chain)
    case SSettle(p, attempt, outcome) => Settle(db, p, attempt, outcome)
    case SFailJob(p, attempt) => FailJob(db, p, attempt)
    case SRetry(p, resumed) => Retry(db, p, resumed)
    case SCancel(p) => Cancel(db, p)
    case SArchiveCampaign => ArchiveCampaign(db)
    case SArchiveClient => ArchiveClient(db)
    case SDrift(copy, assetIds) => db.(copy := copy, assetIds := assetIds)
  }

  /** The client's stored chain always passes its schema (parseStored in openApprovalRound). */
  predicate ChainsParse(step: Step) {
    match step
    case SSendForApproval(chain) => WellFormed(chain)
    case SEditCopy(_, _, chain) => WellFormed(chain)
    case SPromoteTake(_, chain) => WellFormed(chain)
    case SClaim(_, _, chain) => WellFormed(chain)
    case _ => true
  }

  /** A planned or free-standing post before any round. */
  predicate Initial(db: Db) {
    && db.status == Idea && db.rounds == [] && db.jobs == map[] && db.plans == {} && db.runs == {} && db.sent == []
    && db.atWork && db.variants == map[] && !db.campaignArchived && !db.clientArchived
  }

  function Exec(db: Db, steps: seq<Step>): Db
    decreases |steps|
  {
    if steps == [] then db else Exec(Next(db, steps[0]), steps[1..])
  }
}
