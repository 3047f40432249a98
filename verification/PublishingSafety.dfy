/** What every run of the publishing protocol keeps (module Publishing). */
module PublishingSafety {
  import opened Options
  import opened ApprovalChain
  import opened PostLifecycle
  import opened Publishing

  // ---------------------------------------------------------------- only approved content goes out

  /** The hash a round was opened with, or that hash with variants computed from the same copy. */
  ghost predicate HashCoversOpened(round: Round) {
    && round.contentHash.copy == round.openedOn.copy
    && round.contentHash.assetIds == round.openedOn.assetIds
    && forall p :: p in round.contentHash.variants ==>
        || (p in round.openedOn.variants && round.contentHash.variants[p] == round.openedOn.variants[p])
        || (round.openedOn.copy.Some?
            && round.contentHash.variants[p] == VariantCopyOf(round.openedOn.copy.value, p))
  }

  ghost predicate RoundsKept(rounds: seq<Round>) {
    forall i :: 0 <= i < |rounds| ==> Collected(rounds[i].walk) && HashCoversOpened(rounds[i])
  }

  /** The content of a claim is what a fully approved round was opened on: its copy, its takes, and
      for each variant the text the round saw or the one computed from its copy. */
  ghost predicate SentApproved(rounds: seq<Round>, s: Sent) {
    && s.round < |rounds|
    && FullyApproved(rounds[s.round].walk)
    && HashCoversOpened(rounds[s.round].(contentHash := s.content))
  }

  ghost predicate OnlyApprovedSent(db: Db) {
    RoundsKept(db.rounds) && forall k :: 0 <= k < |db.sent| ==> SentApproved(db.rounds, db.sent[k])
  }

  /** Later rounds keep what earlier ones proved: rounds are only appended, and a round that was
      fully approved stays so on the content it was opened with. */
  ghost predicate Extends(before: seq<Round>, after: seq<Round>) {
    && |before| <= |after|
    && forall i :: 0 <= i < |before| ==>
        && after[i].openedOn == before[i].openedOn
        && (FullyApproved(before[i].walk) ==> FullyApproved(after[i].walk))
  }

  lemma ExtendedRoundsKeepSent(before: Db, after: Db)
    requires OnlyApprovedSent(before) && RoundsKept(after.rounds)
    requires Extends(before.rounds, after.rounds) && after.sent == before.sent
    ensures OnlyApprovedSent(after)
  {
    forall k | 0 <= k < |after.sent| ensures SentApproved(after.rounds, after.sent[k]) {
      assert SentApproved(before.rounds, before.sent[k]);
    }
  }

  lemma CancelledRoundsExtend(rounds: seq<Round>)
    requires RoundsKept(rounds)
    ensures RoundsKept(CancelRounds(rounds)) && Extends(rounds, CancelRounds(rounds))
    ensures RoundsKept(CancelPendingRounds(rounds)) && Extends(rounds, CancelPendingRounds(rounds))
  {
    forall i | 0 <= i < |rounds|
      ensures Collected(Superseded(rounds[i].walk))
           && (FullyApproved(rounds[i].walk) ==> FullyApproved(Superseded(rounds[i].walk)))
    {
      CancelKeepsCollected(rounds[i].walk);
    }
  }

  lemma OpenedRoundsExtend(db: Db, chain: Chain)
    requires RoundsKept(db.rounds) && WellFormed(chain)
    ensures RoundsKept(OpenRound(db, chain).rounds) && Extends(db.rounds, OpenRound(db, chain).rounds)
  {
    FreshIsCollected(chain);
  }

  lemma ReopenKeepsApproved(db: Db, chain: Chain)
    requires OnlyApprovedSent(db) && WellFormed(chain)
    ensures OnlyApprovedSent(Reopen(db, chain))
  {
    var cancelled := db.(rounds := CancelRounds(db.rounds), jobs := CancelWaiting(db.jobs),
                         status := PendingApproval);
    CancelledRoundsExtend(db.rounds);
    OpenedRoundsExtend(cancelled, chain);
    ExtendedRoundsKeepSent(db, cancelled);
    ExtendedRoundsKeepSent(cancelled, Reopen(db, chain));
  }

  lemma RevisionKeepsApproved(db: Db)
    requires OnlyApprovedSent(db)
    ensures OnlyApprovedSent(ReopenForRevision(db))
  {
    CancelledRoundsExtend(db.rounds);
    ExtendedRoundsKeepSent(db, ReopenForRevision(db));
  }

  lemma WalkedRoundExtends(rounds: seq<Round>, r: nat, walk: ChainState)
    requires RoundsKept(rounds) && r < |rounds|
    requires Collected(walk) && (FullyApproved(rounds[r].walk) ==> FullyApproved(walk))
    ensures RoundsKept(rounds[r := rounds[r].(walk := walk)])
    ensures Extends(rounds, rounds[r := rounds[r].(walk := walk)])
  {
    hide FullyApproved, Collected;
  }

  lemma DecideKeepsApproved(db: Db, r: nat, actor: Actor, decision: Decision)
    requires OnlyApprovedSent(db)
    ensures OnlyApprovedSent(Decide(db, r, actor, decision))
  {
    hide FullyApproved, Collected, Record;
    if r < |db.rounds| && ChainRejection(db.rounds[r].walk, actor).None? {
      var walk := db.rounds[r].walk;
      DecisionKeepsCollected(walk, actor, decision);
      PendingIsNotFullyApproved(walk);
      WalkedRoundExtends(db.rounds, r, Record(walk, actor, decision));
      ExtendedRoundsKeepSent(db, db.(rounds := db.rounds[r := db.rounds[r].(walk := Record(walk, actor, decision))]));
    }
  }

  lemma PendingIsNotFullyApproved(walk: ChainState)
    requires Collected(walk) && walk.status == Pending
    ensures !FullyApproved(walk)
  {
    assert CountApprovals(walk.votes, walk.currentStep) < walk.chain[walk.currentStep].minApprovals;
  }

  lemma PrepareKeepsApproved(db: Db, round: nat)
    requires OnlyApprovedSent(db)
    ensures OnlyApprovedSent(PrepareVariants(db, round))
  {
    hide Collected, FullyApproved, NextStateAfterDecision, Record;
    ExtendedRoundsKeepSent(db, PrepareVariants(db, round));
  }

  lemma SyncsKeepRounds()
    ensures forall d: Db {:trigger Sync(d)} :: Sync(d).rounds == d.rounds && Sync(d).sent == d.sent
  {
    hide StatusOfJobs;
  }

  lemma RefusalKeepsApproved(db: Db, p: Platform, attempt: nat, guard: Guard, chain: Chain)
    requires OnlyApprovedSent(db) && p in db.jobs && WellFormed(chain)
    ensures OnlyApprovedSent(Refuse(db, p, attempt, guard, chain))
  {
    hide OnlyApprovedSent, Reopen, ReopenForRevision, Sync, CallOffWith;
    var calledOff := db.(jobs := CallOffWith(db.jobs, p));
    SyncsKeepRounds();
    SameRowsStayApproved(db);
    ReopenKeepsApproved(calledOff, chain);
    RevisionKeepsApproved(calledOff);
  }

  lemma ClaimKeepsApproved(db: Db, run: Run, checks: Checks, chain: Chain)
    requires OnlyApprovedSent(db) && WellFormed(chain)
    ensures OnlyApprovedSent(Claim(db, run, checks, chain))
  {
    hide FullyApproved, Collected, Refuse;
    var p := run.platform;
    if run in db.runs && p in db.jobs && OnAttempt(db.jobs[p], run.attempt) {
      var guard := EvaluateGuards(db, checks);
      if guard.Some? {
        RefusalKeepsApproved(db, p, run.attempt, guard.value, chain);
      } else if checks.payloadOk {
        var after := Claim(db, run, checks, chain);
        var latest := db.rounds[|db.rounds| - 1];
        ApprovedMeansFullyApproved(latest.walk);
        var s := after.sent[|db.sent|];
        assert latest.(contentHash := s.content) == latest;
        assert SentApproved(after.rounds, s);
        forall k | 0 <= k < |after.sent| ensures SentApproved(after.rounds, after.sent[k]) {
          if k < |db.sent| {
            assert after.sent[k] == db.sent[k];
          }
        }
      }
    }
  }

  lemma SameRowsStayApproved(db: Db)
    requires OnlyApprovedSent(db)
    ensures forall d: Db {:trigger OnlyApprovedSent(d)} ::
              d.rounds == db.rounds && d.sent == db.sent ==> OnlyApprovedSent(d)
  {
  }

  lemma SendForApprovalKeepsApproved(db: Db, chain: Chain)
    requires OnlyApprovedSent(db) && WellFormed(chain)
    ensures OnlyApprovedSent(SendForApproval(db, chain))
  {
    OpenedRoundsExtend(db.(status := PendingApproval), chain);
    if db.status == Qa {
      ExtendedRoundsKeepSent(db, SendForApproval(db, chain));
    }
  }

  lemma ArchiveKeepsApproved(db: Db)
    requires OnlyApprovedSent(db)
    ensures OnlyApprovedSent(ArchiveCampaign(db))
  {
    CancelledRoundsExtend(db.rounds);
    ExtendedRoundsKeepSent(db, ArchiveCampaign(db));
  }

  /** The steps that write no round and send nothing. */
  lemma OtherStepsKeepApproved(db: Db, step: Step)
    requires OnlyApprovedSent(db)
    requires !(step.SDecide? || step.SPrepareVariants? || step.SClaim? || step.SSendForApproval? || step.SEditCopy?
               || step.SReviseVisuals? || step.SPromoteTake? || step.SArchiveCampaign?)
    ensures OnlyApprovedSent(Next(db, step))
  {
    hide RoundsKept, SentApproved, StatusOfJobs, CancelWaiting, ScheduledJobs, FullyApproved;
    SameRowsStayApproved(db);
  }

  /** Whatever step is taken, content drifting under no lock included. */
  lemma StepKeepsApproved(db: Db, step: Step)
    requires OnlyApprovedSent(db) && ChainsParse(step)
    ensures OnlyApprovedSent(Next(db, step))
  {
    hide RoundsKept, SentApproved, Claim, Decide, PrepareVariants, StatusOfJobs, CancelWaiting, ScheduledJobs, FullyApproved;
    match step
    case SDecide(r, actor, decision) => DecideKeepsApproved(db, r, actor, decision);
    case SPrepareVariants(round) => PrepareKeepsApproved(db, round);
    case SClaim(run, checks, chain) => ClaimKeepsApproved(db, run, checks, chain);
    case SSendForApproval(chain) => SendForApprovalKeepsApproved(db, chain);
    case SEditCopy(edit, _, chain) =>
      RevisionKeepsApproved(db.(copy := Some(edit)));
      ReopenKeepsApproved(db.(copy := Some(edit)), chain);
    case SReviseVisuals => RevisionKeepsApproved(db);
    case SPromoteTake(assetIds, chain) => ReopenKeepsApproved(db.(assetIds := assetIds), chain);
    case SArchiveCampaign => ArchiveKeepsApproved(db);
    case _ => OtherStepsKeepApproved(db, step);
  }

  ghost predicate AllParse(steps: seq<Step>) {
    forall s :: s in steps ==> ChainsParse(s)
  }

  lemma {:induction false} ExecKeepsApproved(db: Db, steps: seq<Step>)
    requires OnlyApprovedSent(db) && AllParse(steps)
    ensures OnlyApprovedSent(Exec(db, steps))
    decreases |steps|
  {
    if steps != [] {
      StepKeepsApproved(db, steps[0]);
      ExecKeepsApproved(Next(db, steps[0]), steps[1..]);
    }
  }

  /** On every interleaving, each time a job enters (or re-enters) PUBLISHING it goes out with the
      copy and takes of a round whose every step collected its approvals, and each of its
      variants is the text the round saw or the one computed from its copy. */
  lemma OnlyApprovedContentIsSent(db: Db, steps: seq<Step>)
    requires Initial(db) && AllParse(steps)
    ensures var end := Exec(db, steps);
            forall k :: 0 <= k < |end.sent| ==>
              && SentApproved(end.rounds, end.sent[k])
              && end.sent[k].round < |end.rounds|
              && FullyApproved(end.rounds[end.sent[k].round].walk)
              && end.sent[k].content.copy == end.rounds[end.sent[k].round].openedOn.copy
              && end.sent[k].content.assetIds == end.rounds[end.sent[k].round].openedOn.assetIds
              && forall p :: p in end.sent[k].content.variants ==>
                   var seen, text := end.rounds[end.sent[k].round].openedOn, end.sent[k].content.variants[p];
                   (p in seen.variants && seen.variants[p] == text) || (seen.copy.Some? && OwnText(seen.copy.value, p, text))
  {
    ExecKeepsApproved(db, steps);
    var end := Exec(db, steps);
    hide Exec, VariantCopyOf, OwnText;
    forall k | 0 <= k < |end.sent| ensures SentApproved(end.rounds, end.sent[k]) {}
    forall k, p | 0 <= k < |end.sent| && p in end.sent[k].content.variants && end.rounds[end.sent[k].round].openedOn.copy.Some?
      ensures OwnText(end.rounds[end.sent[k].round].openedOn.copy.value, p, VariantCopyOf(end.rounds[end.sent[k].round].openedOn.copy.value, p))
    {
      VariantIsOwnText(end.rounds[end.sent[k].round].openedOn.copy.value, p);
    }
  }
}
