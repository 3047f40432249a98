/** The approval chain walk (packages/shared/src/approval-chain.ts) and the one place that applies
    it to a stored round (decide in apps/api/src/services/approvals.ts). */
module ApprovalChain {

  import opened Options

  datatype Role = Admin | Manager | Editor
  datatype Decision = Approve | RequestChanges
  datatype RoundStatus = Pending | Approved | ChangesRequested | Cancelled
  type UserId = string

  datatype ApprovalStep = ApprovalStep(name: string, approverRoles: seq<Role>, approverUserIds: seq<UserId>, minApprovals: nat)
  type Chain = seq<ApprovalStep>

  datatype Actor = Actor(id: UserId, role: Role)
  datatype Member = Member(actor: Actor, isActive: bool)

  /** An ApprovalDecision row. The row stores the user's id; the role the user had when deciding is
      kept beside it so that eligibility can be stated afterwards. */
  datatype Vote = Vote(step: nat, voter: Actor, decision: Decision)

  datatype ChainState = ChainState(chain: Chain, status: RoundStatus, currentStep: nat, votes: seq<Vote>)

  // ---------------------------------------------------------------- the source's functions

  predicate IsStepApprover(user: Actor, step: ApprovalStep) {
    user.role in step.approverRoles || user.id in step.approverUserIds
  }

  function EligibleApprovers(step: ApprovalStep, team: seq<Member>): seq<Member> {
    if team == [] then []
    else
      (if team[0].isActive && IsStepApprover(team[0].actor, step) then [team[0]] else [])
      + EligibleApprovers(step, team[1..])
  }

  datatype Shortfall = Shortfall(step: nat, name: string, eligible: nat, required: nat)

  /** chainShortfalls: steps from `from` on with fewer eligible active teammates than minApprovals. */
  function ChainShortfalls(chain: Chain, team: seq<Member>, from: nat := 0): seq<Shortfall>
    requires from <= |chain|
    decreases |chain| - from
  {
    if from == |chain| then []
    else
      var eligible := |EligibleApprovers(chain[from], team)|;
      (if eligible < chain[from].minApprovals
       then [Shortfall(from, chain[from].name, eligible, chain[from].minApprovals)] else [])
      + ChainShortfalls(chain, team, from + 1)
  }

  function Approvers(votes: seq<Vote>, step: nat): set<UserId> {
    set v | v in votes && v.step == step && v.decision == Approve :: v.voter.id
  }

  function CountApprovals(votes: seq<Vote>, step: nat): nat {
    |Approvers(votes, step)|
  }

  datatype Rejection = NotPending | InvalidStep | NotEligible | AlreadyDecided

  function ChainRejection(state: ChainState, actor: Actor): Option<Rejection> {
    if state.status != Pending then Some(NotPending)
    else if state.currentStep >= |state.chain| then Some(InvalidStep)
    else if !IsStepApprover(actor, state.chain[state.currentStep]) then Some(NotEligible)
    else if exists v :: v in state.votes && v.step == state.currentStep && v.voter.id == actor.id
    then Some(AlreadyDecided)
    else None
  }

  datatype ChainOutcome = ChainOutcome(
    status: RoundStatus, decidedStep: nat, currentStep: nat,
    stepCompleted: bool, approvals: nat, required: nat)

  datatype ChainTransition = Decided(outcome: ChainOutcome) | Rejected(reason: Rejection)

  function NextStateAfterDecision(state: ChainState, actor: Actor, decision: Decision): ChainTransition {
    var rejection := ChainRejection(state, actor);
    if rejection.Some? then Rejected(rejection.value)
    else
      var decidedStep := state.currentStep;
      var required := state.chain[decidedStep].minApprovals;
      if decision == RequestChanges then
        Decided(ChainOutcome(ChangesRequested, decidedStep, decidedStep, false,
                        CountApprovals(state.votes, decidedStep), required))
      else
        var approvals := CountApprovals(state.votes, decidedStep) + 1;
        var stepCompleted := approvals >= required;
        var isLastStep := decidedStep == |state.chain| - 1;
        Decided(ChainOutcome(
                  if stepCompleted && isLastStep then Approved else Pending,
                  decidedStep,
                  if stepCompleted && !isLastStep then decidedStep + 1 else decidedStep,
                  stepCompleted, approvals, required))
  }

  /** What a decision leaves stored on its round; a rejected decision stores nothing. */
  function Record(state: ChainState, actor: Actor, decision: Decision): ChainState {
    match NextStateAfterDecision(state, actor, decision)
    case Rejected(_) => state
    case Decided(outcome) =>
      state.(status := outcome.status, currentStep := outcome.currentStep,
             votes := state.votes + [Vote(outcome.decidedStep, actor, decision)])
  }

  /** A fresh round on a snapshot of the chain (openApprovalRound). */
  function Fresh(chain: Chain): ChainState {
    ChainState(chain, Pending, 0, [])
  }

  /** cancelOpenRounds on one round: an open or approved round is superseded, any other stays. */
  function Superseded(state: ChainState): ChainState {
    if state.status == Pending || state.status == Approved then state.(status := Cancelled) else state
  }

  datatype Cast = Cast(actor: Actor, decision: Decision)

  function Walk(state: ChainState, casts: seq<Cast>): ChainState
    decreases |casts|
  {
    if casts == [] then state
    else Walk(Record(state, casts[0].actor, casts[0].decision), casts[1..])
  }

  // ---------------------------------------------------------------- what every round keeps

  /** The part of the stored chain's schema the walk relies on. */
  predicate WellFormed(chain: Chain) {
    |chain| > 0 && forall k :: 0 <= k < |chain| ==> chain[k].minApprovals >= 1
  }

  function SumMin(chain: Chain, steps: nat): nat
    requires steps <= |chain|
  {
    if steps == 0 then 0 else SumMin(chain, steps - 1) + chain[steps - 1].minApprovals
  }

  ghost predicate OneVotePerStep(votes: seq<Vote>) {
    forall i, j :: 0 <= i < j < |votes| && votes[i].step == votes[j].step
                   ==> votes[i].voter.id != votes[j].voter.id
  }

  ghost predicate AllApprove(votes: seq<Vote>) {
    forall i :: 0 <= i < |votes| ==> votes[i].decision == Approve
  }

  ghost predicate EligibleVotes(state: ChainState) {
    forall i :: 0 <= i < |state.votes| ==>
                  state.votes[i].step < |state.chain|
                  && IsStepApprover(state.votes[i].voter, state.chain[state.votes[i].step])
  }

  ghost predicate InOrder(state: ChainState) {
    && WellFormed(state.chain)
    && state.currentStep < |state.chain|
    && OneVotePerStep(state.votes)
    && EligibleVotes(state)
    && (forall i :: 0 <= i < |state.votes| ==> state.votes[i].step <= state.currentStep)
    && (forall k: nat :: k < state.currentStep ==>
                           CountApprovals(state.votes, k) == state.chain[k].minApprovals)
  }

  ghost predicate StatusFits(state: ChainState)
    requires state.currentStep < |state.chain|
  {
    var here := CountApprovals(state.votes, state.currentStep);
    var required := state.chain[state.currentStep].minApprovals;
    var total := SumMin(state.chain, state.currentStep) + here;
    var last := state.currentStep == |state.chain| - 1;
    match state.status
    case Pending => AllApprove(state.votes) && |state.votes| == total && here < required
    case Approved => AllApprove(state.votes) && |state.votes| == total && here == required && last
    case Cancelled =>
      AllApprove(state.votes) && |state.votes| == total && (here < required || (here == required && last))
    case ChangesRequested =>
      && |state.votes| == total + 1 && here < required
      && AllApprove(state.votes[..|state.votes| - 1])
      && state.votes[|state.votes| - 1].decision == RequestChanges
  }

  /** Steps are taken in order, each with exactly its minimum of votes by different eligible people. */
  ghost predicate Collected(state: ChainState) {
    InOrder(state) && StatusFits(state)
  }

  /** A whole chain's worth of approvals, whatever became of the round afterwards. */
  ghost predicate FullyApproved(state: ChainState) {
    && AllApprove(state.votes)
    && OneVotePerStep(state.votes)
    && EligibleVotes(state)
    && (forall k: nat :: k < |state.chain| ==>
                           CountApprovals(state.votes, k) == state.chain[k].minApprovals)
    && |state.votes| == SumMin(state.chain, |state.chain|)
  }

  lemma FreshIsCollected(chain: Chain)
    requires WellFormed(chain)
    ensures Collected(Fresh(chain))
  {
    assert Approvers([], 0) == {};
  }

  lemma ApproversAfter(votes: seq<Vote>, vote: Vote, k: nat)
    ensures Approvers(votes + [vote], k)
         == Approvers(votes, k)
            + (if vote.step == k && vote.decision == Approve then {vote.voter.id} else {})
  {
    var more := votes + [vote];
    forall id | id in Approvers(votes, k) ensures id in Approvers(more, k) {
      var v :| v in votes && v.step == k && v.decision == Approve && v.voter.id == id;
      assert v in more;
    }
    if vote.step == k && vote.decision == Approve {
      assert vote in more;
    }
  }

  lemma DecisionKeepsCounts(state: ChainState, actor: Actor, decision: Decision)
    requires InOrder(state) && ChainRejection(state, actor).None?
    requires CountApprovals(state.votes, state.currentStep) < state.chain[state.currentStep].minApprovals
    ensures var after := Record(state, actor, decision);
            forall k: nat :: k < after.currentStep ==>
                               CountApprovals(after.votes, k) == state.chain[k].minApprovals
  {
    var vote := Vote(state.currentStep, actor, decision);
    var after := Record(state, actor, decision);
    assert after.votes == state.votes + [vote];
    assert actor.id !in Approvers(state.votes, state.currentStep);
    forall k: nat | k < after.currentStep
      ensures CountApprovals(after.votes, k) == state.chain[k].minApprovals
    {
      ApproversAfter(state.votes, vote, k);
    }
  }

  lemma DecisionKeepsVotes(state: ChainState, actor: Actor, decision: Decision)
    requires InOrder(state) && ChainRejection(state, actor).None?
    ensures var votes := state.votes + [Vote(state.currentStep, actor, decision)];
            OneVotePerStep(votes) && EligibleVotes(state.(votes := votes))
  {
    var votes := state.votes + [Vote(state.currentStep, actor, decision)];
    forall i, j | 0 <= i < j < |votes| && votes[i].step == votes[j].step
      ensures votes[i].voter.id != votes[j].voter.id
    {
      assert votes[i] == state.votes[i];
      if j == |state.votes| {
        assert state.votes[i] in state.votes;
      }
    }
  }

  lemma DecisionKeepsOrder(state: ChainState, actor: Actor, decision: Decision)
    requires InOrder(state) && ChainRejection(state, actor).None?
    requires CountApprovals(state.votes, state.currentStep) < state.chain[state.currentStep].minApprovals
    ensures InOrder(Record(state, actor, decision))
  {
    DecisionKeepsCounts(state, actor, decision);
    DecisionKeepsVotes(state, actor, decision);
  }

  lemma AnotherApproval(state: ChainState, actor: Actor)
    requires Collected(state) && ChainRejection(state, actor).None?
    ensures var votes := state.votes + [Vote(state.currentStep, actor, Approve)];
            && CountApprovals(votes, state.currentStep) == CountApprovals(state.votes, state.currentStep) + 1
            && CountApprovals(votes, state.currentStep + 1) == 0
  {
    var vote := Vote(state.currentStep, actor, Approve);
    ApproversAfter(state.votes, vote, state.currentStep);
    assert actor.id !in Approvers(state.votes, state.currentStep);
    ApproversAfter(state.votes, vote, state.currentStep + 1);
    assert Approvers(state.votes, state.currentStep + 1) == {};
  }

  lemma ApproveKeepsStatus(state: ChainState, actor: Actor)
    requires Collected(state) && ChainRejection(state, actor).None?
    ensures Record(state, actor, Approve).currentStep < |state.chain|
    ensures StatusFits(Record(state, actor, Approve))
  {
    AnotherApproval(state, actor);
    var after := Record(state, actor, Approve);
    assert after.votes == state.votes + [Vote(state.currentStep, actor, Approve)];
    if after.currentStep == state.currentStep + 1 {
      assert SumMin(state.chain, after.currentStep)
          == SumMin(state.chain, state.currentStep) + state.chain[state.currentStep].minApprovals;
    }
  }

  lemma RequestKeepsStatus(state: ChainState, actor: Actor)
    requires Collected(state) && ChainRejection(state, actor).None?
    ensures StatusFits(Record(state, actor, RequestChanges))
  {
    var vote := Vote(state.currentStep, actor, RequestChanges);
    var after := Record(state, actor, RequestChanges);
    ApproversAfter(state.votes, vote, state.currentStep);
    assert after.votes[..|after.votes| - 1] == state.votes;
  }

  lemma DecisionKeepsCollected(state: ChainState, actor: Actor, decision: Decision)
    requires Collected(state)
    ensures Collected(Record(state, actor, decision))
    ensures Record(state, actor, decision).chain == state.chain
  {
    if ChainRejection(state, actor).None? {
      DecisionKeepsOrder(state, actor, decision);
      if decision == Approve {
        ApproveKeepsStatus(state, actor);
      } else {
        RequestKeepsStatus(state, actor);
      }
    }
  }

  lemma CancelKeepsCollected(state: ChainState)
    requires Collected(state)
    ensures Collected(Superseded(state))
    ensures FullyApproved(state) ==> FullyApproved(Superseded(state))
  {
  }

  lemma ApprovedMeansFullyApproved(state: ChainState)
    requires Collected(state) && state.status == Approved
    ensures FullyApproved(state)
  {
    assert SumMin(state.chain, |state.chain|)
        == SumMin(state.chain, state.currentStep) + state.chain[state.currentStep].minApprovals;
  }

  lemma {:induction false} WalkKeepsCollected(state: ChainState, casts: seq<Cast>)
    requires Collected(state)
    ensures Collected(Walk(state, casts)) && Walk(state, casts).chain == state.chain
    decreases |casts|
  {
    if casts != [] {
      DecisionKeepsCollected(state, casts[0].actor, casts[0].decision);
      WalkKeepsCollected(Record(state, casts[0].actor, casts[0].decision), casts[1..]);
    }
  }

  /** Any sequence of decisions, by anyone, that ends APPROVED collected the whole chain: every step
      exactly its minimum, no person twice on a step, so in all the sum of the minimums. */
  lemma ApprovalNeedsWholeChain(chain: Chain, casts: seq<Cast>)
    requires WellFormed(chain)
    requires Walk(Fresh(chain), casts).status == Approved
    ensures FullyApproved(Walk(Fresh(chain), casts))
    ensures var votes := Walk(Fresh(chain), casts).votes;
      && (forall i :: 0 <= i < |votes| ==>
            && votes[i].step < |chain| && votes[i].decision == Approve
            && (votes[i].voter.role in chain[votes[i].step].approverRoles || votes[i].voter.id in chain[votes[i].step].approverUserIds))
      && (forall k :: 0 <= k < |chain| ==>
            |set i | 0 <= i < |votes| && votes[i].step == k :: votes[i].voter.id| == chain[k].minApprovals)
  {
    FreshIsCollected(chain);
    WalkKeepsCollected(Fresh(chain), casts);
    WalkKeepsChain(Fresh(chain), casts);
    var end := Walk(Fresh(chain), casts);
    ApprovedMeansFullyApproved(end);
    forall k | 0 <= k < |chain|
      ensures |set i | 0 <= i < |end.votes| && end.votes[i].step == k :: end.votes[i].voter.id| == chain[k].minApprovals
    {
      VotersOf(end.votes, k);
      assert (set i | 0 <= i < |end.votes| && end.votes[i].step == k :: end.votes[i].voter.id) == Approvers(end.votes, k);
    }
  }

  lemma {:induction false} WalkKeepsChain(state: ChainState, casts: seq<Cast>)
    ensures Walk(state, casts).chain == state.chain
    decreases |casts|
  {
    if casts != [] {
      WalkKeepsChain(Record(state, casts[0].actor, casts[0].decision), casts[1..]);
    }
  }

  // ---------------------------------------------------------------- shortfalls

  ghost predicate DistinctPeople(team: seq<Member>) {
    forall i, j :: 0 <= i < j < |team| ==> team[i].actor.id != team[j].actor.id
  }

  ghost predicate ByActive(casts: seq<Cast>, team: seq<Member>) {
    forall c :: c in casts ==> Member(c.actor, true) in team
  }

  function EligibleIds(step: ApprovalStep, team: seq<Member>): set<UserId> {
    set m | m in team && m.isActive && IsStepApprover(m.actor, step) :: m.actor.id
  }

  lemma {:induction false} EligibleCount(step: ApprovalStep, team: seq<Member>)
    requires DistinctPeople(team)
    ensures |EligibleApprovers(step, team)| == |EligibleIds(step, team)|
    decreases |team|
  {
    if team == [] {
      assert EligibleIds(step, team) == {};
    } else {
      var m, rest := team[0], team[1..];
      assert team == [m] + rest;
      EligibleCount(step, rest);
      if m.isActive && IsStepApprover(m.actor, step) {
        assert m.actor.id !in EligibleIds(step, rest);
        assert EligibleIds(step, team) == EligibleIds(step, rest) + {m.actor.id};
      } else {
        assert EligibleIds(step, team) == EligibleIds(step, rest);
      }
    }
  }

  lemma {:induction false} ShortfallsFrom(chain: Chain, team: seq<Member>, from: nat)
    requires from <= |chain|
    ensures ChainShortfalls(chain, team, from) == []
       <==> forall k :: from <= k < |chain| ==>
                          |EligibleApprovers(chain[k], team)| >= chain[k].minApprovals
    decreases |chain| - from
  {
    hide EligibleApprovers;
    if from < |chain| {
      ShortfallsFrom(chain, team, from + 1);
    }
  }

  /** Someone on the team may still decide the current step. */
  lemma SomeoneMayDecide(state: ChainState, team: seq<Member>) returns (m: Member)
    requires Collected(state) && state.status == Pending
    requires DistinctPeople(team) && ChainShortfalls(state.chain, team) == []
    ensures m in team && m.isActive && ChainRejection(state, m.actor).None?
  {
    var step := state.chain[state.currentStep];
    var asked := Approvers(state.votes, state.currentStep);
    ShortfallsFrom(state.chain, team, 0);
    EligibleCount(step, team);
    if EligibleIds(step, team) <= asked {
      SubsetIsSmaller(EligibleIds(step, team), asked);
      assert false;
    }
    var id :| id in EligibleIds(step, team) && id !in asked;
    m :| m in team && m.isActive && IsStepApprover(m.actor, step) && m.actor.id == id;
  }

  function Outstanding(state: ChainState): int
    requires state.currentStep < |state.chain|
  {
    SumMin(state.chain, |state.chain|) - |state.votes|
  }

  lemma {:induction false} SumMinGrows(chain: Chain, a: nat, b: nat)
    requires a <= b <= |chain|
    ensures SumMin(chain, a) <= SumMin(chain, b)
    decreases b
  {
    if a < b {
      SumMinGrows(chain, a, b - 1);
    }
  }

  lemma ApprovalMakesProgress(state: ChainState, actor: Actor)
    requires Collected(state) && ChainRejection(state, actor).None?
    ensures var next := Record(state, actor, Approve);
            && Collected(next) && next.chain == state.chain
            && (next.status == Approved || (next.status == Pending && 0 <= Outstanding(next) < Outstanding(state)))
  {
    hide EligibleVotes, OneVotePerStep;
    DecisionKeepsCollected(state, actor, Approve);
    var next := Record(state, actor, Approve);
    SumMinGrows(next.chain, next.currentStep + 1, |next.chain|);
  }

  /** However a pending round got where it is, a team without shortfalls can still approve it. */
  lemma {:induction false} ApprovalStaysReachable(state: ChainState, team: seq<Member>)
    returns (casts: seq<Cast>)
    requires Collected(state) && state.status == Pending
    requires DistinctPeople(team) && ChainShortfalls(state.chain, team) == []
    ensures ByActive(casts, team) && Walk(state, casts).status == Approved
    decreases Outstanding(state)
  {
    hide StatusFits, EligibleVotes, OneVotePerStep, ChainShortfalls, Record;
    var m := SomeoneMayDecide(state, team);
    var cast := Cast(m.actor, Approve);
    var next := Record(state, m.actor, Approve);
    ApprovalMakesProgress(state, m.actor);
    assert m == Member(m.actor, true);
    if next.status == Approved {
      casts := [cast];
      assert Walk(next, []) == next;
    } else {
      var more := ApprovalStaysReachable(next, team);
      casts := [cast] + more;
      assert casts[1..] == more;
    }
  }

  lemma SubsetIsSmaller<T>(a: set<T>, b: set<T>)
    requires a <= b
    ensures |a| <= |b|
  {
    assert b == a + (b - a);
  }

  ghost predicate VotersAreActive(state: ChainState, team: seq<Member>) {
    forall i :: 0 <= i < |state.votes| ==> Member(state.votes[i].voter, true) in team
  }

  lemma {:induction false} WalkKeepsVoters(state: ChainState, casts: seq<Cast>, team: seq<Member>)
    requires ByActive(casts, team) && VotersAreActive(state, team)
    ensures VotersAreActive(Walk(state, casts), team)
    decreases |casts|
  {
    if casts != [] {
      assert casts[0] in casts;
      WalkKeepsVoters(Record(state, casts[0].actor, casts[0].decision), casts[1..], team);
    }
  }

  /** chainShortfalls is empty exactly when the team can take a fresh request to APPROVED. */
  lemma ShortfallsAreExact(chain: Chain, team: seq<Member>)
    requires WellFormed(chain) && DistinctPeople(team)
    ensures ChainShortfalls(chain, team) == []
       <==> exists casts :: ByActive(casts, team) && Walk(Fresh(chain), casts).status == Approved
  {
    FreshIsCollected(chain);
    ShortfallsFrom(chain, team, 0);
    if ChainShortfalls(chain, team) == [] {
      var casts := ApprovalStaysReachable(Fresh(chain), team);
    }
    if casts :| ByActive(casts, team) && Walk(Fresh(chain), casts).status == Approved {
      var end := Walk(Fresh(chain), casts);
      ApprovalNeedsWholeChain(chain, casts);
      WalkKeepsCollected(Fresh(chain), casts);
      WalkKeepsVoters(Fresh(chain), casts, team);
      forall k | 0 <= k < |chain|
        ensures |EligibleApprovers(chain[k], team)| >= chain[k].minApprovals
      {
        EligibleCount(chain[k], team);
        forall id | id in Approvers(end.votes, k) ensures id in EligibleIds(chain[k], team) {
          var v :| v in end.votes && v.step == k && v.decision == Approve && v.voter.id == id;
          assert Member(v.voter, true) in team;
        }
        SubsetIsSmaller(Approvers(end.votes, k), EligibleIds(chain[k], team));
      }
    }
  }

  // ---------------------------------------------------------------- who may decide, and what a decision does

  /** An actor's decision is refused for the first of four reasons, and for no other. */
  lemma MayDecideExactly(state: ChainState, actor: Actor)
    ensures ChainRejection(state, actor) == Some(NotPending) <==> state.status != Pending
    ensures state.status == Pending ==>
      (ChainRejection(state, actor) == Some(InvalidStep) <==> state.currentStep >= |state.chain|)
    ensures state.status == Pending && state.currentStep < |state.chain| ==>
      var step := state.chain[state.currentStep];
      var named := actor.role in step.approverRoles || actor.id in step.approverUserIds;
      var voted := exists i :: 0 <= i < |state.votes| && state.votes[i].step == state.currentStep && state.votes[i].voter.id == actor.id;
      && (ChainRejection(state, actor) == Some(NotEligible) <==> !named)
      && (ChainRejection(state, actor) == Some(AlreadyDecided) <==> named && voted)
      && (ChainRejection(state, actor) == None <==> named && !voted)
  {
    if exists v :: v in state.votes && v.step == state.currentStep && v.voter.id == actor.id {
      var v :| v in state.votes && v.step == state.currentStep && v.voter.id == actor.id;
      var i :| 0 <= i < |state.votes| && state.votes[i] == v;
    }
  }

  /** The people counted for a step are the active ones its roles or its names include, each once. */
  lemma {:induction false} EligibleAreTheActiveApprovers(step: ApprovalStep, team: seq<Member>)
    requires DistinctPeople(team)
    ensures var eligible := EligibleApprovers(step, team);
      && (forall m :: m in eligible <==>
            m in team && m.isActive && (m.actor.role in step.approverRoles || m.actor.id in step.approverUserIds))
      && |eligible| == |set m | m in eligible :: m.actor.id|
  {
    EligibleHas(step, team);
    EligibleCount(step, team);
    var eligible := EligibleApprovers(step, team);
    assert (set m | m in eligible :: m.actor.id) == EligibleIds(step, team);
  }

  lemma {:induction false} EligibleHas(step: ApprovalStep, team: seq<Member>)
    ensures forall m :: m in EligibleApprovers(step, team) <==>
      m in team && m.isActive && (m.actor.role in step.approverRoles || m.actor.id in step.approverUserIds)
    decreases |team|
  {
    if team != [] {
      EligibleHas(step, team[1..]);
      assert team == [team[0]] + team[1..];
    }
  }

  lemma EligibleByFields(step: ApprovalStep, team: seq<Member>)
    ensures EligibleIds(step, team)
         == set m | m in team && m.isActive && (m.actor.role in step.approverRoles || m.actor.id in step.approverUserIds) :: m.actor.id
  {}

  /** The shortfalls are the steps with fewer such people than they need, each with both numbers, in order. */
  lemma {:induction false} ShortfallsNameTheSteps(chain: Chain, team: seq<Member>, from: nat)
    requires from <= |chain| && DistinctPeople(team)
    ensures forall f :: f in ChainShortfalls(chain, team, from) <==>
      && from <= f.step < |chain| && f.name == chain[f.step].name && f.required == chain[f.step].minApprovals
      && f.eligible == |set m | m in team && m.isActive
           && (m.actor.role in chain[f.step].approverRoles || m.actor.id in chain[f.step].approverUserIds) :: m.actor.id|
      && f.eligible < f.required
    ensures forall i, j :: 0 <= i < j < |ChainShortfalls(chain, team, from)| ==>
      ChainShortfalls(chain, team, from)[i].step < ChainShortfalls(chain, team, from)[j].step
    decreases |chain| - from
  {
    if from < |chain| {
      EligibleCount(chain[from], team);
      EligibleByFields(chain[from], team);
      ShortfallsNameTheSteps(chain, team, from + 1);
      var rest := ChainShortfalls(chain, team, from + 1);
      forall i | 0 <= i < |rest| ensures rest[i].step > from {
        assert rest[i] in rest;
      }
    }
  }

  /** What an accepted decision leaves: one more vote on the step, and a step done once enough different
      people approved it. A refused one leaves everything. */
  lemma DecisionMoves(state: ChainState, actor: Actor, decision: Decision)
    requires OneVotePerStep(state.votes)
    ensures ChainRejection(state, actor).Some? ==> Record(state, actor, decision) == state
    ensures ChainRejection(state, actor).None? ==>
      var after, here := Record(state, actor, decision), state.currentStep;
      var approved := |set i | 0 <= i < |after.votes| && after.votes[i].step == here && after.votes[i].decision == Approve :: after.votes[i].voter.id|;
      var enough, last := approved >= state.chain[here].minApprovals, here == |state.chain| - 1;
      && after.chain == state.chain && after.votes == state.votes + [Vote(here, actor, decision)]
      && (decision == RequestChanges ==> after.status == ChangesRequested && after.currentStep == here)
      && (decision == Approve ==>
            && (after.status == Approved <==> enough && last) && (after.status == Pending <==> !(enough && last))
            && after.currentStep == if enough && !last then here + 1 else here)
  {
    if ChainRejection(state, actor).None? {
      var after, here := Record(state, actor, decision), state.currentStep;
      ApproversAfter(state.votes, Vote(here, actor, decision), here);
      VotersOf(after.votes, here);
    }
  }

  lemma VotersOf(votes: seq<Vote>, step: nat)
    ensures Approvers(votes, step)
         == set i | 0 <= i < |votes| && votes[i].step == step && votes[i].decision == Approve :: votes[i].voter.id
  {
    forall v | v in votes ensures exists i :: 0 <= i < |votes| && votes[i] == v {}
  }
}
