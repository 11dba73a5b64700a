/**
 When each operation is due: an account of scripts/release-driver.ts, `nextStep`, lines 169-279, by operation
 instead of by phase. Planning is held to it exactly, for every operation but a hold or a stop.
 */
module PlanGuards {
  import opened Wrappers
  import opened Versions
  import opened ReleasePolicy
  import opened ReleaseDriver

  /** Main's baseline against the requested one; None where a version does not parse. */
  function Baseline(s: DriverState, repo: Snapshot): Option<int> {
    match (ParseVersion(repo.upstreamTag), RequestVersion(s.issue))
    case (Some(upstream), Some(wanted)) => Some(Compare(upstream, wanted))
    case _ => None
  }

  /** The order is open, in scope, checked, first seen as a draft, and neither held nor overtaken by main. */
  predicate OrderReadyToLand(s: DriverState, repo: Snapshot) {
    && !s.phase.Held? && Baseline(s, repo).Some? && Baseline(s, repo).value < 0
    && repo.order.Some? && Landable(s, repo.order.value)
  }

  predicate Landable(s: DriverState, pr: PullRequest) {
    && IsOrder(pr) && pr.open && !OutsideOrderScope(pr) && pr.checksPassed
    && (pr.draft || s.orderPr == Some(pr.number))
  }

  /** The driver's own pull request of a phase is as it was opened; a prepare change is based on the selected main. */
  predicate ReleasePrStands(s: DriverState, pr: Option<PullRequest>, repo: Snapshot, c: Config) {
    !Refused(pr, c) && (s.phase.PrepareOpen? ==> pr.value.merged || repo.main == s.selectedMain)
  }

  predicate Mergeable(pr: PullRequest) { pr.merged || (!pr.behind && pr.checksPassed) }

  function ReleasePr(s: DriverState, repo: Snapshot): Option<PullRequest> {
    if s.phase.PrepareOpen? then repo.prepare else repo.record
  }

  predicate UpdateDue(s: DriverState, repo: Snapshot, c: Config) {
    && ReleasePrStands(s, ReleasePr(s, repo), repo, c)
    && var pr := ReleasePr(s, repo).value; !pr.merged && pr.behind && pr.checksPassed && s.updatedHead != Some(pr.head)
  }

  predicate MergeDue(s: DriverState, repo: Snapshot, c: Config) {
    ReleasePrStands(s, ReleasePr(s, repo), repo, c) && Mergeable(ReleasePr(s, repo).value)
  }

  predicate ChecksDue(s: DriverState, repo: Snapshot, c: Config) {
    if s.phase.ApproveOpen? then
      !Refused(repo.approve, c) && !repo.approve.value.merged && RoutineSourceHold(repo.authority, s.authorityPolicy).None?
      && !Missing(s.authorityPolicy)
    else
      repo.approveChecks == Some(Absent) && SubjectMatches(s, repo.approve)
      && (if repo.authority.Some? then Some(repo.authority.value.policy) else None) == s.authorityPolicy
  }

  predicate RetryDue(s: DriverState, repo: Snapshot) {
    && s.stableCommit.None? && !repo.hostRecoveryRequired && Some(repo.main) != s.failedMain
    && RetryRequest(s, repo.issues).Some? && RetryRequest(s, repo.issues).value.request != s.issue.request
  }

  /** The operations of a release that has a state, no saved intent and no hold. */
  predicate Due(s: DriverState, repo: Snapshot, c: Config, operation: Operation) {
    match operation
    case Select => s.phase.Closed? && SelectRequest(repo.issues).Some? && ParseVersion(repo.latestStable).Some?
    case Rerequest => s.phase.DiagnosticRequired? && RetryDue(s, repo)
    case UpdateOrder =>
      && IsOrderPhase(s.phase) && OrderReadyToLand(s, repo) && repo.order.value.behind
      && s.updatedHead != Some(repo.order.value.head)
    case ReadyOrder => IsOrderPhase(s.phase) && OrderReadyToLand(s, repo) && !repo.order.value.behind && repo.order.value.draft
    case MergeOrder => IsOrderPhase(s.phase) && OrderReadyToLand(s, repo) && !repo.order.value.behind && !repo.order.value.draft
    case OpenPrepare => IsOrderPhase(s.phase) && Baseline(s, repo) == Some(0)
    case UpdateReleasePr => (s.phase.PrepareOpen? || s.phase.RecordOpen?) && UpdateDue(s, repo, c)
    case MergePrepare => s.phase.PrepareOpen? && MergeDue(s, repo, c)
    case MergeRecord => s.phase.RecordOpen? && MergeDue(s, repo, c)
    case TagCandidate => s.phase.Prepared?
    case ObserveCandidate => s.phase.CandidateTagged? && repo.candidateWorkflow == Some(Passed)
    case VerifyCandidate => s.phase.CandidatePublished?
    case StartCampaign => s.phase.CandidateVerified?
    case FinishCampaign => s.phase.Qualifying? && repo.campaign == Some(Passed)
    case OpenApprove => s.phase.Qualified?
    case StartApproveChecks => (s.phase.ApproveOpen? || s.phase.ApproveChecking?) && ChecksDue(s, repo, c)
    case FinishApproveChecks =>
      && s.phase.ApproveChecking? && repo.approveChecks == Some(Passed) && !Refused(repo.approve, c)
      && SubjectMatches(s, repo.approve)
    case MergeApprove => s.phase.ApprovalRequired? && PromotionHold(s, repo, c, false).None? && !repo.approve.value.merged
    case AcceptApproval => s.phase.ApprovalRequired? && PromotionHold(s, repo, c, false).None? && repo.approve.value.merged
    case TagStable => s.phase.Approved? && PromotionHold(s, repo, c, true).None?
    case ObserveStable => s.phase.StableTagged? && repo.stableWorkflow == Some(Passed)
    case VerifyStable => s.phase.StablePublished?
    case StartSmoke => s.phase.StableVerified?
    case FinishSmoke => s.phase.Smoking? && repo.smoke == Some(Passed)
    case OpenRecord => s.phase.Smoked?
    case Close => s.phase.Recorded?
    case Hold | Stop => false
  }

  /** A plan is to carry out this operation. */
  predicate Plans(plan: Plan, operation: Operation) { plan.Act? && plan.step.operation == operation }

  /** The pull request an operation is pinned to. */
  predicate Pinned(s: DriverState, repo: Snapshot, step: Decision) {
    match step.operation
    case UpdateOrder | ReadyOrder | MergeOrder => step.pr == repo.order
    case UpdateReleasePr | MergePrepare | MergeRecord => step.pr == ReleasePr(s, repo)
    case StartApproveChecks | MergeApprove => step.pr == repo.approve
    case _ => step.pr.None?
  }

  lemma OrderExact(s: DriverState, repo: Snapshot, c: Config, operation: Operation)
    requires IsOrderPhase(s.phase) && !operation.Hold?
    ensures Plans(OrderStep(s, repo), operation) <==> Due(s, repo, c, operation)
    ensures OrderStep(s, repo).Act? ==> Pinned(s, repo, OrderStep(s, repo).step)
  {
    hide Compare, ParseVersion, RequestVersion, IsOrder, OutsideOrderScope;
  }

  lemma ReleasePrExact(s: DriverState, repo: Snapshot, c: Config, operation: Operation)
    requires (s.phase.PrepareOpen? || s.phase.RecordOpen?) && !operation.Hold? && !operation.Stop?
    ensures Plans(ReleasePrStep(s, repo, c), operation) <==> Due(s, repo, c, operation)
    ensures ReleasePrStep(s, repo, c).Act? ==> Pinned(s, repo, ReleasePrStep(s, repo, c).step)
  {
    hide Baseline, RetryRequest, PromotionHold, RoutineSourceHold;
  }

  lemma JobExact(s: DriverState, repo: Snapshot, c: Config, operation: Operation)
    requires (s.phase.Qualifying? || s.phase.ApproveChecking? || s.phase.Smoking?) && !operation.Hold? && !operation.Stop?
    ensures Plans(JobStep(s, repo, c), operation) <==> Due(s, repo, c, operation)
    ensures JobStep(s, repo, c).Act? ==> Pinned(s, repo, JobStep(s, repo, c).step)
  {
    hide Baseline, RetryRequest, PromotionHold, RoutineSourceHold;
  }

  lemma PromotionExact(s: DriverState, repo: Snapshot, c: Config, operation: Operation)
    requires (s.phase.ApprovalRequired? || s.phase.Approved?) && !operation.Hold?
    ensures Plans(PromotionStep(s, repo, c), operation) <==> Due(s, repo, c, operation)
    ensures PromotionStep(s, repo, c).Act? ==> Pinned(s, repo, PromotionStep(s, repo, c).step)
  {
    ReleaseHoldExact(PromotionSubject(s), repo.authority, repo.evidence, repo.approve, c.bot, REPOSITORY, ApproveBranch(s),
                     s.phase.Approved?);
    hide Baseline, RetryRequest, RoutineReleaseHold, Authorized, ApproveBranch;
  }

  lemma OtherExact(s: DriverState, repo: Snapshot, c: Config, operation: Operation)
    requires s.phase in {Closed, DiagnosticRequired, CandidateTagged, StableTagged, ApproveOpen}
    requires !operation.Hold? && !operation.Stop?
    ensures Plans(PhaseStep(s, repo, c), operation) <==> Due(s, repo, c, operation)
    ensures PhaseStep(s, repo, c).Act? ==> Pinned(s, repo, PhaseStep(s, repo, c).step)
  {
    hide Baseline, RetryRequest, RoutineSourceHold, SelectRequest, NextCandidate, ParseVersion, PrintVersion, PromotionHold;
  }

  lemma StraightExact(s: DriverState, repo: Snapshot, c: Config, operation: Operation)
    requires PhaseStep(s, repo, c) == StraightStep(s.phase) && !operation.Hold? && !operation.Stop?
    requires s.phase in {Prepared, CandidatePublished, CandidateVerified, Qualified, StablePublished, StableVerified, Smoked,
                         Recorded, Stopped}
    ensures Plans(StraightStep(s.phase), operation) <==> Due(s, repo, c, operation)
    ensures StraightStep(s.phase).Act? ==> Pinned(s, repo, StraightStep(s.phase).step)
  {
    hide Baseline, OrderReadyToLand, RetryDue, UpdateDue, MergeDue, ChecksDue, PromotionHold, PhaseStep;
  }

  /**
   Planning is exact: of a release with a state, no saved intent, no hold and no authority failure, an operation other
   than a hold or a stop is planned if and only if it is due, and it is pinned to the pull request it was judged by.
   */
  lemma PlanIsExact(s: DriverState, repo: Snapshot, c: Config, operation: Operation)
    requires s.intent.None? && s.holdReason.None? && repo.authorityFailure.None? && !operation.Hold? && !operation.Stop?
    ensures Plans(NextStep(Some(s), repo, c), operation) <==> Due(s, repo, c, operation)
    ensures NextStep(Some(s), repo, c).Act? ==> Pinned(s, repo, NextStep(Some(s), repo, c).step)
  {
    hide Due, Pinned, OrderStep, ReleasePrStep, JobStep, PromotionStep, StraightStep, SelectStep, DiagnosticStep, WorkflowStep,
         ApproveOpenStep;
    match s.phase
    case Selected | OrderUpdated | OrderReady | OrderLanded | Held => OrderExact(s, repo, c, operation);
    case PrepareOpen | RecordOpen => ReleasePrExact(s, repo, c, operation);
    case Qualifying | ApproveChecking | Smoking => JobExact(s, repo, c, operation);
    case ApprovalRequired | Approved => PromotionExact(s, repo, c, operation);
    case Closed | DiagnosticRequired | CandidateTagged | StableTagged | ApproveOpen => OtherExact(s, repo, c, operation);
    case _ => StraightExact(s, repo, c, operation);
  }
}
