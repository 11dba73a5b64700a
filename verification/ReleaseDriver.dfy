/**
 The release driver's planning and its guarded effects: scripts/release-driver.ts, `nextStep` and the
 transition `tick` commits, and scripts/release-driver-runtime.ts, the guards of `perform` and `merge`.

 Comment wording, links and the date are not modelled. A progress comment is identified by the fields
 its SHA-256 marker is computed from, which the hash is taken to keep apart.
 */
module ReleaseDriver {
  import opened Wrappers
  import opened Versions
  import opened ReleasePolicy

  datatype Phase =
    | Selected | OrderUpdated | OrderReady | OrderLanded | Held | PrepareOpen | Prepared | CandidateTagged
    | CandidatePublished | CandidateVerified | Qualifying | Qualified | ApproveOpen | ApproveChecking
    | ApprovalRequired | Approved | StableTagged | StablePublished | StableVerified | Smoking | Smoked
    | RecordOpen | Recorded | Closed | DiagnosticRequired | Stopped

  datatype Operation =
    | Select | Hold | Stop | UpdateOrder | UpdateReleasePr | ReadyOrder | MergeOrder | OpenPrepare | MergePrepare
    | TagCandidate | ObserveCandidate | VerifyCandidate | StartCampaign | FinishCampaign | OpenApprove
    | StartApproveChecks | FinishApproveChecks | MergeApprove | AcceptApproval | TagStable | ObserveStable
    | VerifyStable | StartSmoke | FinishSmoke | OpenRecord | MergeRecord | Close | Rerequest

  /** The shapes of `Decision.patch` and of the partial state that `perform` returns. */
  datatype Patch =
    | NoPatch
    | SelectPatch(request: Issue, release: string, firstCandidate: string, main: string, previous: string)
    | RerequestPatch(request: Issue, nextCandidate: string, main: string)
    | HoldPatch(reason: HoldReason, commit: Option<string>)
    | FailedMainPatch(main: string)
    | SelectedMainPatch(main: string)
    | UpdatedHeadPatch(head: string)
    | OrderPrPatch(pr: nat)
    | SubjectPatch(head: string, tree: string, policy: Option<string>)
    | StableCommitPatch(stableCommit: Option<string>)
    | PreparePrPatch(pr: nat, authorityPolicy: string)
    | CandidateCommitPatch(candidateCommit: Option<string>)
    | CandidateDigestPatch(digest: string)
    | ApprovePrPatch(pr: nat)
    | StableDigestPatch(digest: string)
    | RecordPrPatch(pr: nat)

  datatype Decision = Decision(
    operation: Operation, phase: Phase, pr: Option<PullRequest>, patch: Patch, holdReason: Option<HoldReason>)

  datatype Marker = Marker(issue: nat, request: string, candidate: string, sequence: nat, phase: Phase)

  datatype DriverState = DriverState(
    sequence: nat, phase: Phase, issue: Issue, version: string, candidate: string, selectedMain: string,
    previousStable: string, preparePr: Option<nat>, orderPr: Option<nat>, candidateCommit: Option<string>,
    candidateDigest: Option<string>, approvePr: Option<nat>, approvedHead: Option<string>,
    approvedTree: Option<string>, authorityPolicy: Option<string>, holdReason: Option<HoldReason>,
    holdCommit: Option<string>, stableCommit: Option<string>, stableDigest: Option<string>,
    recordPr: Option<nat>, failedMain: Option<string>, updatedHead: Option<string>,
    intent: Option<Decision>, announcement: Option<Marker>)

  datatype Job = Absent | Running | Passed | Failed

  datatype Snapshot = Snapshot(
    main: string, upstreamTag: string, latestStable: string, tags: seq<string>, issues: seq<Issue>,
    order: Option<PullRequest>, prepare: Option<PullRequest>, approve: Option<PullRequest>,
    record: Option<PullRequest>, candidateWorkflow: Option<Job>, stableWorkflow: Option<Job>,
    campaign: Option<Job>, approveChecks: Option<Job>, authority: Option<Authority>,
    authorityFailure: Option<HoldReason>, evidence: Option<Evidence>, smoke: Option<Job>,
    hostRecoveryRequired: bool)

  datatype Config = Config(bot: string)

  /** What one planning call returns, or the error it throws on an unreadable version. */
  datatype Plan = Act(step: Decision) | Idle(holdReason: Option<HoldReason>) | Throws

  const REPOSITORY := "carrythroughsystems/omp-session-gateway"
  const ORDER_AUTHOR := "carrythroughsystems[bot]"
  const ORDER_HEAD_PREFIX := "carrythrough/"
  const ORDER_SCOPE := [
    "CHANGELOG.md", "UPSTREAM.lock.json", "docs/COMPATIBILITY.md", "docs/DECISIONS.md",
    "docs/OMP_INTEGRATION.md", "docs/RELEASE_STATUS.md", "scripts/windows-qualification-pins.json"]

  const WAITING := Idle(None)

  function Decide(operation: Operation, phase: Phase): Plan { Act(Decision(operation, phase, None, NoPatch, None)) }

  function DecidePatch(operation: Operation, phase: Phase, patch: Patch): Plan {
    Act(Decision(operation, phase, None, patch, None))
  }

  function DecidePr(operation: Operation, phase: Phase, pr: PullRequest, patch: Patch): Plan {
    Act(Decision(operation, phase, Some(pr), patch, None))
  }

  predicate IsOrder(pr: PullRequest) {
    pr.author == ORDER_AUTHOR && pr.authorType == "Bot" && pr.headRepository == REPOSITORY
    && ORDER_HEAD_PREFIX <= pr.headRef && pr.base == "main"
  }

  predicate OutsideOrderScope(pr: PullRequest) {
    exists path :: path in Touched(pr.files) && path !in ORDER_SCOPE
  }

  /** `refuse(...) !== undefined` */
  predicate Refused(pr: Option<PullRequest>, c: Config) {
    pr.None? || pr.value.author != c.bot || pr.value.base != "main" || pr.value.headRepository != REPOSITORY
    || (!pr.value.open && !pr.value.merged)
  }

  function HoldDecision(reason: HoldReason, sourceCommit: Option<string>): Decision {
    Decision(Hold, Held, None, HoldPatch(reason, if reason.OutOfClass? then sourceCommit else None), Some(reason))
  }

  function RoutineHold(reason: HoldReason, sourceCommit: Option<string>): Plan { Act(HoldDecision(reason, sourceCommit)) }

  function UnreviewedCommit(repo: Snapshot): Option<string> {
    if repo.authority.Some? then repo.authority.value.unreviewedCommit else None
  }

  function PromotionSubject(s: DriverState): Subject {
    Subject(s.approvedHead, s.approvedTree, s.candidate, s.candidateCommit, s.candidateDigest, s.authorityPolicy)
  }

  function ApproveBranch(s: DriverState): string {
    "release-driver/" + Print(s.issue.number) + "/" + s.candidate + "-approve"
  }

  function PromotionHold(s: DriverState, repo: Snapshot, c: Config, merged: bool): Option<HoldReason> {
    var reason := RoutineReleaseHold(PromotionSubject(s), repo.authority, repo.evidence, repo.approve, c.bot,
                                     REPOSITORY, ApproveBranch(s), merged);
    if reason.Some? then reason
    else if merged && (repo.approve.None? || repo.approve.value.mergeCommit != s.stableCommit) then Some(MergeMissing)
    else None
  }

  function SelectStep(repo: Snapshot): Plan {
    var issue := SelectRequest(repo.issues);
    if issue.None? then WAITING else
    match ParseVersion(repo.latestStable)
    case None => Throws
    case Some(latest) =>
      var version := PrintVersion(latest.(patch := latest.patch + 1));
      DecidePatch(Select, Selected,
                  SelectPatch(issue.value, version, NextCandidate(version, repo.tags), repo.main, repo.latestStable))
  }

  function RetryRequest(s: DriverState, issues: seq<Issue>): Option<Issue> {
    match FirstNumbered(s.issue.number, issues)
    case Some(issue) => Some(issue)
    case None => SelectRequest(SameVersion(RequestVersion(s.issue), issues))
  }

  function FirstNumbered(number: nat, issues: seq<Issue>): Option<Issue> {
    if issues == [] then None else if issues[0].number == number then Some(issues[0]) else FirstNumbered(number, issues[1..])
  }

  function SameVersion(version: Option<Version>, issues: seq<Issue>): seq<Issue> {
    if issues == [] then []
    else (if RequestVersion(issues[0]) == version then [issues[0]] else []) + SameVersion(version, issues[1..])
  }

  function DiagnosticStep(s: DriverState, repo: Snapshot): Plan {
    if s.stableCommit.Some? then WAITING else
    var request := RetryRequest(s, repo.issues);
    if request.None? || request.value.request == s.issue.request || Some(repo.main) == s.failedMain then WAITING
    else if repo.hostRecoveryRequired then WAITING
    else DecidePatch(Rerequest, Selected, RerequestPatch(request.value, NextCandidate(s.version, repo.tags), repo.main))
  }

  function OrderStep(s: DriverState, repo: Snapshot): Plan {
    match (ParseVersion(repo.upstreamTag), RequestVersion(s.issue))
    case (Some(upstream), Some(wanted)) => BaselineStep(s, Compare(upstream, wanted), repo)
    case _ => Throws
  }

  /** The comparison of main's baseline with the requested one decides between waiting, landing the order and preparing. */
  function BaselineStep(s: DriverState, comparison: int, repo: Snapshot): Plan {
    if comparison > 0 then (if s.phase.Held? then WAITING else Decide(Hold, Held))
    else if comparison == 0 then DecidePatch(OpenPrepare, PrepareOpen, SelectedMainPatch(repo.main))
    else if repo.order.None? || !IsOrder(repo.order.value) || !repo.order.value.open then WAITING
    else LandOrderStep(s, repo.order.value, OutsideOrderScope(repo.order.value))
  }

  /** Of an open order: hold it, wait, or take the next of the three steps that land it; a held one only waits. */
  function LandOrderStep(s: DriverState, pr: PullRequest, outside: bool): Plan {
    if outside then (if s.phase.Held? then WAITING else Decide(Hold, Held))
    else if s.phase.Held? then WAITING
    else if !pr.draft && s.orderPr != Some(pr.number) then WAITING
    else if !pr.checksPassed then WAITING
    else if pr.behind then
      (if s.updatedHead == Some(pr.head) then WAITING else DecidePr(UpdateOrder, OrderUpdated, pr, UpdatedHeadPatch(pr.head)))
    else if pr.draft then DecidePr(ReadyOrder, OrderReady, pr, OrderPrPatch(pr.number))
    else DecidePr(MergeOrder, OrderLanded, pr, NoPatch)
  }

  function ReleasePrStep(s: DriverState, repo: Snapshot, c: Config): Plan {
    var prepare := s.phase.PrepareOpen?;
    var pr := if prepare then repo.prepare else repo.record;
    if prepare && !(pr.Some? && pr.value.merged) && repo.main != s.selectedMain then RoutineHold(StaleSource, None)
    else if Refused(pr, c) then Decide(Stop, Stopped)
    else if !pr.value.merged && pr.value.behind && pr.value.checksPassed && s.updatedHead != Some(pr.value.head) then
      DecidePr(UpdateReleasePr, s.phase, pr.value, UpdatedHeadPatch(pr.value.head))
    else if !pr.value.merged && (pr.value.behind || !pr.value.checksPassed) then WAITING
    else DecidePr(if prepare then MergePrepare else MergeRecord, if prepare then Prepared else Recorded, pr.value, NoPatch)
  }

  function FailureStep(repo: Snapshot): Plan { DecidePatch(Stop, DiagnosticRequired, FailedMainPatch(repo.main)) }

  function WorkflowStep(s: DriverState, repo: Snapshot): Plan {
    var candidate := s.phase.CandidateTagged?;
    var workflow := if candidate then repo.candidateWorkflow else repo.stableWorkflow;
    if workflow == Some(Failed) then FailureStep(repo)
    else if workflow != Some(Passed) then WAITING
    else Decide(if candidate then ObserveCandidate else ObserveStable, if candidate then CandidatePublished else StablePublished)
  }

  predicate SubjectMatches(s: DriverState, pr: Option<PullRequest>) {
    pr.Some? && Some(pr.value.head) == s.approvedHead && Some(pr.value.tree) == s.approvedTree
  }

  function JobStep(s: DriverState, repo: Snapshot, c: Config): Plan {
    var job := match s.phase case Qualifying => repo.campaign case Smoking => repo.smoke case _ => repo.approveChecks;
    if s.phase.ApproveChecking? && job == Some(Absent) then
      if !SubjectMatches(s, repo.approve) then RoutineHold(HeadTreeChanged, None)
      else if (if repo.authority.Some? then Some(repo.authority.value.policy) else None) != s.authorityPolicy
      then RoutineHold(PolicyChanged, None)
      else DecidePr(StartApproveChecks, ApproveChecking, repo.approve.value, NoPatch)
    else if job == Some(Failed) || job == Some(Absent) then FailureStep(repo)
    else if job != Some(Passed) then WAITING
    else if s.phase.Qualifying? then Decide(FinishCampaign, Qualified)
    else if s.phase.Smoking? then Decide(FinishSmoke, Smoked)
    else if Refused(repo.approve, c) then RoutineHold(PrIdentityChanged, None)
    else if !SubjectMatches(s, repo.approve) then RoutineHold(HeadTreeChanged, None)
    else Decide(FinishApproveChecks, ApprovalRequired)
  }

  function ApproveOpenStep(s: DriverState, repo: Snapshot, c: Config): Plan {
    if Refused(repo.approve, c) then RoutineHold(PrIdentityChanged, None) else
    var pr := repo.approve.value;
    if pr.merged then RoutineHold(MissingEvidence, None) else
    var reason := RoutineSourceHold(repo.authority, s.authorityPolicy);
    if reason.Some? then RoutineHold(reason.value, UnreviewedCommit(repo))
    else if Missing(s.authorityPolicy) then RoutineHold(PolicyChanged, None)
    else DecidePr(StartApproveChecks, ApproveChecking, pr, SubjectPatch(pr.head, pr.tree, s.authorityPolicy))
  }

  function PromotionStep(s: DriverState, repo: Snapshot, c: Config): Plan {
    var reason := PromotionHold(s, repo, c, s.phase.Approved?);
    if reason == Some(RequiredChecksMissing) then Idle(reason)
    else if reason.Some? then RoutineHold(reason.value, UnreviewedCommit(repo))
    else if s.phase.Approved? then Decide(TagStable, StableTagged)
    else if repo.approve.None? then Throws
    else if !repo.approve.value.merged then DecidePr(MergeApprove, Approved, repo.approve.value, NoPatch)
    else DecidePatch(AcceptApproval, Approved, StableCommitPatch(repo.approve.value.mergeCommit))
  }

  /** The phases that lead on unconditionally; the operation itself does the checking. */
  function StraightStep(phase: Phase): Plan {
    match phase
    case Prepared => Decide(TagCandidate, CandidateTagged)
    case CandidatePublished => Decide(VerifyCandidate, CandidateVerified)
    case CandidateVerified => Decide(StartCampaign, Qualifying)
    case Qualified => Decide(OpenApprove, ApproveOpen)
    case StablePublished => Decide(VerifyStable, StableVerified)
    case StableVerified => Decide(StartSmoke, Smoking)
    case Smoked => Decide(OpenRecord, RecordOpen)
    case Recorded => Decide(Close, Closed)
    case _ => WAITING
  }

  /** `nextStep` once a state exists, no intent is saved, and neither an authority failure nor a hold applies. */
  function PhaseStep(s: DriverState, repo: Snapshot, c: Config): Plan {
    match s.phase
    case Closed => SelectStep(repo)
    case DiagnosticRequired => DiagnosticStep(s, repo)
    case Selected | OrderUpdated | OrderReady | OrderLanded | Held => OrderStep(s, repo)
    case PrepareOpen | RecordOpen => ReleasePrStep(s, repo, c)
    case CandidateTagged | StableTagged => WorkflowStep(s, repo)
    case Qualifying | ApproveChecking | Smoking => JobStep(s, repo, c)
    case ApproveOpen => ApproveOpenStep(s, repo, c)
    case ApprovalRequired | Approved => PromotionStep(s, repo, c)
    case _ => StraightStep(s.phase)
  }

  function NextStep(state: Option<DriverState>, repo: Snapshot, c: Config): Plan {
    if state.Some? && state.value.intent.Some? then Act(state.value.intent.value)
    else if repo.authorityFailure.Some? then RoutineHold(repo.authorityFailure.value, None)
    else if state.Some? && state.value.holdReason.Some? then WAITING
    else if state.None? then SelectStep(repo)
    else PhaseStep(state.value, repo, c)
  }

  /** `{ ...state, ...patch }`; `{ ...patch, phase }` for a selection, which starts a state of its own. */
  function ApplyPatch(s: DriverState, patch: Patch): DriverState {
    match patch
    case NoPatch => s
    case SelectPatch(request, release, candidate, main, previous) => SelectedState(request, release, candidate, main, previous)
    case RerequestPatch(request, candidate, main) =>
      s.(issue := request, selectedMain := main, candidate := candidate, preparePr := None, orderPr := None,
         updatedHead := None, candidateCommit := None, candidateDigest := None, approvePr := None,
         approvedHead := None, approvedTree := None, stableCommit := None, stableDigest := None, recordPr := None,
         failedMain := None)
    case HoldPatch(reason, commit) => s.(holdReason := Some(reason), holdCommit := commit)
    case FailedMainPatch(main) => s.(failedMain := Some(main))
    case SelectedMainPatch(main) => s.(selectedMain := main)
    case UpdatedHeadPatch(head) => s.(updatedHead := Some(head))
    case OrderPrPatch(pr) => s.(orderPr := Some(pr))
    case SubjectPatch(head, tree, policy) => s.(approvedHead := Some(head), approvedTree := Some(tree), authorityPolicy := policy)
    case StableCommitPatch(commit) => s.(stableCommit := commit)
    case PreparePrPatch(pr, policy) => s.(preparePr := Some(pr), authorityPolicy := Some(policy))
    case CandidateCommitPatch(commit) => s.(candidateCommit := commit)
    case CandidateDigestPatch(digest) => s.(candidateDigest := Some(digest))
    case ApprovePrPatch(pr) => s.(approvePr := Some(pr))
    case StableDigestPatch(digest) => s.(stableDigest := Some(digest))
    case RecordPrPatch(pr) => s.(recordPr := Some(pr))
  }

  function SelectedState(request: Issue, release: string, candidate: string, main: string, previous: string): DriverState {
    DriverState(0, Selected, request, release, candidate, main, previous, None, None, None, None, None, None, None,
                None, None, None, None, None, None, None, None, None, None)
  }

  /** Whether the approve-phase snapshot may report an authority failure at all. */
  predicate IsApprovePhase(phase: Phase) {
    match phase
    case ApproveOpen | ApproveChecking | ApprovalRequired | Approved => true
    case _ => false
  }

  predicate IsOrderPhase(phase: Phase) {
    match phase
    case Selected | OrderUpdated | OrderReady | OrderLanded | Held => true
    case _ => false
  }

  /** The phases from which a failed workflow or job can stop the release for diagnosis. */
  predicate CanFail(phase: Phase) {
    match phase
    case CandidateTagged | StableTagged | Qualifying | ApproveChecking | Smoking => true
    case _ => false
  }

  /** The transition table `nextStep` implements: which operation may be planned where, and what it carries. */
  predicate InTable(s: DriverState, step: Decision) {
    match step.operation
    case Select => s.phase.Closed? && step.phase.Selected? && step.patch.SelectPatch?
    case Hold =>
      step.phase.Held? && ((step.patch.HoldPatch? && (IsApprovePhase(s.phase) || s.phase.PrepareOpen?))
                           || (step.patch.NoPatch? && IsOrderPhase(s.phase)))
    case Stop =>
      || ((s.phase.PrepareOpen? || s.phase.RecordOpen?) && step.phase.Stopped? && step.patch.NoPatch?)
      || (CanFail(s.phase) && step.phase.DiagnosticRequired? && step.patch.FailedMainPatch?)
    case UpdateOrder => IsOrderPhase(s.phase) && step.phase.OrderUpdated? && step.patch.UpdatedHeadPatch?
    case ReadyOrder => IsOrderPhase(s.phase) && step.phase.OrderReady? && step.patch.OrderPrPatch?
    case MergeOrder => IsOrderPhase(s.phase) && step.phase.OrderLanded? && step.patch.NoPatch?
    case OpenPrepare => IsOrderPhase(s.phase) && step.phase.PrepareOpen? && step.patch.SelectedMainPatch?
    case UpdateReleasePr => (s.phase.PrepareOpen? || s.phase.RecordOpen?) && step.phase == s.phase && step.patch.UpdatedHeadPatch?
    case MergePrepare => s.phase.PrepareOpen? && step.phase.Prepared? && step.patch.NoPatch?
    case TagCandidate => s.phase.Prepared? && step.phase.CandidateTagged? && step.patch.NoPatch?
    case ObserveCandidate => s.phase.CandidateTagged? && step.phase.CandidatePublished? && step.patch.NoPatch?
    case VerifyCandidate => s.phase.CandidatePublished? && step.phase.CandidateVerified? && step.patch.NoPatch?
    case StartCampaign => s.phase.CandidateVerified? && step.phase.Qualifying? && step.patch.NoPatch?
    case FinishCampaign => s.phase.Qualifying? && step.phase.Qualified? && step.patch.NoPatch?
    case OpenApprove => s.phase.Qualified? && step.phase.ApproveOpen? && step.patch.NoPatch?
    case StartApproveChecks =>
      step.phase.ApproveChecking? && ((s.phase.ApproveOpen? && step.patch.SubjectPatch?)
                                      || (s.phase.ApproveChecking? && step.patch.NoPatch?))
    case FinishApproveChecks => s.phase.ApproveChecking? && step.phase.ApprovalRequired? && step.patch.NoPatch?
    case MergeApprove => s.phase.ApprovalRequired? && step.phase.Approved? && step.patch.NoPatch?
    case AcceptApproval =>
      s.phase.ApprovalRequired? && step.phase.Approved? && step.patch.StableCommitPatch? && step.patch.stableCommit.Some?
    case TagStable => s.phase.Approved? && step.phase.StableTagged? && step.patch.NoPatch?
    case ObserveStable => s.phase.StableTagged? && step.phase.StablePublished? && step.patch.NoPatch?
    case VerifyStable => s.phase.StablePublished? && step.phase.StableVerified? && step.patch.NoPatch?
    case StartSmoke => s.phase.StableVerified? && step.phase.Smoking? && step.patch.NoPatch?
    case FinishSmoke => s.phase.Smoking? && step.phase.Smoked? && step.patch.NoPatch?
    case OpenRecord => s.phase.Smoked? && step.phase.RecordOpen? && step.patch.NoPatch?
    case MergeRecord => s.phase.RecordOpen? && step.phase.Recorded? && step.patch.NoPatch?
    case Close => s.phase.Recorded? && step.phase.Closed? && step.patch.NoPatch?
    case Rerequest => s.phase.DiagnosticRequired? && s.stableCommit.None? && step.phase.Selected? && step.patch.RerequestPatch?
  }

  lemma LandOrderStepInTable(s: DriverState, pr: PullRequest, outside: bool)
    requires IsOrderPhase(s.phase) && LandOrderStep(s, pr, outside).Act?
    ensures InTable(s, LandOrderStep(s, pr, outside).step) && !LandOrderStep(s, pr, outside).step.operation.Rerequest?
  {}

  lemma BaselineStepInTable(s: DriverState, comparison: int, repo: Snapshot)
    requires IsOrderPhase(s.phase) && BaselineStep(s, comparison, repo).Act?
    ensures InTable(s, BaselineStep(s, comparison, repo).step) && !BaselineStep(s, comparison, repo).step.operation.Rerequest?
  {
    if repo.order.Some? && LandOrderStep(s, repo.order.value, OutsideOrderScope(repo.order.value)).Act? {
      LandOrderStepInTable(s, repo.order.value, OutsideOrderScope(repo.order.value));
    }
  }

  lemma OrderStepInTable(s: DriverState, repo: Snapshot)
    requires IsOrderPhase(s.phase) && OrderStep(s, repo).Act?
    ensures InTable(s, OrderStep(s, repo).step) && !OrderStep(s, repo).step.operation.Rerequest?
  {
    BaselineStepInTable(s, Compare(ParseVersion(repo.upstreamTag).value, RequestVersion(s.issue).value), repo);
  }

  lemma ReleasePrStepInTable(s: DriverState, repo: Snapshot, c: Config)
    requires (s.phase.PrepareOpen? || s.phase.RecordOpen?) && ReleasePrStep(s, repo, c).Act?
    ensures InTable(s, ReleasePrStep(s, repo, c).step) && !ReleasePrStep(s, repo, c).step.operation.Rerequest?
  {}

  lemma WorkflowStepInTable(s: DriverState, repo: Snapshot)
    requires (s.phase.CandidateTagged? || s.phase.StableTagged?) && WorkflowStep(s, repo).Act?
    ensures InTable(s, WorkflowStep(s, repo).step) && !WorkflowStep(s, repo).step.operation.Rerequest?
  {}

  lemma JobStepInTable(s: DriverState, repo: Snapshot, c: Config)
    requires (s.phase.Qualifying? || s.phase.ApproveChecking? || s.phase.Smoking?) && JobStep(s, repo, c).Act?
    ensures InTable(s, JobStep(s, repo, c).step) && !JobStep(s, repo, c).step.operation.Rerequest?
  {}

  lemma ApproveOpenStepInTable(s: DriverState, repo: Snapshot, c: Config)
    requires s.phase.ApproveOpen? && ApproveOpenStep(s, repo, c).Act?
    ensures InTable(s, ApproveOpenStep(s, repo, c).step) && !ApproveOpenStep(s, repo, c).step.operation.Rerequest?
  {}

  lemma PromotionStepInTable(s: DriverState, repo: Snapshot, c: Config)
    requires (s.phase.ApprovalRequired? || s.phase.Approved?) && PromotionStep(s, repo, c).Act?
    ensures InTable(s, PromotionStep(s, repo, c).step) && !PromotionStep(s, repo, c).step.operation.Rerequest?
  {
    ReleaseHoldExact(PromotionSubject(s), repo.authority, repo.evidence, repo.approve, c.bot, REPOSITORY, ApproveBranch(s),
                     s.phase.Approved?);
  }

  lemma SelectStepInTable(s: DriverState, repo: Snapshot)
    requires s.phase.Closed? && SelectStep(repo).Act?
    ensures InTable(s, SelectStep(repo).step)
  {}

  lemma DiagnosticStepInTable(s: DriverState, repo: Snapshot)
    requires s.phase.DiagnosticRequired? && DiagnosticStep(s, repo).Act?
    ensures InTable(s, DiagnosticStep(s, repo).step)
  {}

  lemma StraightStepInTable(s: DriverState)
    requires StraightStep(s.phase).Act?
    ensures InTable(s, StraightStep(s.phase).step)
  {}

  /** Every step planned for a state without a saved intent is in the table. */
  lemma PlannedStepInTable(s: DriverState, repo: Snapshot, c: Config)
    requires s.intent.None? && (repo.authorityFailure.Some? ==> IsApprovePhase(s.phase))
    requires NextStep(Some(s), repo, c).Act?
    ensures InTable(s, NextStep(Some(s), repo, c).step)
  {
    if repo.authorityFailure.None? && s.holdReason.None? {
      match s.phase
      case Selected | OrderUpdated | OrderReady | OrderLanded | Held => OrderStepInTable(s, repo);
      case PrepareOpen | RecordOpen => ReleasePrStepInTable(s, repo, c);
      case CandidateTagged | StableTagged => WorkflowStepInTable(s, repo);
      case Qualifying | ApproveChecking | Smoking => JobStepInTable(s, repo, c);
      case ApproveOpen => ApproveOpenStepInTable(s, repo, c);
      case ApprovalRequired | Approved => PromotionStepInTable(s, repo, c);
      case Closed => SelectStepInTable(s, repo);
      case DiagnosticRequired => DiagnosticStepInTable(s, repo);
      case _ => StraightStepInTable(s);
    }
  }

  /** A retry is only planned for a request and a main other than the failed ones, under a new candidate. */
  lemma RetryIsNew(s: DriverState, repo: Snapshot)
    requires DiagnosticStep(s, repo).Act?
    ensures var patch := DiagnosticStep(s, repo).step.patch;
      && patch.RerequestPatch? && patch.nextCandidate == NextCandidate(s.version, repo.tags)
      && patch.request.request != s.issue.request && patch.main == repo.main && Some(patch.main) != s.failedMain
  {}
}
