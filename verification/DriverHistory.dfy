/**
 What every run of the release driver keeps: the state file's history is a path of single, planned
 transitions, an intent is carried out unchanged, and a promotion's subject is frozen.
 */
module DriverHistory {
  import opened Wrappers
  import opened ReleasePolicy
  import opened ReleaseDriver
  import opened DriverRuns

  /** Phases before the approve checks start for this candidate. */
  predicate Early(s: DriverState) {
    match s.phase
    case Selected | OrderUpdated | OrderReady | OrderLanded | PrepareOpen | Prepared | CandidateTagged
       | CandidatePublished | CandidateVerified | Qualifying | Qualified | ApproveOpen => true
    case Held => s.holdReason.None?
    case _ => false
  }

  predicate Checking(phase: Phase) { phase.ApproveChecking? || phase.ApprovalRequired? }

  /** Phases from the merged promotion on. */
  predicate Late(phase: Phase) {
    match phase
    case Approved | StableTagged | StablePublished | StableVerified | Smoking | Smoked | RecordOpen | Recorded | Closed => true
    case _ => false
  }

  /** The state a selection saves before it performs anything. */
  predicate JustSelected(s: DriverState) {
    && s.intent.Some? && s.intent.value.operation.Select? && s.intent.value.patch.SelectPatch? && s.intent.value.phase.Selected?
    && s == WithIntent(None, s.intent.value)
  }

  /** What holds of every state file the driver writes. */
  predicate StateOk(s: DriverState) {
    && (s.approvedHead.Some? <==> s.approvedTree.Some?)
    && (Early(s) ==> s.approvedHead.None? && s.stableCommit.None?)
    && (Checking(s.phase) ==> s.approvedHead.Some? && s.stableCommit.None?)
    && (Late(s.phase) ==> s.approvedHead.Some? && s.stableCommit.Some?)
    && (s.phase.DiagnosticRequired? ==> s.failedMain.Some?)
    && (s.holdReason.Some? ==> s.phase.Held? && s.intent.None?)
    && (s.intent.Some? ==> s.announcement.None?)
    && (s.intent.Some? ==> JustSelected(s) || (InTable(s, s.intent.value) && !s.intent.value.operation.Select?))
  }

  /** The shape of the partial state an operation may return. */
  predicate ResultFits(operation: Operation, result: Patch) {
    match operation
    case OpenPrepare => result.PreparePrPatch?
    case MergePrepare => result.CandidateCommitPatch?
    case VerifyCandidate => result.CandidateDigestPatch?
    case OpenApprove => result.ApprovePrPatch?
    case MergeApprove => result.StableCommitPatch? && result.stableCommit.Some?
    case VerifyStable => result.StableDigestPatch?
    case OpenRecord => result.RecordPrPatch?
    case _ => result.NoPatch?
  }

  /** A planned step is saved as the intent and nothing else changes, unless it selects a new release. */
  predicate PlanStep(s: DriverState, t: DriverState) {
    && s.intent.None? && s.announcement.None? && s.holdReason.None? && t.intent.Some?
    && InTable(s, t.intent.value) && t == WithIntent(Some(s), t.intent.value)
  }

  ghost predicate CommitStep(s: DriverState, t: DriverState) {
    && s.intent.Some?
    && exists result :: ResultFits(s.intent.value.operation, result) && t == Commit(s, s.intent.value, result)
  }

  ghost predicate HoldStep(s: DriverState, t: DriverState) {
    s.intent.Some? && exists reason, commit :: t == Commit(s, HoldDecision(reason, commit), NoPatch)
  }

  predicate DropStep(s: DriverState, t: DriverState) { s.intent.Some? && t == s.(intent := None) }

  predicate ClearStep(s: DriverState, t: DriverState) { s.announcement.Some? && t == s.(announcement := None) }

  /** The transitions a tick that is never interrupted makes between two saves. */
  ghost predicate DurableStep(s: DriverState, t: DriverState) {
    PlanStep(s, t) || CommitStep(s, t) || HoldStep(s, t) || DropStep(s, t) || ClearStep(s, t)
  }

  // What the table leaves of a saved intent, by the shape of its patch and of what performing it returns.

  predicate PatchCase(s: DriverState, step: Decision) {
    match step.patch
    case NoPatch => true
    case SelectPatch(_, _, _, _, _) => JustSelected(s)
    case RerequestPatch(_, _, _) =>
      s.phase.DiagnosticRequired? && s.stableCommit.None? && step.phase.Selected? && step.operation.Rerequest?
    case HoldPatch(_, _) => (IsApprovePhase(s.phase) || s.phase.PrepareOpen?) && step.phase.Held?
    case FailedMainPatch(_) => CanFail(s.phase) && step.phase.DiagnosticRequired?
    case SelectedMainPatch(_) => IsOrderPhase(s.phase) && step.phase.PrepareOpen?
    case UpdatedHeadPatch(_) =>
      || (IsOrderPhase(s.phase) && step.phase.OrderUpdated?)
      || ((s.phase.PrepareOpen? || s.phase.RecordOpen?) && step.phase == s.phase)
    case OrderPrPatch(_) => IsOrderPhase(s.phase) && step.phase.OrderReady?
    case SubjectPatch(_, _, _) => s.phase.ApproveOpen? && step.phase.ApproveChecking?
    case StableCommitPatch(commit) => s.phase.ApprovalRequired? && step.phase.Approved? && commit.Some?
    case _ => false
  }

  predicate ResultCase(s: DriverState, step: Decision, result: Patch) {
    match result
    case NoPatch => true
    case PreparePrPatch(_, _) => IsOrderPhase(s.phase) && step.phase.PrepareOpen? && step.patch.SelectedMainPatch?
    case CandidateCommitPatch(_) => s.phase.PrepareOpen? && step.phase.Prepared? && step.patch.NoPatch?
    case CandidateDigestPatch(_) => s.phase.CandidatePublished? && step.phase.CandidateVerified? && step.patch.NoPatch?
    case ApprovePrPatch(_) => s.phase.Qualified? && step.phase.ApproveOpen? && step.patch.NoPatch?
    case StableCommitPatch(commit) =>
      s.phase.ApprovalRequired? && step.phase.Approved? && step.patch.NoPatch? && commit.Some?
    case StableDigestPatch(_) => s.phase.StablePublished? && step.phase.StableVerified? && step.patch.NoPatch?
    case RecordPrPatch(_) => s.phase.Smoked? && step.phase.RecordOpen? && step.patch.NoPatch?
    case _ => false
  }

  lemma IntentCases(s: DriverState, result: Patch)
    requires StateOk(s) && s.intent.Some?
    ensures PatchCase(s, s.intent.value)
    ensures ResultFits(s.intent.value.operation, result) ==> ResultCase(s, s.intent.value, result)
  {
  }

  lemma PlanStepKeepsState(s: DriverState, t: DriverState)
    requires StateOk(s) && PlanStep(s, t)
    ensures StateOk(t)
  {
    if t.intent.value.operation.Select? { assert JustSelected(t); }
  }

  lemma PlainCommitKeepsState(s: DriverState)
    requires StateOk(s) && s.intent.Some? && s.intent.value.patch.NoPatch? && !s.intent.value.operation.MergeApprove?
    ensures StateOk(Commit(s, s.intent.value, NoPatch))
  {
  }

  lemma PatchCommitKeepsState(s: DriverState)
    requires StateOk(s) && s.intent.Some? && !s.intent.value.patch.NoPatch?
    ensures StateOk(Commit(s, s.intent.value, NoPatch))
  {
    IntentCases(s, NoPatch);
    hide InTable;
  }

  lemma ResultCommitKeepsState(s: DriverState, result: Patch)
    requires StateOk(s) && s.intent.Some? && ResultFits(s.intent.value.operation, result) && !result.NoPatch?
    ensures StateOk(Commit(s, s.intent.value, result))
  {
    IntentCases(s, result);
    hide InTable, ResultFits, PatchCase;
  }

  lemma HoldKeepsState(s: DriverState, reason: HoldReason, commit: Option<string>)
    requires StateOk(s) && s.intent.Some?
    ensures StateOk(Commit(s, HoldDecision(reason, commit), NoPatch))
  {
  }

  lemma DurableStepKeepsState(s: DriverState, t: DriverState)
    requires StateOk(s) && DurableStep(s, t)
    ensures StateOk(t)
  {
    if PlanStep(s, t) {
      PlanStepKeepsState(s, t);
    } else if CommitStep(s, t) {
      var result :| ResultFits(s.intent.value.operation, result) && t == Commit(s, s.intent.value, result);
      if !result.NoPatch? {
        ResultCommitKeepsState(s, result);
      } else if s.intent.value.patch.NoPatch? {
        PlainCommitKeepsState(s);
      } else {
        PatchCommitKeepsState(s);
      }
    } else if HoldStep(s, t) {
      var reason, commit :| t == Commit(s, HoldDecision(reason, commit), NoPatch);
      HoldKeepsState(s, reason, commit);
    }
  }

  /**
   What a promotion is signed under: the merge tree, the approved tree and the evidence's tree are one
   tree, the merge commit is the state's own, and evidence, candidate and policy all match the state.
   */
  predicate PromotionMatches(s: DriverState, repo: Snapshot) {
    && repo.approve.Some? && repo.evidence.Some? && repo.authority.Some?
    && repo.approve.value.merged && repo.approve.value.mergeVerified == Some(true)
    && repo.approve.value.mergeTree == Some(repo.approve.value.tree) == Some(repo.evidence.value.tree) == s.approvedTree
    && Some(repo.approve.value.head) == Some(repo.evidence.value.head) == s.approvedHead
    && repo.approve.value.mergeCommit == s.stableCommit && s.stableCommit.Some?
    && repo.evidence.value.candidate == s.candidate
    && Some(repo.evidence.value.candidateCommit) == s.candidateCommit
    && Some(repo.evidence.value.candidateDigest) == s.candidateDigest
    && Some(repo.evidence.value.policy) == Some(repo.authority.value.policy) == s.authorityPolicy
    && SourceAuthorized(repo.authority.value, s.authorityPolicy)
    && forall step :: step in EVIDENCE_STEPS ==> step in repo.evidence.value.steps
  }

  lemma UnheldPromotionMatches(s: DriverState, repo: Snapshot, c: Config)
    requires PromotionHold(s, repo, c, true).None?
    ensures PromotionMatches(s, repo)
  {
    ReleaseHoldExact(PromotionSubject(s), repo.authority, repo.evidence, repo.approve, c.bot, REPOSITORY, ApproveBranch(s), true);
  }

  lemma AttemptFits(c: Config, s: DriverState, step: Decision, env: Env, tags: map<string, string>)
    ensures var (outcome, after, signs) := Attempt(c, s, step, env, tags);
      && (outcome.Returned? ==> ResultFits(step.operation, outcome.result))
      && (signs ==> step.operation.TagStable? && PromotionMatches(s, env.before))
  {
    if step.operation.MergeApprove? {
      MergeApproveFits(c, s, env);
    } else if step.operation.TagStable? && PromotionHold(s, env.before, c, true).None? {
      UnheldPromotionMatches(s, env.before, c);
    }
  }

  lemma MergeApproveFits(c: Config, s: DriverState, env: Env)
    ensures var outcome := MergeApproveOutcome(c, s, env);
      outcome.Returned? ==> outcome.result.StableCommitPatch? && outcome.result.stableCommit.Some?
  {
    if MergeApproveOutcome(c, s, env).Returned? {
      var commit := MergeApproveOutcome(c, s, env).result.stableCommit;
      UnheldPromotionMatches(s.(stableCommit := commit), env.after, c);
    }
  }

  /** Save i follows from the save before it. */
  ghost predicate StepAt(saves: seq<DriverState>, i: int)
    requires 0 < i < |saves|
  {
    DurableStep(saves[i - 1], saves[i])
  }

  /** The file's history: it starts with a selection, and each change is one planned transition. */
  ghost predicate History(saves: seq<DriverState>) {
    && (saves != [] ==> JustSelected(saves[0]))
    && (forall i :: 0 <= i < |saves| ==> StateOk(saves[i]))
    && (forall i :: 0 < i < |saves| ==> StepAt(saves, i))
  }

  /** The running tick agrees with the file it loaded, because only it writes that file. */
  predicate PositionFits(c: Config, w: World) {
    match w.position
    case Down => true
    case Loaded(state) => state == w.disk
    case Planned(next, repo) =>
      && (w.disk.Some? ==> w.disk.value.announcement.None?) && SnapshotFits(w.disk, repo)
      && NextStep(w.disk, repo, c).Act? && next == WithIntent(w.disk, NextStep(w.disk, repo, c).step)
    case Performing(s) => w.disk == Some(s) && s.intent.Some?
    case Performed(s, env, outcome) =>
      w.disk == Some(s) && s.intent.Some? && (outcome.Returned? ==> ResultFits(s.intent.value.operation, outcome.result))
    case Outbox(s) => w.disk == Some(s) && s.announcement.Some?
    case Posted(s) => w.disk == Some(s) && s.announcement.Some?
  }

  predicate SigningFits(saves: seq<DriverState>, g: Signing) {
    && 0 <= g.save < |saves| && saves[g.save].intent.Some? && saves[g.save].intent.value.operation.TagStable?
    && PromotionMatches(saves[g.save], g.repo)
  }

  ghost predicate Sound(c: Config, w: World) {
    && w.disk == (if w.saves == [] then None else Some(w.saves[|w.saves| - 1]))
    && History(w.saves) && PositionFits(c, w)
    && forall i :: 0 <= i < |w.signings| ==> SigningFits(w.saves, w.signings[i])
  }

  /** Saving the next state of a transition keeps the history. */
  lemma SaveKeepsSound(c: Config, w: World, s: DriverState)
    requires Sound(c, w.(position := Down))
    requires w.disk == Some(s) || (if w.disk.Some? then DurableStep(w.disk.value, s) else JustSelected(s) && StateOk(s))
    ensures Sound(c, Save(w, s).(position := Down)) && Save(w, s).disk == Some(s)
  {
    hide InTable, ApplyPatch, NextStep, PromotionMatches;
    if w.disk.Some? && w.disk != Some(s) { DurableStepKeepsState(w.disk.value, s); }
    var v := Save(w, s);
    assert forall i :: 0 <= i < |w.saves| ==> v.saves[i] == w.saves[i];
    forall i | 0 < i < |v.saves|
      ensures StepAt(v.saves, i)
    {
      assert i < |w.saves| ==> StepAt(w.saves, i);
    }
  }

  /** Saving an intent again after a crash changes nothing. */
  lemma IntentIsIdempotent(s: DriverState)
    requires StateOk(s) && s.intent.Some?
    ensures WithIntent(Some(s), s.intent.value) == s
  {
  }

  lemma PlannedIntentFollows(c: Config, w: World)
    requires Sound(c, w) && w.position.Planned?
    ensures var next := w.position.next;
      w.disk == Some(next) || (if w.disk.Some? then DurableStep(w.disk.value, next) else JustSelected(next) && StateOk(next))
    ensures w.position.next.intent.Some?
  {
    var next, repo := w.position.next, w.position.repo;
    if w.disk.None? {
      SelectionStarts(repo, c);
    } else if w.disk.value.intent.Some? {
      IntentIsIdempotent(w.disk.value);
    } else {
      PlannedStepInTable(w.disk.value, repo, c);
      assert PlanStep(w.disk.value, next);
    }
  }

  lemma SaveIntentKeepsSound(c: Config, w: World)
    requires Sound(c, w)
    ensures Sound(c, SaveIntentStep(w))
  {
    if !w.position.Planned? { return; }
    PlannedIntentFollows(c, w);
    SaveKeepsSound(c, w, w.position.next);
  }

  lemma SelectionStarts(repo: Snapshot, c: Config)
    requires SnapshotFits(None, repo) && NextStep(None, repo, c).Act?
    ensures var next := WithIntent(None, NextStep(None, repo, c).step); JustSelected(next) && StateOk(next)
  {
  }

  lemma CommitsKeepsSound(c: Config, w: World, t: DriverState)
    requires Sound(c, w.(position := Down)) && w.disk.Some? && DurableStep(w.disk.value, t) && t.announcement.Some?
    ensures Sound(c, Commits(w, t))
  {
    SaveKeepsSound(c, w, t);
  }

  lemma CommitAnnounces(s: DriverState, step: Decision, result: Patch)
    ensures Commit(s, step, result).announcement.Some? && Commit(s, step, result).intent.None?
  {
  }

  lemma FinishKeepsSound(c: Config, w: World)
    requires Sound(c, w)
    ensures Sound(c, FinishStep(w))
  {
    hide InTable, ApplyPatch, NextStep, PromotionMatches, StateOk, Commit, HoldDecision;
    if !w.position.Performed? { return; }
    var s, step := w.position.intended, w.position.intended.intent.value;
    match w.position.outcome
    case Returned(result) =>
      assert CommitStep(s, Commit(s, step, result));
      CommitAnnounces(s, step, result);
      CommitsKeepsSound(c, w, Commit(s, step, result));
    case HeldBy(reason, commit) =>
      assert HoldStep(s, Commit(s, HoldDecision(reason, commit), NoPatch));
      CommitAnnounces(s, HoldDecision(reason, commit), NoPatch);
      CommitsKeepsSound(c, w, Commit(s, HoldDecision(reason, commit), NoPatch));
    case Stale => SaveKeepsSound(c, w, s.(intent := None));
    case Threw =>
  }

  lemma SnapKeepsSound(c: Config, w: World, repo: Snapshot)
    requires Sound(c, w)
    ensures Sound(c, SnapStep(c, w, repo))
  {
    hide InTable, ApplyPatch, NextStep, PromotionMatches, JustSelected, DurableStep;
  }

  lemma PostKeepsSound(c: Config, w: World)
    requires Sound(c, w)
    ensures Sound(c, PostStep(w))
  {
    hide InTable, ApplyPatch, NextStep, PromotionMatches;
  }

  lemma DiskOk(c: Config, w: World)
    requires Sound(c, w) && w.disk.Some?
    ensures StateOk(w.disk.value)
  {
  }

  lemma TagStableSeesState(s: DriverState)
    requires StateOk(s) && s.intent.Some? && s.intent.value.operation.TagStable?
    ensures ApplyPatch(s, s.intent.value.patch) == s
  {
  }

  /** What one `perform` leaves behind: a fitting outcome, and at most one signing, under the saved intent. */
  lemma PerformFits(c: Config, w: World, env: Env)
    requires w.position.Performing? && w.position.intended.intent.Some? && StateOk(w.position.intended)
    ensures var s, v := w.position.intended, PerformStep(c, w, env);
      && v.position.Performed? && v.position.intended == s
      && (v.position.outcome.Returned? ==> ResultFits(s.intent.value.operation, v.position.outcome.result))
      && v == w.(tags := v.tags, position := v.position, signings := v.signings)
      && (v.signings == w.signings
          || (&& v.signings == w.signings + [Signing(|w.saves| - 1, env.before)]
              && s.intent.value.operation.TagStable? && PromotionMatches(s, env.before)))
  {
    hide Attempt, PromotionMatches, InTable, ApplyPatch, StateOk;
    var s := w.position.intended;
    if s.intent.value.operation.TagStable? { TagStableSeesState(s); }
    AttemptFits(c, ApplyPatch(s, s.intent.value.patch), s.intent.value, env, w.tags);
  }

  lemma PerformKeepsSound(c: Config, w: World, env: Env)
    requires Sound(c, w)
    ensures Sound(c, PerformStep(c, w, env))
  {
    hide History, PromotionMatches, InTable, StateOk;
    if !w.position.Performing? { return; }
    DiskOk(c, w);
    PerformFits(c, w, env);
    hide PerformStep;
  }

  lemma ClearKeepsSound(c: Config, w: World)
    requires Sound(c, w)
    ensures Sound(c, ClearAnnouncementStep(w))
  {
    if !w.position.Posted? { return; }
    hide InTable, ApplyPatch, NextStep, PromotionMatches;
    assert ClearStep(w.disk.value, w.position.committed.(announcement := None));
    SaveKeepsSound(c, w, w.position.committed.(announcement := None));
  }

  lemma NextKeepsSound(c: Config, w: World, e: Event)
    requires Sound(c, w)
    ensures Sound(c, Next(c, w, e))
  {
    hide InTable, ApplyPatch, NextStep, PromotionMatches, SaveIntentStep, FinishStep, PerformStep, ClearAnnouncementStep,
         SnapStep, PostStep;
    match e
    case SaveIntent => SaveIntentKeepsSound(c, w);
    case Finish => FinishKeepsSound(c, w);
    case Perform(env) => PerformKeepsSound(c, w, env);
    case ClearAnnouncement => ClearKeepsSound(c, w);
    case Snap(repo) => SnapKeepsSound(c, w, repo);
    case PostComment => PostKeepsSound(c, w);
    case Crash | Load =>
  }

  lemma {:induction false} RunIsSound(c: Config, events: seq<Event>)
    ensures Sound(c, Run(c, INITIAL, events))
  {
    if events != [] {
      RunIsSound(c, events[..|events| - 1]);
      NextKeepsSound(c, Run(c, INITIAL, events[..|events| - 1]), events[|events| - 1]);
    }
  }
}
