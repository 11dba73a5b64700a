/**
 A comment the release driver leaves out: when a closed release's issue is selected again from snapshots that show
 neither its tags nor the new stable version, the first commit has the marker it had before and is not posted again.
 */
module RepeatedComment {
  import opened Wrappers
  import opened Versions
  import opened ReleasePolicy
  import opened ReleaseDriver
  import opened DriverRuns
  import opened DriverHistory
  import opened CommentHistory

  // The input: one issue, one snapshot and one environment for every call.

  const WANTED := Version(1, 2, 3)
  const ISSUE := Issue(1, TITLE_PREFIX + "v" + PrintVersion(WANTED), "github-actions[bot]", "r")
  const RELEASE := PrintVersion(Version(1, 2, 4))
  const CANDIDATE := NextCandidate(RELEASE, [])
  const BRANCH := "release-driver/" + Print(1) + "/" + CANDIDATE + "-approve"
  const AUTHORITY := Authority("p", [], true, None, true, true)
  const EVIDENCE := Evidence("h", "t", CANDIDATE, "m", "d", "p", EVIDENCE_STEPS)

  function Pr(c: Config, merged: bool): PullRequest {
    PullRequest(1, c.bot, "Bot", REPOSITORY, "main", BRANCH, "h", "t", false, !merged, merged, Some(c.bot), Some("m"),
                Some("t"), Some(true), false, true, [])
  }

  /** Everything has passed and is merged, but for the promotion while its checks are to be started. */
  function Repo(c: Config, unmerged: bool): Snapshot {
    Snapshot("m", PrintVersion(WANTED), PrintVersion(WANTED), [], [ISSUE], None, Some(Pr(c, true)), Some(Pr(c, !unmerged)),
             Some(Pr(c, true)), Some(Passed), Some(Passed), Some(Passed), Some(Passed), Some(AUTHORITY), None,
             Some(EVIDENCE), Some(Passed), false)
  }

  function Calm(c: Config): Env {
    Env(Completes, Pr(c, true), Pr(c, true), Pr(c, true), Repo(c, false), Repo(c, false), "m", 1, "d")
  }

  lemma RunNothing(c: Config, w: World)
    ensures Run(c, w, []) == w
  {
  }

  // One call.

  lemma RunFront(c: Config, w: World, e: Event, rest: seq<Event>)
    ensures Run(c, w, [e] + rest) == Run(c, Next(c, w, e), rest)
  {
    hide Next;
    RunAppend(c, w, [e], rest);
    assert [e][..0] == [];
  }

  function Planning(repo: Snapshot): seq<Event> { [Load, Snap(repo), SaveIntent] }

  function Acting(env: Env): seq<Event> { [Perform(env), Finish, PostComment, ClearAnnouncement] }

  /** A call plans and saves its intent. */
  lemma PlanningRuns(c: Config, w: World, repo: Snapshot, step: Decision)
    requires w.position.Down? && (w.disk.Some? ==> w.disk.value.intent.None? && w.disk.value.announcement.None?)
    requires SnapshotFits(w.disk, repo) && NextStep(w.disk, repo, c) == Act(step)
    ensures var s := WithIntent(w.disk, step);
      Run(c, w, Planning(repo)) == w.(disk := Some(s), saves := w.saves + [s], position := Performing(s))
  {
    hide NextStep, SnapshotFits, Run;
    var w1 := Next(c, w, Load);
    var w2 := Next(c, w1, Snap(repo));
    assert Planning(repo) == [Load] + ([Snap(repo)] + ([SaveIntent] + []));
    RunFront(c, w, Load, [Snap(repo)] + ([SaveIntent] + []));
    RunFront(c, w1, Snap(repo), [SaveIntent] + []);
    RunFront(c, w2, SaveIntent, []);
    RunNothing(c, Next(c, w2, SaveIntent));
  }

  /** Undisturbed, it performs the intent and saves the commit with its comment, posts it, and saves it without. */
  lemma ActingRuns(c: Config, w: World, env: Env, s: DriverState, t: DriverState)
    requires w.position == Performing(s) && w.disk == Some(s) && s.intent.Some?
    requires var step := s.intent.value; var outcome := Attempt(c, ApplyPatch(s, step.patch), step, env, w.tags).0;
      outcome.Returned? && t == Commit(s, step, outcome.result) && t.announcement.Some? && t.intent.None?
    ensures var v := Run(c, w, Acting(env));
      && v.position.Down? && v.disk == Some(t.(announcement := None))
      && v.saves == w.saves + [t] + [t.(announcement := None)]
      && v.tags == Attempt(c, ApplyPatch(s, s.intent.value.patch), s.intent.value, env, w.tags).1
      && v.posted == Post(w.posted, t.announcement.value)
  {
    hide Attempt, ApplyPatch, Commit, Run;
    var w1 := Next(c, w, Perform(env));
    var w2 := Next(c, w1, Finish);
    var w3 := Next(c, w2, PostComment);
    assert Acting(env) == [Perform(env)] + ([Finish] + ([PostComment] + ([ClearAnnouncement] + [])));
    RunFront(c, w, Perform(env), [Finish] + ([PostComment] + ([ClearAnnouncement] + [])));
    RunFront(c, w1, Finish, [PostComment] + ([ClearAnnouncement] + []));
    RunFront(c, w2, PostComment, [ClearAnnouncement] + []);
    RunFront(c, w3, ClearAnnouncement, []);
    RunNothing(c, Next(c, w3, ClearAnnouncement));
  }

  // The whole release, phase by phase.

  /** How many commits after the selection this release reaches the phase. */
  function Place(phase: Phase): nat {
    match phase
    case Selected => 0
    case PrepareOpen => 1
    case Prepared => 2
    case CandidateTagged => 3
    case CandidatePublished => 4
    case CandidateVerified => 5
    case Qualifying => 6
    case Qualified => 7
    case ApproveOpen => 8
    case ApproveChecking => 9
    case ApprovalRequired => 10
    case Approved => 11
    case StableTagged => 12
    case StablePublished => 13
    case StableVerified => 14
    case Smoking => 15
    case Smoked => 16
    case RecordOpen => 17
    case Recorded => 18
    case Closed => 19
    case _ => 20
  }

  /** A state of this release between two calls. */
  predicate Between(s: DriverState) {
    && s.intent.None? && s.announcement.None? && s.holdReason.None? && Place(s.phase) < 20
    && s.issue == ISSUE && s.version == RELEASE && s.candidate == CANDIDATE
    && s.authorityPolicy == (if s.phase.Selected? then None else Some("p"))
    && (Place(s.phase) >= 2 ==> s.candidateCommit == Some("m"))
    && (Place(s.phase) >= 5 ==> s.candidateDigest == Some("d"))
    && (Place(s.phase) >= 9 ==> s.approvedHead == Some("h") && s.approvedTree == Some("t"))
    && (Place(s.phase) >= 11 ==> s.stableCommit == Some("m"))
  }

  predicate OneCommitTagged(tags: map<string, string>) { forall t :: t in tags ==> tags[t] == "m" }

  /** What is planned in a phase of this release. */
  function StepIn(c: Config, phase: Phase): Decision {
    match phase
    case Selected => Decision(OpenPrepare, PrepareOpen, None, SelectedMainPatch("m"), None)
    case PrepareOpen => Decision(MergePrepare, Prepared, Some(Pr(c, true)), NoPatch, None)
    case Prepared => Decision(TagCandidate, CandidateTagged, None, NoPatch, None)
    case CandidateTagged => Decision(ObserveCandidate, CandidatePublished, None, NoPatch, None)
    case CandidatePublished => Decision(VerifyCandidate, CandidateVerified, None, NoPatch, None)
    case CandidateVerified => Decision(StartCampaign, Qualifying, None, NoPatch, None)
    case Qualifying => Decision(FinishCampaign, Qualified, None, NoPatch, None)
    case Qualified => Decision(OpenApprove, ApproveOpen, None, NoPatch, None)
    case ApproveOpen =>
      Decision(StartApproveChecks, ApproveChecking, Some(Pr(c, false)), SubjectPatch("h", "t", Some("p")), None)
    case ApproveChecking => Decision(FinishApproveChecks, ApprovalRequired, None, NoPatch, None)
    case ApprovalRequired => Decision(AcceptApproval, Approved, None, StableCommitPatch(Some("m")), None)
    case Approved => Decision(TagStable, StableTagged, None, NoPatch, None)
    case StableTagged => Decision(ObserveStable, StablePublished, None, NoPatch, None)
    case StablePublished => Decision(VerifyStable, StableVerified, None, NoPatch, None)
    case StableVerified => Decision(StartSmoke, Smoking, None, NoPatch, None)
    case Smoking => Decision(FinishSmoke, Smoked, None, NoPatch, None)
    case Smoked => Decision(OpenRecord, RecordOpen, None, NoPatch, None)
    case RecordOpen => Decision(MergeRecord, Recorded, Some(Pr(c, true)), NoPatch, None)
    case Recorded => Decision(Close, Closed, None, NoPatch, None)
    case _ => SELECTION
  }

  const SELECTION :=
    Decision(Select, Selected, None, SelectPatch(ISSUE, RELEASE, CANDIDATE, "m", PrintVersion(WANTED)), None)

  /** What performing it returns. */
  function Yields(operation: Operation): Patch {
    match operation
    case OpenPrepare => PreparePrPatch(1, "p")
    case MergePrepare => CandidateCommitPatch(Some("m"))
    case VerifyCandidate => CandidateDigestPatch("d")
    case OpenApprove => ApprovePrPatch(1)
    case VerifyStable => StableDigestPatch("d")
    case OpenRecord => RecordPrPatch(1)
    case _ => NoPatch
  }

  predicate Plans(c: Config, s: DriverState) {
    NextStep(Some(s), Repo(c, s.phase.ApproveOpen?), c) == Act(StepIn(c, s.phase))
  }

  lemma IssueIsValid()
    ensures RequestVersion(ISSUE) == Some(WANTED) && ParseVersion(PrintVersion(WANTED)) == Some(WANTED)
    ensures SelectRequest([ISSUE]) == Some(ISSUE)
  {
    ParsePrintVersion(WANTED);
    hide PrintVersion, ParseBare;
    assert ISSUE.title[|TITLE_PREFIX| + 1..] == PrintVersion(WANTED);
    OnlyIssue(ISSUE);
  }

  lemma OnlyIssue(issue: Issue)
    requires RequestVersion(issue).Some?
    ensures SelectRequest([issue]) == Some(issue)
  {
    hide RequestVersion, SelectRequest;
    SelectRequestHighest([issue]);
    assert issue in [issue];
  }

  lemma SelectedPlans(c: Config, s: DriverState)
    requires Between(s) && s.phase.Selected?
    ensures Plans(c, s)
  {
    IssueIsValid();
    hide ParseVersion, RequestVersion, PrintVersion, NextCandidate;
  }

  lemma ClosedPlans(c: Config, state: Option<DriverState>)
    requires state.None? || (Between(state.value) && state.value.phase.Closed?)
    ensures NextStep(state, Repo(c, false), c) == Act(SELECTION)
  {
    IssueIsValid();
    hide ParseVersion, RequestVersion, SelectRequest, NextCandidate;
  }

  lemma MergesPlanned(c: Config, s: DriverState)
    requires Between(s) && (s.phase.PrepareOpen? || s.phase.RecordOpen?)
    ensures Plans(c, s)
  {
    hide ParseVersion, RequestVersion, PrintVersion, NextCandidate, PromotionHold, RoutineSourceHold;
  }

  lemma StraightPlanned(c: Config, s: DriverState)
    requires Between(s) && !s.phase.Closed? && StraightStep(s.phase).Act?
    ensures Plans(c, s)
  {
    hide ParseVersion, RequestVersion, PrintVersion, NextCandidate, PromotionHold, RoutineSourceHold;
  }

  lemma ObservedPlans(c: Config, s: DriverState)
    requires Between(s) && s.phase in {CandidateTagged, StableTagged, Qualifying, ApproveOpen, ApproveChecking, Smoking}
    ensures Plans(c, s)
  {
    hide ParseVersion, RequestVersion, PrintVersion, NextCandidate, PromotionHold;
  }

  lemma PromotionPlanned(c: Config, s: DriverState)
    requires Between(s) && (s.phase.ApprovalRequired? || s.phase.Approved?)
    ensures Plans(c, s)
  {
    Unheld(c, s);
    hide ParseVersion, RequestVersion, PrintVersion, NextCandidate, PromotionHold;
  }

  lemma Unheld(c: Config, s: DriverState)
    requires Between(s) && (s.phase.ApprovalRequired? || s.phase.Approved?)
    ensures PromotionHold(s, Repo(c, false), c, s.phase.Approved?).None?
  {
    hide PrintVersion, NextCandidate;
  }

  lemma PhasePlans(c: Config, s: DriverState)
    requires Between(s) && !s.phase.Closed?
    ensures Plans(c, s)
  {
    assert Place(s.phase) < 20;
    hide Between, Plans;
    match s.phase
    case Selected => SelectedPlans(c, s);
    case PrepareOpen | RecordOpen => MergesPlanned(c, s);
    case ApprovalRequired | Approved => PromotionPlanned(c, s);
    case CandidateTagged | StableTagged | Qualifying | ApproveOpen | ApproveChecking | Smoking => ObservedPlans(c, s);
    case _ => StraightPlanned(c, s);
  }

  /** The state `perform` is called with. */
  function Acted(s: DriverState, step: Decision): DriverState { ApplyPatch(WithIntent(Some(s), step), step.patch) }

  predicate Performs(c: Config, s: DriverState, tags: map<string, string>) {
    var step := StepIn(c, s.phase);
    var (outcome, after, signs) := Attempt(c, Acted(s, step), step, Calm(c), tags);
    outcome == Returned(Yields(step.operation)) && OneCommitTagged(after)
  }

  lemma PreparePerforms(c: Config, s: DriverState, tags: map<string, string>)
    requires Between(s) && OneCommitTagged(tags) && (s.phase.Selected? || s.phase.Prepared?)
    ensures Performs(c, s, tags)
  {
    hide PrintVersion, NextCandidate, PromotionHold;
  }

  lemma MergesPerform(c: Config, s: DriverState, tags: map<string, string>)
    requires Between(s) && OneCommitTagged(tags) && (s.phase.PrepareOpen? || s.phase.RecordOpen?)
    ensures Performs(c, s, tags)
  {
    hide PrintVersion, NextCandidate, PromotionHold, RoutineSourceHold, OneCommitTagged;
  }

  lemma ApprovedPerforms(c: Config, s: DriverState, tags: map<string, string>)
    requires Between(s) && OneCommitTagged(tags) && s.phase.Approved?
    ensures Performs(c, s, tags)
  {
    Unheld(c, s);
    IntentAside(c, s, StepIn(c, Approved));
    hide PrintVersion, NextCandidate, PromotionHold, RoutineSourceHold;
  }

  lemma IntentAside(c: Config, s: DriverState, step: Decision)
    requires step.patch.NoPatch?
    ensures PromotionHold(Acted(s, step), Repo(c, false), c, true) == PromotionHold(s, Repo(c, false), c, true)
  {
    hide RoutineReleaseHold, Repo;
  }

  lemma OthersPerform(c: Config, s: DriverState, tags: map<string, string>)
    requires Between(s) && OneCommitTagged(tags) && !s.phase.Closed?
    requires s.phase !in {Selected, Prepared, PrepareOpen, RecordOpen, Approved}
    ensures Performs(c, s, tags)
  {
    hide PrintVersion, NextCandidate, PromotionHold, RoutineSourceHold, OneCommitTagged, WithIntent, ApplyPatch;
  }

  lemma PhasePerforms(c: Config, s: DriverState, tags: map<string, string>)
    requires Between(s) && OneCommitTagged(tags) && !s.phase.Closed?
    ensures Performs(c, s, tags)
  {
    hide Between, Performs, OneCommitTagged;
    match s.phase
    case Selected | Prepared => PreparePerforms(c, s, tags);
    case PrepareOpen | RecordOpen => MergesPerform(c, s, tags);
    case Approved => ApprovedPerforms(c, s, tags);
    case _ => OthersPerform(c, s, tags);
  }

  function Following(c: Config, s: DriverState): DriverState {
    var step := StepIn(c, s.phase);
    Commit(WithIntent(Some(s), step), step, Yields(step.operation)).(announcement := None)
  }

  lemma CandidateCommits(c: Config, s: DriverState)
    requires Between(s) && Place(s.phase) < 8
    ensures Between(Following(c, s)) && Place(Following(c, s).phase) == Place(s.phase) + 1
  {
    hide ISSUE, RELEASE, CANDIDATE;
  }

  lemma PromotionCommits(c: Config, s: DriverState)
    requires Between(s) && 8 <= Place(s.phase) < 12
    ensures Between(Following(c, s)) && Place(Following(c, s).phase) == Place(s.phase) + 1
  {
    hide ISSUE, RELEASE, CANDIDATE;
  }

  lemma StableCommits(c: Config, s: DriverState)
    requires Between(s) && 12 <= Place(s.phase) < 19
    ensures Between(Following(c, s)) && Place(Following(c, s).phase) == Place(s.phase) + 1
  {
    hide ISSUE, RELEASE, CANDIDATE;
    if s.phase.StablePublished? || s.phase.Smoked? { ResultCommits(c, s); } else { PlainCommits(c, s); }
    hide Following;
  }

  /** These commits leave everything but the phase as far as `Between` can tell. */
  lemma PlainCommits(c: Config, s: DriverState)
    requires s.phase in {StableTagged, StableVerified, Smoking, RecordOpen, Recorded} && s.announcement.None? && s.intent.None?
    ensures Following(c, s) == s.(phase := StepIn(c, s.phase).phase, sequence := s.sequence + 1)
  {
    hide Pr, SELECTION;
  }

  lemma ResultCommits(c: Config, s: DriverState)
    requires s.phase in {StablePublished, Smoked} && s.announcement.None? && s.intent.None?
    ensures var t := Following(c, s);
      t == s.(phase := StepIn(c, s.phase).phase, sequence := s.sequence + 1, stableDigest := t.stableDigest,
             recordPr := t.recordPr)
  {
    hide Pr, SELECTION;
  }

  /** The commit of a phase's step is the next phase's state. */
  lemma CommitIsNext(c: Config, s: DriverState)
    requires Between(s) && !s.phase.Closed?
    ensures Between(Following(c, s)) && Place(Following(c, s).phase) == Place(s.phase) + 1
  {
    assert Place(s.phase) < 19;
    hide Between, Following, Place;
    if Place(s.phase) < 8 {
      CandidateCommits(c, s);
    } else if Place(s.phase) < 12 {
      PromotionCommits(c, s);
    } else {
      StableCommits(c, s);
    }
  }

  // All of it.

  /** One call, given what it plans and what that returns. */
  lemma CallRuns(c: Config, w: World, repo: Snapshot, env: Env, step: Decision, result: Patch) returns (events: seq<Event>)
    requires w.position.Down? && (w.disk.Some? ==> w.disk.value.intent.None? && w.disk.value.announcement.None?)
    requires SnapshotFits(w.disk, repo) && NextStep(w.disk, repo, c) == Act(step)
    requires var s := WithIntent(w.disk, step); Attempt(c, ApplyPatch(s, step.patch), step, env, w.tags).0 == Returned(result)
    ensures var s := WithIntent(w.disk, step); var t := Commit(s, step, result); var v := Run(c, w, events);
      && v.position.Down? && v.disk == Some(t.(announcement := None)) && v.posted == Post(w.posted, MarkerOf(t))
      && v.tags == Attempt(c, ApplyPatch(s, step.patch), step, env, w.tags).1
      && |Markers(v.saves)| == |Markers(w.saves)| + 1
  {
    hide NextStep, Attempt, ApplyPatch, Commit, SnapshotFits, Run, Markers, PromotionHold;
    var s := WithIntent(w.disk, step);
    var t := Commit(s, step, result);
    CommitMarked(w.disk, step, result);
    PlanningRuns(c, w, repo, step);
    ActingRuns(c, Run(c, w, Planning(repo)), env, s, t);
    RunAppend(c, w, Planning(repo), Acting(env));
    MarkersOfSave(w.saves, s);
    MarkersOfSave(w.saves + [s], t);
    MarkersOfSave(w.saves + [s] + [t], t.(announcement := None));
    events := Planning(repo) + Acting(env);
  }

  lemma CommitMarked(disk: Option<DriverState>, step: Decision, result: Patch)
    requires disk.Some? ==> disk.value.announcement.None?
    ensures var s := WithIntent(disk, step); var t := Commit(s, step, result);
      s.announcement.None? && s.intent == Some(step) && t.announcement == Some(MarkerOf(t)) && t.intent.None?
  {
  }

  /** A run between two calls of this release, n commits after its selection, whose comment was posted. */
  predicate Released(w: World, n: nat) {
    && w.position.Down? && w.disk.Some? && Between(w.disk.value) && Place(w.disk.value.phase) == n
    && OneCommitTagged(w.tags) && SELECTED in w.posted
  }

  const SELECTED := Marker(1, "r", CANDIDATE, 1, Selected)

  lemma SelectionRuns(c: Config, w: World) returns (events: seq<Event>)
    requires w == INITIAL || Released(w, 19)
    ensures var v := Run(c, w, events);
      && v.posted == Post(w.posted, SELECTED) && |Markers(v.saves)| == |Markers(w.saves)| + 1
      && v.position.Down? && v.disk.Some? && Between(v.disk.value) && v.disk.value.phase.Selected? && v.tags == w.tags
  {
    ClosedPlans(c, w.disk);
    SelectionCommits(w.disk);
    SelectionPerforms(c, ApplyPatch(WithIntent(w.disk, SELECTION), SELECTION.patch), w.tags);
    hide NextStep, Attempt, ApplyPatch, Commit, WithIntent, SELECTION, OneCommitTagged;
    events := CallRuns(c, w, Repo(c, false), Calm(c), SELECTION, NoPatch);
  }

  lemma SelectionPerforms(c: Config, s: DriverState, tags: map<string, string>)
    ensures Attempt(c, s, SELECTION, Calm(c), tags) == (Returned(NoPatch), tags, false)
  {
    hide PromotionHold, RoutineSourceHold;
  }

  lemma SelectionCommits(disk: Option<DriverState>)
    ensures var t := Commit(WithIntent(disk, SELECTION), SELECTION, NoPatch);
      && MarkerOf(t) == SELECTED && Between(t.(announcement := None)) && t.phase.Selected?
  {
    hide PrintVersion, NextCandidate;
  }

  lemma {:induction false} ReleaseRuns(c: Config, n: nat) returns (events: seq<Event>)
    requires n < 20
    ensures Released(Run(c, INITIAL, events), n)
  {
    if n == 0 {
      events := SelectionRuns(c, INITIAL);
    } else {
      var before := ReleaseRuns(c, n - 1);
      var w := Run(c, INITIAL, before);
      var more := ReleaseGoesOn(c, w, n - 1);
      RunAppend(c, INITIAL, before, more);
      events := before + more;
    }
  }

  lemma ReleaseGoesOn(c: Config, w: World, n: nat) returns (events: seq<Event>)
    requires Released(w, n) && n < 19
    ensures Released(Run(c, w, events), n + 1)
  {
    var s := w.disk.value;
    PhasePlans(c, s);
    PhasePerforms(c, s, w.tags);
    CommitIsNext(c, s);
    hide Between, NextStep, Attempt, ApplyPatch, Commit;
    events := CallRuns(c, w, Repo(c, s.phase.ApproveOpen?), Calm(c), StepIn(c, s.phase), Yields(StepIn(c, s.phase).operation));
  }

  /** Under any configuration there is a run without a pending comment that called for more comments than it posted. */
  lemma CommentLeftOut(c: Config)
    ensures exists events ::
      var w := Run(c, INITIAL, events);
      Pending(w).None? && |w.posted| < |Markers(w.saves)| && !Distinct(Markers(w.saves))
  {
    var before := ReleaseRuns(c, 19);
    var w := Run(c, INITIAL, before);
    var more := SelectionRuns(c, w);
    RunAppend(c, INITIAL, before, more);
    var events := before + more;
    var v := Run(c, INITIAL, events);
    CommentsPostedOnceInOrder(c, before);
    CommentsPostedOnceInOrder(c, events);
    OnceHasAll(Markers(w.saves));
    assert Pending(v).None?;
  }
}
