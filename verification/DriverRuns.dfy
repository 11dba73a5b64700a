/**
 Whole runs of the release driver: scripts/release-driver.ts, `tick`, cut at its awaits, with a crash
 possible between any two of them, and scripts/release-driver-runtime.ts, `perform`, `merge` and `tag`.

 An event is one step of one tick together with everything the outside world answers in it: the
 repository snapshot, what `perform` observes, and whether a call breaks off. An event that does not
 fit the driver's current position changes nothing, so a run is any sequence of events.
 */
module DriverRuns {
  import opened Wrappers
  import opened Versions
  import opened ReleasePolicy
  import opened ReleaseDriver

  /** How a call whose own guards are not modelled ends: normally, refused before any effect, held, or broken off. */
  datatype Verdict = Completes | Refuses | Holds(reason: HoldReason) | Breaks(pushed: bool)

  /** Everything one `perform` call observes. */
  datatype Env = Env(
    verdict: Verdict, current: PullRequest, again: PullRequest, merged: PullRequest, before: Snapshot,
    after: Snapshot, main: string, number: nat, text: string)

  datatype Outcome = Returned(result: Patch) | HeldBy(reason: HoldReason, commit: Option<string>) | Stale | Threw

  /** Where the running tick stands; everything here is lost in a crash. */
  datatype Position =
    | Down
    | Loaded(state: Option<DriverState>)
    | Planned(next: DriverState, repo: Snapshot)
    | Performing(intended: DriverState)
    | Performed(intended: DriverState, env: Env, outcome: Outcome)
    | Outbox(committed: DriverState)
    | Posted(committed: DriverState)

  /** A stable tag that `perform` set out to sign: the save whose intent it carried out, and the snapshot it checked. */
  datatype Signing = Signing(save: int, repo: Snapshot)

  /** `saves` lists every change of the state file, `posted` the comments on the issue, `tags` the remote tags. */
  datatype World = World(
    disk: Option<DriverState>, saves: seq<DriverState>, posted: seq<Marker>, tags: map<string, string>,
    signings: seq<Signing>, position: Position, interruptions: nat)

  datatype Event =
    | Crash
    | Load
    | Snap(repo: Snapshot)
    | SaveIntent
    | Perform(env: Env)
    | Finish
    | PostComment
    | ClearAnnouncement

  const INITIAL := World(None, [], [], map[], [], Down, 0)

  function Save(w: World, s: DriverState): World {
    if w.disk == Some(s) then w else w.(disk := Some(s), saves := w.saves + [s])
  }

  /** The state saved with an intent: a selection starts from its own patch. */
  function WithIntent(state: Option<DriverState>, step: Decision): DriverState {
    var base := if step.patch.SelectPatch?
      then SelectedState(step.patch.request, step.patch.release, step.patch.firstCandidate, step.patch.main, step.patch.previous)
      else if state.Some? then state.value
      else SelectedState(Issue(0, "", "", ""), "", "", "", "");
    base.(intent := Some(step))
  }

  function MarkerOf(s: DriverState): Marker {
    Marker(s.issue.number, s.issue.request, s.candidate, s.sequence, s.phase)
  }

  /** `{ ...state, ...step.patch, ...result, phase, sequence + 1 }` without the intent, with its comment in the outbox. */
  function Commit(s: DriverState, step: Decision, result: Patch): DriverState {
    var t := ApplyPatch(ApplyPatch(s, step.patch), result).(phase := step.phase, sequence := s.sequence + 1, intent := None);
    t.(announcement := Some(MarkerOf(t)))
  }

  /** What the snapshot contract promises: an authority failure is only ever reported in an approve phase. */
  predicate SnapshotFits(state: Option<DriverState>, repo: Snapshot) {
    repo.authorityFailure.Some? ==> state.Some? && IsApprovePhase(state.value.phase)
  }

  function FromVerdict(verdict: Verdict, result: Patch, mayRefuse: bool, mayHold: bool): Outcome {
    match verdict
    case Completes => Returned(result)
    case Refuses => if mayRefuse then Stale else Threw
    case Holds(reason) => if mayHold then HeldBy(reason, None) else Threw
    case Breaks(_) => Threw
  }

  /** `merge`: the pull request it returns, or how it ends instead. */
  function Merge(c: Config, pinned: PullRequest, order: bool, env: Env): Result<PullRequest, Outcome> {
    var current := env.again;
    if current.head != pinned.head || current.tree != pinned.tree then Failure(if current.merged then Threw else Stale)
    else if order && (!IsOrder(current) || OutsideOrderScope(current)) then Failure(Threw)
    else if !order && (current.author != c.bot || current.base != "main" || current.headRepository != REPOSITORY)
    then Failure(Threw)
    else if !order && env.verdict.Holds? then Failure(HeldBy(env.verdict.reason, None))
    else if current.merged then (if current.mergedBy != Some(c.bot) then Failure(Threw) else Success(current))
    else if !current.open || current.draft || current.behind || !current.checksPassed then Failure(Stale)
    else if env.verdict.Breaks? || !env.merged.merged || env.merged.mergedBy != Some(c.bot) then Failure(Threw)
    else Success(env.merged)
  }

  /** `tag`: an existing tag must already name the same commit. */
  function Tag(tags: map<string, string>, name: string, commit: Option<string>, verdict: Verdict)
    : (Outcome, map<string, string>)
  {
    if commit.None? || (name in tags && tags[name] != commit.value) then (Threw, tags)
    else if verdict.Completes? then (Returned(NoPatch), tags[name := commit.value])
    else if verdict == Breaks(true) then (Threw, tags[name := commit.value])
    else (Threw, tags)
  }

  /** `perform(step, { ...state, ...step.patch })`: the outcome, the remote tags and whether a stable tag is being signed. */
  function Attempt(c: Config, s: DriverState, step: Decision, env: Env, tags: map<string, string>)
    : (Outcome, map<string, string>, bool)
  {
    match step.operation
    case UpdateOrder | UpdateReleasePr | StartCampaign | StartApproveChecks | StartSmoke | Close =>
      (FromVerdict(env.verdict, NoPatch, false, false), tags, false)
    case ReadyOrder => (FromVerdict(env.verdict, NoPatch, true, false), tags, false)
    case MergeOrder => (MergeOutcome(c, step.pr, true, env, NoPatch), tags, false)
    case MergeRecord => (MergeOutcome(c, step.pr, false, env, NoPatch), tags, false)
    case OpenPrepare =>
      var hold := RoutineSourceHold(env.before.authority, s.authorityPolicy);
      if hold.Some? then (HeldBy(hold.value, UnreviewedCommit(env.before)), tags, false)
      else (FromVerdict(env.verdict, PreparePrPatch(env.number, env.before.authority.value.policy), false, true), tags, false)
    case MergePrepare =>
      if Some(env.main) != (if env.current.merged then env.current.mergeCommit else Some(s.selectedMain))
      then (HeldBy(StaleSource, None), tags, false)
      else (MergeOutcome(c, step.pr, false, env, CandidateCommitPatch(MergedCommit(c, step.pr, env))), tags, false)
    case TagCandidate =>
      var pr := env.current;
      if !pr.merged || pr.mergedBy != Some(c.bot) || pr.mergeCommit != s.candidateCommit || pr.mergeTree != Some(pr.tree)
      then (HeldBy(MergeTreeChanged, None), tags, false) else
      var hold := RoutineSourceHold(env.before.authority, s.authorityPolicy);
      if hold.Some? then (HeldBy(hold.value, UnreviewedCommit(env.before)), tags, false) else
      var (outcome, after) := Tag(tags, s.candidate, s.candidateCommit, env.verdict);
      (outcome, after, false)
    case VerifyCandidate => (FromVerdict(env.verdict, CandidateDigestPatch(env.text), false, false), tags, false)
    case OpenApprove => (FromVerdict(env.verdict, ApprovePrPatch(env.number), false, true), tags, false)
    case MergeApprove => (MergeApproveOutcome(c, s, env), tags, false)
    case TagStable =>
      var hold := PromotionHold(s, env.before, c, true);
      if hold.Some? then (HeldBy(hold.value, UnreviewedCommit(env.before)), tags, false) else
      var (outcome, after) := Tag(tags, "v" + s.version, s.stableCommit, env.verdict);
      (outcome, after, true)
    case VerifyStable => (FromVerdict(env.verdict, StableDigestPatch(env.text), false, false), tags, false)
    case OpenRecord => (FromVerdict(env.verdict, RecordPrPatch(env.number), false, true), tags, false)
    case _ => (Returned(NoPatch), tags, false)
  }

  function MergeOutcome(c: Config, pinned: Option<PullRequest>, order: bool, env: Env, result: Patch): Outcome {
    if pinned.None? then Threw else
    match Merge(c, pinned.value, order, env)
    case Success(_) => Returned(result)
    case Failure(outcome) => outcome
  }

  function MergedCommit(c: Config, pinned: Option<PullRequest>, env: Env): Option<string> {
    if pinned.None? then None else
    match Merge(c, pinned.value, false, env)
    case Success(pr) => pr.mergeCommit
    case Failure(_) => None
  }

  /** The promotion is checked against fresh snapshots both before and after the merge. */
  function MergeApproveOutcome(c: Config, s: DriverState, env: Env): Outcome {
    var hold := PromotionHold(s, env.before, c, false);
    if hold.Some? then HeldBy(hold.value, UnreviewedCommit(env.before))
    else if env.before.approve.None? then Threw else
    match Merge(c, env.before.approve.value, false, env)
    case Failure(outcome) => outcome
    case Success(pr) =>
      var changed := PromotionHold(s.(stableCommit := pr.mergeCommit), env.after, c, true);
      if changed.Some? then HeldBy(changed.value, UnreviewedCommit(env.after))
      else Returned(StableCommitPatch(pr.mergeCommit))
  }

  function Post(posted: seq<Marker>, marker: Marker): seq<Marker> {
    if marker in posted then posted else posted + [marker]
  }

  function Interrupt(w: World): World { w.(position := Down, interruptions := w.interruptions + 1) }

  function SnapStep(c: Config, w: World, repo: Snapshot): World {
    if w.position.Loaded? && (w.position.state.Some? ==> w.position.state.value.announcement.None?)
       && SnapshotFits(w.position.state, repo)
    then
      match NextStep(w.position.state, repo, c)
      case Act(step) => w.(position := Planned(WithIntent(w.position.state, step), repo))
      case _ => w.(position := Down)
    else w
  }

  function SaveIntentStep(w: World): World {
    if w.position.Planned? then Save(w, w.position.next).(position := Performing(w.position.next)) else w
  }

  function PerformStep(c: Config, w: World, env: Env): World {
    if !w.position.Performing? || w.position.intended.intent.None? then w else
    var s := w.position.intended;
    var step := s.intent.value;
    var (outcome, tags, signs) := Attempt(c, ApplyPatch(s, step.patch), step, env, w.tags);
    w.(tags := tags, position := Performed(s, env, outcome),
       signings := if signs then w.signings + [Signing(|w.saves| - 1, env.before)] else w.signings)
  }

  function FinishStep(w: World): World {
    if !w.position.Performed? || w.position.intended.intent.None? then w else
    var s := w.position.intended;
    var step := s.intent.value;
    match w.position.outcome
    case Returned(result) => Commits(w, Commit(s, step, result))
    case HeldBy(reason, commit) => Commits(w, Commit(s, HoldDecision(reason, commit), NoPatch))
    case Stale => Save(w, s.(intent := None)).(position := Down)
    case Threw => Interrupt(w)
  }

  function Commits(w: World, s: DriverState): World { Save(w, s).(position := Outbox(s)) }

  function PostStep(w: World): World {
    var s := if w.position.Loaded? then w.position.state else if w.position.Outbox? then Some(w.position.committed) else None;
    if s.Some? && s.value.announcement.Some?
    then w.(posted := Post(w.posted, s.value.announcement.value), position := Posted(s.value)) else w
  }

  function ClearAnnouncementStep(w: World): World {
    if w.position.Posted? then Save(w, w.position.committed.(announcement := None)).(position := Down) else w
  }

  function Next(c: Config, w: World, e: Event): World {
    match e
    case Crash => Interrupt(w)
    case Load => if w.position.Down? then w.(position := Loaded(w.disk)) else w
    case Snap(repo) => SnapStep(c, w, repo)
    case SaveIntent => SaveIntentStep(w)
    case Perform(env) => PerformStep(c, w, env)
    case Finish => FinishStep(w)
    case PostComment => PostStep(w)
    case ClearAnnouncement => ClearAnnouncementStep(w)
  }

  function Run(c: Config, w: World, events: seq<Event>): World {
    if events == [] then w else Next(c, Run(c, w, events[..|events| - 1]), events[|events| - 1])
  }

  lemma RunMore(c: Config, w: World, events: seq<Event>, e: Event)
    ensures Run(c, w, events + [e]) == Next(c, Run(c, w, events), e)
  {
    hide Next;
    assert (events + [e])[..|events|] == events;
  }

  lemma {:induction false} RunAppend(c: Config, w: World, a: seq<Event>, b: seq<Event>)
    ensures Run(c, w, a + b) == Run(c, Run(c, w, a), b)
  {
    if b == [] {
      assert a + b == a;
    } else {
      RunAppend(c, w, a, b[..|b| - 1]);
      assert (a + b)[..|a + b| - 1] == a + b[..|b| - 1];
    }
  }
}
