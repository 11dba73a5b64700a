/**
 Candidates over whole runs, provided published tags stay visible: within a release every retry uses a higher prealpha
 number, after both a new request and a changed main; and then no two commits at all share a comment marker.
 */
module CandidateHistory {
  import opened Wrappers
  import opened Versions
  import opened ReleasePolicy
  import opened ReleaseDriver
  import opened DriverRuns
  import opened DriverHistory
  import opened DriverSafety
  import opened CommentHistory

  /** Every snapshot still shows every tag published before it. */
  predicate TagsKept(c: Config, w: World, events: seq<Event>) {
    events != [] ==>
      var front, e := events[..|events| - 1], events[|events| - 1];
      TagsKept(c, w, front) && (e.Snap? ==> Shows(e.repo, Run(c, w, front).tags))
  }

  predicate Shows(repo: Snapshot, tags: map<string, string>) { forall t :: t in tags ==> t in repo.tags }

  /** Phases only reached after the state's own candidate was tagged. */
  predicate Tagged(phase: Phase) {
    match phase
    case CandidateTagged | CandidatePublished | CandidateVerified | Qualifying | Qualified | ApproveOpen | ApproveChecking
       | ApprovalRequired | DiagnosticRequired => true
    case _ => Late(phase)
  }

  function Number(s: DriverState): Option<nat> { CandidateNumber(s.version, s.candidate) }

  predicate Higher(version: string, next: string, candidate: string) {
    && CandidateNumber(version, next).Some?
    && (CandidateNumber(version, candidate).Some? ==>
          CandidateNumber(version, next).value > CandidateNumber(version, candidate).value)
  }

  /** A planned retry names another request and another main, and a candidate above every published one. */
  predicate RetryFresh(s: DriverState, tags: map<string, string>) {
    s.intent.Some? && s.intent.value.operation.Rerequest? && s.intent.value.patch.RerequestPatch? ==>
      var patch := s.intent.value.patch;
      && patch.nextCandidate !in tags && Higher(s.version, patch.nextCandidate, s.candidate)
      && patch.request.request != s.issue.request && Some(patch.main) != s.failedMain
  }

  /** Every earlier comment belongs to a tagged candidate, or to this one under an earlier sequence number. */
  predicate MarkersBehind(markers: seq<Marker>, s: DriverState, tags: map<string, string>) {
    forall m :: m in markers ==>
      (m.candidate in tags || m.candidate == s.candidate) && (m.candidate == s.candidate ==> m.sequence <= s.sequence)
  }

  predicate CandidateOk(s: DriverState, tags: map<string, string>) {
    Number(s).Some? && (Tagged(s.phase) ==> s.candidate in tags) && RetryFresh(s, tags)
  }

  /** Save i retried after a failure: a new request, a changed main, and a higher prealpha number. */
  predicate RetryAdvances(saves: seq<DriverState>, i: int)
    requires 0 < i < |saves|
  {
    var s, t := saves[i - 1], saves[i];
    && (!Selects(t) && t.candidate == s.candidate ==> t.version == s.version)
    && (!Selects(t) && t.candidate != s.candidate ==>
          && t.version == s.version && s.phase.DiagnosticRequired?
          && Number(s).Some? && Number(t).Some? && Number(t).value > Number(s).value
          && t.issue.request != s.issue.request && Some(t.selectedMain) != s.failedMain)
  }

  predicate TaggedAsPlanned(s: DriverState, tags: map<string, string>) {
    s.intent.Some? && s.intent.value.operation.TagCandidate? ==> s.candidate in tags
  }

  ghost predicate Numbered(c: Config, w: World) {
    && Sound(c, w)
    && (w.disk.Some? ==> CandidateOk(w.disk.value, w.tags) && MarkersBehind(Markers(w.saves), w.disk.value, w.tags))
    && Distinct(Markers(w.saves))
    && (w.position.Planned? ==> Shows(w.position.repo, w.tags))
    && (w.position.Performed? && w.position.outcome.Returned? && w.disk.Some? ==> TaggedAsPlanned(w.disk.value, w.tags))
    && (forall i :: 0 <= i < |w.saves| ==> Number(w.saves[i]).Some?)
    && (forall i :: 0 < i < |w.saves| ==> RetryAdvances(w.saves, i))
  }

  /** What one more save needs for the numbering to go on. */
  predicate Extends(w: World, t: DriverState) {
    && CandidateOk(t, w.tags)
    && (if w.disk.Some? then
          (|w.saves| > 0 && RetryAdvances(w.saves + [t], |w.saves|)) else true)
    && MarkersBehind(Markers(w.saves), t, w.tags)
    && (t.announcement.Some? ==>
          && t.announcement.value !in Markers(w.saves)
          && t.announcement.value.candidate == t.candidate && t.announcement.value.sequence == t.sequence)
  }

  lemma AppendExtends(w: World, t: DriverState)
    requires w.disk == (if w.saves == [] then None else Some(w.saves[|w.saves| - 1]))
    requires forall i :: 0 < i < |w.saves| ==> RetryAdvances(w.saves, i)
    requires forall i :: 0 <= i < |w.saves| ==> Number(w.saves[i]).Some?
    requires Distinct(Markers(w.saves)) && Extends(w, t)
    ensures var saves := w.saves + [t];
      && (forall i :: 0 <= i < |saves| ==> Number(saves[i]).Some?)
      && MarkersBehind(Markers(saves), t, w.tags) && Distinct(Markers(saves))
      && forall i :: 0 < i < |saves| ==> RetryAdvances(saves, i)
  {
    MarkersOfSave(w.saves, t);
    var saves := w.saves + [t];
    forall i | 0 < i < |saves|
      ensures RetryAdvances(saves, i)
    {
      assert i < |w.saves| ==> RetryAdvances(w.saves, i);
    }
  }

  lemma SelectionIsFresh(repo: Snapshot, tags: map<string, string>)
    requires SelectStep(repo).Act? && Shows(repo, tags)
    ensures var patch := SelectStep(repo).step.patch;
      patch.SelectPatch? && patch.firstCandidate !in tags && CandidateNumber(patch.release, patch.firstCandidate).Some?
  {
    hide SelectRequest, ParseVersion, PrintVersion, NextCandidate;
    var patch := SelectStep(repo).step.patch;
    NextCandidateIsNew(patch.release, repo.tags);
  }

  lemma RetryIsFresh(s: DriverState, repo: Snapshot, tags: map<string, string>)
    requires DiagnosticStep(s, repo).Act? && Shows(repo, tags) && s.candidate in tags && Number(s).Some?
    ensures var patch := DiagnosticStep(s, repo).step.patch;
      && patch.RerequestPatch? && patch.nextCandidate !in tags && Higher(s.version, patch.nextCandidate, s.candidate)
      && patch.request.request != s.issue.request && Some(patch.main) != s.failedMain
  {
    hide NextCandidate, CandidateNumber;
    RetryIsNew(s, repo);
    NextCandidateIsNew(s.version, repo.tags);
  }

  lemma SelectedExtends(w: World, t: DriverState)
    requires w.disk.Some? ==> |w.saves| > 0 && w.disk.value == w.saves[|w.saves| - 1]
    requires w.disk.Some? ==> CandidateOk(w.disk.value, w.tags) && MarkersBehind(Markers(w.saves), w.disk.value, w.tags)
    requires if w.disk.Some? then w.disk.value.phase.Closed? else w.saves == []
    requires JustSelected(t) && t.candidate !in w.tags && Number(t).Some?
    ensures Extends(w, t)
  {
    hide CandidateNumber;
  }

  lemma PlannedExtends(c: Config, w: World)
    requires Numbered(c, w) && w.position.Planned? && (w.disk.Some? ==> w.disk.value.intent.None?)
    ensures Extends(w, w.position.next)
  {
    hide CandidateNumber, SelectStep, DiagnosticStep, InTable, PromotionMatches, History, NextCandidate;
    var next, repo := w.position.next, w.position.repo;
    if w.disk.None? {
      SelectionIsFresh(repo, w.tags);
      SelectionStarts(repo, c);
      SelectedExtends(w, next);
    } else {
      var s := w.disk.value;
      PlannedIntentFollows(c, w);
      PlanIsFresh(s, repo, c, w.tags);
      if Selects(next) {
        SelectedExtends(w, next);
      }
    }
  }

  lemma PlanIsFresh(s: DriverState, repo: Snapshot, c: Config, tags: map<string, string>)
    requires s.intent.None? && CandidateOk(s, tags) && Shows(repo, tags)
    requires SnapshotFits(Some(s), repo) && NextStep(Some(s), repo, c).Act?
    ensures var t := WithIntent(Some(s), NextStep(Some(s), repo, c).step);
      && CandidateOk(t, tags)
      && (Selects(t) ==> s.phase.Closed? && JustSelected(t) && t.candidate !in tags)
      && (!Selects(t) ==> t == s.(intent := t.intent))
  {
    hide CandidateNumber, SelectStep, DiagnosticStep, NextCandidate, PhaseStep;
    PlannedStepInTable(s, repo, c);
    var step := NextStep(Some(s), repo, c).step;
    if step.operation.Select? {
      ClosedPlansSelection(s, repo, c);
      SelectionIsFresh(repo, tags);
    } else if step.operation.Rerequest? {
      DiagnosedPlansRetry(s, repo, c);
      RetryIsFresh(s, repo, tags);
    }
  }

  lemma ClosedPlansSelection(s: DriverState, repo: Snapshot, c: Config)
    requires s.phase.Closed? && s.intent.None? && SnapshotFits(Some(s), repo)
    requires NextStep(Some(s), repo, c).Act?
    ensures SelectStep(repo) == NextStep(Some(s), repo, c)
  {
    hide SelectStep;
  }

  lemma DiagnosedPlansRetry(s: DriverState, repo: Snapshot, c: Config)
    requires s.phase.DiagnosticRequired? && s.intent.None? && SnapshotFits(Some(s), repo)
    requires NextStep(Some(s), repo, c).Act?
    ensures DiagnosticStep(s, repo) == NextStep(Some(s), repo, c)
  {
    hide DiagnosticStep;
  }

  /** What a settled intent leaves: the candidate and its tag, or the retry's new candidate. */
  predicate Settles(s: DriverState, t: DriverState, tags: map<string, string>) {
    && CandidateOk(t, tags) && t.intent.None? && t.sequence > s.sequence && t.version == s.version
    && t.announcement == Some(MarkerOf(t))
    && (t.candidate == s.candidate
        || (&& s.phase.DiagnosticRequired? && t.candidate !in tags && Higher(s.version, t.candidate, s.candidate)
            && t.issue.request != s.issue.request && Some(t.selectedMain) != s.failedMain))
  }

  lemma PlainCommitSettles(s: DriverState, tags: map<string, string>)
    requires StateOk(s) && CandidateOk(s, tags) && s.intent.Some? && s.intent.value.patch.NoPatch?
    requires TaggedAsPlanned(s, tags)
    ensures Settles(s, Commit(s, s.intent.value, NoPatch), tags)
  {
    hide CandidateNumber;
  }

  lemma PatchCommitSettles(s: DriverState, tags: map<string, string>)
    requires StateOk(s) && CandidateOk(s, tags) && s.intent.Some? && !s.intent.value.patch.NoPatch?
    ensures Settles(s, Commit(s, s.intent.value, NoPatch), tags)
  {
    IntentCases(s, NoPatch);
    hide CandidateNumber, InTable, ResultFits;
  }

  lemma ResultCommitSettles(s: DriverState, result: Patch, tags: map<string, string>)
    requires StateOk(s) && CandidateOk(s, tags) && s.intent.Some? && ResultFits(s.intent.value.operation, result)
    requires !result.NoPatch?
    ensures Settles(s, Commit(s, s.intent.value, result), tags)
  {
    IntentCases(s, result);
    hide CandidateNumber, InTable, ResultFits, PatchCase;
  }

  lemma CommitSettles(s: DriverState, result: Patch, tags: map<string, string>)
    requires StateOk(s) && CandidateOk(s, tags) && s.intent.Some? && ResultFits(s.intent.value.operation, result)
    requires TaggedAsPlanned(s, tags)
    ensures Settles(s, Commit(s, s.intent.value, result), tags)
  {
    hide StateOk, CandidateOk, TaggedAsPlanned, ResultFits, Settles, Commit;
    if !result.NoPatch? {
      ResultCommitSettles(s, result, tags);
    } else if s.intent.value.patch.NoPatch? {
      PlainCommitSettles(s, tags);
    } else {
      PatchCommitSettles(s, tags);
    }
  }

  lemma HoldSettles(s: DriverState, reason: HoldReason, commit: Option<string>, tags: map<string, string>)
    requires StateOk(s) && CandidateOk(s, tags) && s.intent.Some?
    ensures Settles(s, Commit(s, HoldDecision(reason, commit), NoPatch), tags)
  {
    hide CandidateNumber;
  }

  lemma SettledExtends(c: Config, w: World, t: DriverState)
    requires Numbered(c, w) && w.disk.Some? && w.disk.value.intent.Some? && Settles(w.disk.value, t, w.tags)
    ensures Extends(w, t)
  {
    hide CandidateNumber, InTable, PromotionMatches, History;
    DiskOk(c, w);
    var s := w.disk.value;
    assert w.saves[|w.saves| - 1] == s;
    if t.candidate != s.candidate {
      assert s.candidate in w.tags;
    }
  }

  lemma QuietExtends(c: Config, w: World, t: DriverState)
    requires Numbered(c, w) && w.disk.Some? && t.intent.None? && t.announcement.None?
    requires t == w.disk.value.(intent := None, announcement := None)
    ensures Extends(w, t)
  {
    hide CandidateNumber, InTable, PromotionMatches, History;
    assert w.saves[|w.saves| - 1] == w.disk.value;
  }

  /** Saving a state that extends the history keeps the numbering. */
  lemma SaveKeepsNumbered(c: Config, w: World, v: World)
    requires Numbered(c, w) && Sound(c, v) && v.disk.Some?
    requires !v.position.Posted? && !v.position.Planned? && !v.position.Performed?
    requires v == Save(w, v.disk.value).(position := v.position)
    requires w.disk != v.disk ==> Extends(w, v.disk.value)
    ensures Numbered(c, v)
  {
    hide CandidateOk, RetryAdvances, Sound;
    if w.disk != v.disk {
      assert Sound(c, w);
      DiskIsLast(c, w);
      AppendExtends(w, v.disk.value);
      MarkersOfSave(w.saves, v.disk.value);
    }
  }

  lemma SettledKeepsNumbered(c: Config, w: World, t: DriverState)
    requires Numbered(c, w) && w.disk.Some? && w.disk.value.intent.Some? && Settles(w.disk.value, t, w.tags)
    requires Sound(c, Commits(w, t))
    ensures Numbered(c, Commits(w, t))
  {
    hide CandidateOk, RetryAdvances, Sound, StateOk, Extends, MarkersBehind, Distinct, Markers, Numbered;
    NumberedFacts(c, w);
    DiskOk(c, w);
    IntentHasNoComment(w.disk.value);
    SettledExtends(c, w, t);
    SaveKeepsNumbered(c, w, Commits(w, t));
  }

  lemma IntentHasNoComment(s: DriverState)
    requires StateOk(s) && s.intent.Some?
    ensures s.announcement.None?
  {
    hide InTable;
  }

  lemma ReturnedKeepsNumbered(c: Config, w: World)
    requires Numbered(c, w) && w.position.Performed? && w.position.outcome.Returned?
    ensures Numbered(c, FinishStep(w))
  {
    hide CandidateOk, RetryAdvances, Sound, Commit, StateOk, Settles, Numbered, NextStep, InTable, TaggedAsPlanned;
    NumberedFacts(c, w);
    DiskIsLast(c, w);
    DiskOk(c, w);
    FinishKeepsSound(c, w);
    PerformedFits(c, w);
    var s := w.position.intended;
    CommitSettles(s, w.position.outcome.result, w.tags);
    SettledKeepsNumbered(c, w, Commit(s, s.intent.value, w.position.outcome.result));
  }

  lemma HeldKeepsNumbered(c: Config, w: World)
    requires Numbered(c, w) && w.position.Performed? && w.position.outcome.HeldBy?
    ensures Numbered(c, FinishStep(w))
  {
    hide CandidateOk, RetryAdvances, Sound, Commit, HoldDecision, StateOk, Settles, Numbered, NextStep, InTable;
    NumberedFacts(c, w);
    DiskIsLast(c, w);
    DiskOk(c, w);
    FinishKeepsSound(c, w);
    var s, reason, commit := w.position.intended, w.position.outcome.reason, w.position.outcome.commit;
    HoldSettles(s, reason, commit, w.tags);
    SettledKeepsNumbered(c, w, Commit(s, HoldDecision(reason, commit), NoPatch));
  }

  lemma FinishKeepsNumbered(c: Config, w: World)
    requires Numbered(c, w)
    ensures Numbered(c, FinishStep(w))
  {
    hide Numbered, FinishStep;
    if !w.position.Performed? {
      NothingFinished(w);
      return;
    }
    match w.position.outcome
    case Returned(_) => ReturnedKeepsNumbered(c, w);
    case HeldBy(_, _) => HeldKeepsNumbered(c, w);
    case Stale => DroppedKeepsNumbered(c, w);
    case Threw => ThrownKeepsNumbered(c, w);
  }

  lemma NothingFinished(w: World)
    requires !w.position.Performed?
    ensures FinishStep(w) == w
  {
  }

  lemma ThrownKeepsNumbered(c: Config, w: World)
    requires Numbered(c, w) && w.position.Performed? && w.position.outcome.Threw?
    ensures Numbered(c, FinishStep(w))
  {
    hide Numbered;
    InterruptKeepsNumbered(c, w);
  }

  lemma DroppedKeepsNumbered(c: Config, w: World)
    requires Numbered(c, w) && w.position.Performed? && w.position.outcome.Stale?
    ensures Numbered(c, FinishStep(w))
  {
    hide CandidateOk, RetryAdvances, Sound, StateOk, Extends, MarkersBehind, Distinct, Markers, Numbered, NextStep;
    NumberedFacts(c, w);
    DiskIsLast(c, w);
    FinishKeepsSound(c, w);
    QuietExtends(c, w, w.disk.value.(intent := None));
    SaveKeepsNumbered(c, w, FinishStep(w));
  }

  lemma NumberedFacts(c: Config, w: World)
    requires Numbered(c, w)
    ensures Sound(c, w) && (w.disk.Some? ==> CandidateOk(w.disk.value, w.tags))
    ensures w.position.Performed? && w.position.outcome.Returned? && w.disk.Some? ==> TaggedAsPlanned(w.disk.value, w.tags)
    ensures w.position.Planned? ==> Shows(w.position.repo, w.tags)
  {
    hide CandidateOk, RetryAdvances, Sound, Markers;
  }

  lemma PerformedFits(c: Config, w: World)
    requires Sound(c, w) && w.position.Performed? && w.position.outcome.Returned?
    ensures ResultFits(w.position.intended.intent.value.operation, w.position.outcome.result)
    ensures w.position.intended.intent.Some?
  {
    hide InTable, PromotionMatches, NextStep, ResultFits;
  }

  lemma InterruptKeepsNumbered(c: Config, w: World)
    requires Numbered(c, w)
    ensures Numbered(c, Interrupt(w))
  {
    hide CandidateOk, RetryAdvances, MarkersBehind, Distinct, Markers, InTable, PromotionMatches, History;
  }

  lemma SaveIntentKeepsNumbered(c: Config, w: World)
    requires Numbered(c, w)
    ensures Numbered(c, SaveIntentStep(w))
  {
    if !w.position.Planned? { return; }
    hide CandidateOk, RetryAdvances, Sound, StateOk, Extends, MarkersBehind, Distinct, Markers, Numbered, NextStep;
    NumberedFacts(c, w);
    DiskIsLast(c, w);
    SaveIntentKeepsSound(c, w);
    PlannedIntentFollows(c, w);
    if w.disk.None? || w.disk.value.intent.None? {
      PlannedExtends(c, w);
    } else {
      DiskOk(c, w);
      PlannedAgain(c, w);
    }
    SaveKeepsNumbered(c, w, SaveIntentStep(w));
  }

  lemma PlannedAgain(c: Config, w: World)
    requires Sound(c, w) && w.position.Planned? && w.disk.Some? && w.disk.value.intent.Some?
    ensures w.disk == Some(w.position.next)
  {
    hide InTable, PromotionMatches, PhaseStep;
    DiskOk(c, w);
    IntentIsIdempotent(w.disk.value);
  }

  lemma ClearKeepsNumbered(c: Config, w: World)
    requires Numbered(c, w)
    ensures Numbered(c, ClearAnnouncementStep(w))
  {
    if !w.position.Posted? { return; }
    hide CandidateOk, RetryAdvances, Sound, Extends, MarkersBehind, Distinct, Markers, Numbered, InTable;
    NumberedFacts(c, w);
    DiskIsLast(c, w);
    DiskOk(c, w);
    ClearKeepsSound(c, w);
    QuietExtends(c, w, w.position.committed.(announcement := None));
    SaveKeepsNumbered(c, w, ClearAnnouncementStep(w));
  }

  lemma PostKeepsNumbered(c: Config, w: World)
    requires Numbered(c, w)
    ensures Numbered(c, PostStep(w))
  {
    hide CandidateOk, RetryAdvances, Sound, MarkersBehind, Distinct, Markers;
    DiskIsLast(c, w);
    PostKeepsSound(c, w);
  }

  lemma PerformKeepsNumbered(c: Config, w: World, env: Env)
    requires Numbered(c, w)
    ensures Numbered(c, PerformStep(c, w, env))
  {
    if !w.position.Performing? { return; }
    hide RetryAdvances, Sound, StateOk, MarkersBehind, Distinct, Markers, Attempt, CandidateOk, TaggedAsPlanned, ApplyPatch;
    DiskIsLast(c, w);
    DiskOk(c, w);
    PerformKeepsSound(c, w, env);
    var s := w.position.intended;
    TagsGrow(c, s, env, w.tags);
    GrowthKeepsMarkers(Markers(w.saves), s, w.tags, PerformStep(c, w, env).tags);
  }

  lemma GrowthKeepsMarkers(markers: seq<Marker>, s: DriverState, tags: map<string, string>, after: map<string, string>)
    requires MarkersBehind(markers, s, tags) && forall t :: t in tags ==> t in after
    ensures MarkersBehind(markers, s, after)
  {
  }

  /** Performing an intent only adds tags; it adds none before a retry, and the candidate's own when tagging it. */
  lemma TagsGrow(c: Config, s: DriverState, env: Env, tags: map<string, string>)
    requires StateOk(s) && CandidateOk(s, tags) && s.intent.Some?
    ensures var (outcome, after, _) := Attempt(c, ApplyPatch(s, s.intent.value.patch), s.intent.value, env, tags);
      && (forall t :: t in tags ==> t in after) && CandidateOk(s, after)
      && (outcome.Returned? ==> TaggedAsPlanned(s, after))
  {
    hide CandidateNumber, PromotionHold, MergeApproveOutcome, MergeOutcome, MergedCommit, FromVerdict;
  }

  lemma SnapKeepsNumbered(c: Config, w: World, repo: Snapshot)
    requires Numbered(c, w) && Shows(repo, w.tags)
    ensures Numbered(c, SnapStep(c, w, repo))
  {
    hide RetryAdvances, Sound, MarkersBehind, Distinct, Markers, CandidateOk, NextStep;
    DiskIsLast(c, w);
    SnapKeepsSound(c, w, repo);
  }

  lemma NextKeepsNumbered(c: Config, w: World, e: Event)
    requires Numbered(c, w) && (e.Snap? ==> Shows(e.repo, w.tags))
    ensures Numbered(c, Next(c, w, e))
  {
    hide RetryAdvances, MarkersBehind, Distinct, Markers, CandidateOk, NextStep, InTable, PromotionMatches, History,
         SnapStep, PerformStep, FinishStep, SaveIntentStep, PostStep, ClearAnnouncementStep;
    match e
    case SaveIntent => SaveIntentKeepsNumbered(c, w);
    case Finish => FinishKeepsNumbered(c, w);
    case Perform(env) => PerformKeepsNumbered(c, w, env);
    case ClearAnnouncement => ClearKeepsNumbered(c, w);
    case Snap(repo) => SnapKeepsNumbered(c, w, repo);
    case PostComment => PostKeepsNumbered(c, w);
    case Crash => InterruptKeepsNumbered(c, w);
    case Load =>
  }

  lemma {:induction false} RunIsNumbered(c: Config, events: seq<Event>)
    requires TagsKept(c, INITIAL, events)
    ensures Numbered(c, Run(c, INITIAL, events))
  {
    if events != [] {
      hide Numbered;
      RunIsNumbered(c, events[..|events| - 1]);
      NextKeepsNumbered(c, Run(c, INITIAL, events[..|events| - 1]), events[|events| - 1]);
    }
  }

  /**
   With visible tags a selection never takes a used candidate again, so no two commits share a marker, and every
   comment called for is posted, in order, but perhaps the pending one.
   */
  lemma VisibleTagsKeepMarkersApart(c: Config, events: seq<Event>)
    requires TagsKept(c, INITIAL, events)
    ensures var w := Run(c, INITIAL, events); var markers := Markers(w.saves);
      && Distinct(markers) && w.posted <= markers && |markers| <= |w.posted| + 1
      && (Pending(w).None? ==> w.posted == markers)
  {
    hide CandidateOk, RetryAdvances, Sound, MarkersBehind, Number, Run, Markers, Once;
    RunIsNumbered(c, events);
    CommentsPostedOnceInOrder(c, events);
    var markers := Markers(Run(c, INITIAL, events).saves);
    OnceIsAllIffDistinct(markers);
    if markers != [] {
      DistinctFront(markers);
      OnceIsAllIffDistinct(markers[..|markers| - 1]);
    }
  }

  lemma DistinctFront(markers: seq<Marker>)
    requires Distinct(markers) && markers != []
    ensures Distinct(markers[..|markers| - 1])
  {
  }

  lemma {:induction false} VersionKept(saves: seq<DriverState>, i: int, j: int)
    requires History(saves) && SameRelease(saves, i, j)
    requires forall k :: 0 < k < |saves| ==> RetryAdvances(saves, k)
    requires Number(saves[i]).Some?
    ensures Number(saves[j]).Some? && Number(saves[j]).value >= Number(saves[i]).value
    ensures saves[j].candidate != saves[i].candidate ==> Number(saves[j]).value > Number(saves[i]).value
    ensures saves[j].version == saves[i].version
    decreases j
  {
    hide CandidateNumber, StateOk, StepAt;
    if i < j {
      VersionKept(saves, i, j - 1);
      assert RetryAdvances(saves, j);
    }
  }

  lemma DiagnosedHasMain(s: DriverState)
    requires StateOk(s) && s.phase.DiagnosticRequired?
    ensures s.failedMain.Some?
  {
    hide InTable;
  }

  ghost predicate NumberedHistory(saves: seq<DriverState>) {
    && History(saves)
    && (forall i :: 0 <= i < |saves| ==> Number(saves[i]).Some?)
    && (forall i :: 0 < i < |saves| ==> RetryAdvances(saves, i))
  }

  lemma RunHasNumberedHistory(c: Config, events: seq<Event>)
    requires TagsKept(c, INITIAL, events)
    ensures NumberedHistory(Run(c, INITIAL, events).saves)
  {
    hide CandidateOk, RetryAdvances, MarkersBehind, Number, History, PositionFits;
    RunIsNumbered(c, events);
  }

  /** Save j changed the candidate of save j - 1: a retry, after a diagnosed failure. */
  predicate RetriedAfterFix(s: DriverState, t: DriverState) {
    && s.phase.DiagnosticRequired? && s.failedMain.Some? && t.issue.request != s.issue.request
    && Some(t.selectedMain) != s.failedMain
  }

  lemma RetryFollowsFix(saves: seq<DriverState>, j: int)
    requires NumberedHistory(saves) && 0 < j < |saves| && !Selects(saves[j]) && saves[j].candidate != saves[j - 1].candidate
    ensures RetriedAfterFix(saves[j - 1], saves[j])
  {
    hide CandidateNumber, StepAt;
    assert RetryAdvances(saves, j);
    DiagnosedHasMain(saves[j - 1]);
  }

  /**
   Candidates never repeat: within one release the prealpha number never falls, and a change of
   candidate is a retry that raises it, after a diagnosed failure, a new request and a changed main.
   */
  lemma CandidatesNeverRepeat(c: Config, events: seq<Event>, i: int, j: int)
    requires TagsKept(c, INITIAL, events) && SameRelease(Run(c, INITIAL, events).saves, i, j)
    ensures var saves := Run(c, INITIAL, events).saves;
      && Number(saves[i]).Some? && Number(saves[j]).Some? && Number(saves[i]).value <= Number(saves[j]).value
      && (saves[i].candidate != saves[j].candidate ==> Number(saves[i]).value < Number(saves[j]).value)
      && (i < j && saves[j].candidate != saves[j - 1].candidate ==> RetriedAfterFix(saves[j - 1], saves[j]))
  {
    hide CandidateNumber, RetryAdvances, History, RetriedAfterFix, Next;
    RunHasNumberedHistory(c, events);
    var saves := Run(c, INITIAL, events).saves;
    VersionKept(saves, i, j);
    if i < j && saves[j].candidate != saves[j - 1].candidate { RetryFollowsFix(saves, j); }
  }
}
