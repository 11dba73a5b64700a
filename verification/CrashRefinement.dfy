/**
 A crash changes nothing that lasts: every run with crashes writes the same state-file history and
 posts the same comments as a run of the same driver that was never interrupted.
 */
module CrashRefinement {
  import opened Wrappers
  import opened ReleasePolicy
  import opened ReleaseDriver
  import opened DriverRuns
  import opened DriverHistory

  /** Where the uninterrupted driver waits: straight after the last save the other run has made. */
  predicate Waits(w: World, v: World) {
    if v.disk.None? then v.position.Down?
    else if v.disk.value.intent.Some? then v.position == Performing(v.disk.value)
    else if v.disk.value.announcement.Some? then
      || (v.position == Outbox(v.disk.value) && !w.position.Posted?)
      || (v.position == Posted(v.disk.value) && v.disk.value.announcement.value in v.posted)
    else v.position.Down?
  }

  /** An effect that was performed but not yet committed has the same outcome when it is performed again. */
  predicate SameOutcome(c: Config, w: World, v: World) {
    w.position.Performed? && !w.position.outcome.Threw? && w.position.intended.intent.Some? ==>
      var s := w.position.intended;
      Attempt(c, ApplyPatch(s, s.intent.value.patch), s.intent.value, w.position.env, v.tags).0 == w.position.outcome
  }

  /** Tags the uninterrupted run has pushed were pushed by the other run, to the same commits. */
  predicate TagsWithin(v: map<string, string>, w: map<string, string>) {
    forall t :: t in v ==> t in w && v[t] == w[t]
  }

  ghost predicate Simulates(c: Config, w: World, v: World) {
    && Sound(c, w) && Sound(c, v)
    && v.disk == w.disk && v.saves == w.saves && v.posted == w.posted && v.interruptions == 0
    && TagsWithin(v.tags, w.tags) && (w.position.Performed? ==> TagsAfter(c, w, v))
    && Waits(w, v) && SameOutcome(c, w, v)
  }

  predicate TagsAfter(c: Config, w: World, v: World)
    requires w.position.Performed?
  {
    var s := w.position.intended;
    s.intent.Some? && !w.position.outcome.Threw? ==>
      TagsWithin(Attempt(c, ApplyPatch(s, s.intent.value.patch), s.intent.value, w.position.env, v.tags).1, w.tags)
  }

  lemma TagAgain(v: map<string, string>, w: map<string, string>, name: string, commit: Option<string>, verdict: Verdict)
    requires TagsWithin(v, w)
    ensures TagsWithin(w, Tag(w, name, commit, verdict).1)
    ensures !Tag(w, name, commit, verdict).0.Threw? ==>
      && Tag(v, name, commit, verdict).0 == Tag(w, name, commit, verdict).0
      && TagsWithin(Tag(v, name, commit, verdict).1, Tag(w, name, commit, verdict).1)
  {
  }

  /** Every other operation ends the same whatever is tagged, and tags nothing. */
  lemma UntaggedAttempt(c: Config, s: DriverState, step: Decision, env: Env, tags: map<string, string>)
    requires !step.operation.TagCandidate? && !step.operation.TagStable?
    ensures Attempt(c, s, step, env, tags).0 == Attempt(c, s, step, env, map[]).0
    ensures Attempt(c, s, step, env, tags).1 == tags
  {
    hide RoutineSourceHold, MergeApproveOutcome, MergeOutcome, MergedCommit, FromVerdict;
  }

  /** Performing again with fewer tags: the effect it had the first time is the effect it has again. */
  predicate Again(c: Config, s: DriverState, step: Decision, env: Env, v: map<string, string>, w: map<string, string>) {
    && TagsWithin(w, Attempt(c, s, step, env, w).1)
    && (!Attempt(c, s, step, env, w).0.Threw? ==>
        && Attempt(c, s, step, env, v).0 == Attempt(c, s, step, env, w).0
        && TagsWithin(Attempt(c, s, step, env, v).1, Attempt(c, s, step, env, w).1))
  }

  lemma CandidateAgain(c: Config, s: DriverState, step: Decision, env: Env, v: map<string, string>, w: map<string, string>)
    requires TagsWithin(v, w) && step.operation.TagCandidate?
    ensures Again(c, s, step, env, v, w)
  {
    hide Tag, PromotionHold, RoutineSourceHold;
    TagAgain(v, w, s.candidate, s.candidateCommit, env.verdict);
  }

  lemma StableAgain(c: Config, s: DriverState, step: Decision, env: Env, v: map<string, string>, w: map<string, string>)
    requires TagsWithin(v, w) && step.operation.TagStable?
    ensures Again(c, s, step, env, v, w)
  {
    hide Tag, PromotionHold, RoutineSourceHold;
    TagAgain(v, w, "v" + s.version, s.stableCommit, env.verdict);
  }

  lemma AttemptAgain(c: Config, s: DriverState, step: Decision, env: Env, v: map<string, string>, w: map<string, string>)
    requires TagsWithin(v, w)
    ensures Again(c, s, step, env, v, w)
  {
    hide Attempt;
    match step.operation
    case TagCandidate => CandidateAgain(c, s, step, env, v, w);
    case TagStable => StableAgain(c, s, step, env, v, w);
    case _ =>
      UntaggedAttempt(c, s, step, env, v);
      UntaggedAttempt(c, s, step, env, w);
  }

  /** What the uninterrupted driver does while the other run takes event e: nothing until a save is due. */
  function Answer(w: World, v: World, e: Event): seq<Event> {
    match e
    case SaveIntent =>
      if w.position.Planned? && (w.disk.None? || w.disk.value.intent.None?) then [Load, Snap(w.position.repo), SaveIntent] else []
    case Finish =>
      if w.position.Performed? && !w.position.outcome.Threw? then [Perform(w.position.env), Finish] else []
    case PostComment => if v.position.Outbox? && (w.position.Loaded? || w.position.Outbox?) then [PostComment] else []
    case ClearAnnouncement => if w.position.Posted? then [ClearAnnouncement] else []
    case _ => []
  }

  predicate CrashFree(events: seq<Event>) { forall e :: e in events ==> !e.Crash? }

  lemma Run1(c: Config, w: World, a: Event)
    ensures Run(c, w, [a]) == Next(c, w, a)
  {
    hide Next;
    assert [a][..0] == [];
  }

  lemma Run2(c: Config, w: World, a: Event, b: Event)
    ensures Run(c, w, [a, b]) == Next(c, Next(c, w, a), b)
  {
    hide Next;
    assert [a, b][..1] == [a];
    Run1(c, w, a);
  }

  lemma Run3(c: Config, w: World, a: Event, b: Event, d: Event)
    ensures Run(c, w, [a, b, d]) == Next(c, Next(c, Next(c, w, a), b), d)
  {
    hide Next;
    assert [a, b, d][..2] == [a, b];
    Run2(c, w, a, b);
  }

  /** Everything of `Simulates` but the two runs' own soundness. */
  predicate InStep(c: Config, w: World, v: World) {
    && v.disk == w.disk && v.saves == w.saves && v.posted == w.posted && v.interruptions == 0
    && TagsWithin(v.tags, w.tags) && (w.position.Performed? ==> TagsAfter(c, w, v))
    && Waits(w, v) && SameOutcome(c, w, v)
  }

  lemma SaveIntentAnswered(c: Config, w: World, v: World)
    requires Simulates(c, w, v)
    ensures InStep(c, SaveIntentStep(w), Run(c, v, Answer(w, v, SaveIntent)))
  {
    hide InTable, ApplyPatch, NextStep, PromotionMatches, Attempt, History, StateOk;
    if !w.position.Planned? { return; }
    PlannedIntentFollows(c, w);
    if w.disk.Some? && w.disk.value.intent.Some? {
      DiskOk(c, w);
      IntentIsIdempotent(w.disk.value);
    } else {
      var repo := w.position.repo;
      Run3(c, v, Load, Snap(repo), SaveIntent);
      var v1 := v.(position := Loaded(v.disk));
      assert SnapStep(c, v1, repo).position == w.position;
    }
  }

  lemma FinishAnswered(c: Config, w: World, v: World)
    requires Simulates(c, w, v)
    ensures InStep(c, FinishStep(w), Run(c, v, Answer(w, v, Finish)))
  {
    hide InTable, ApplyPatch, NextStep, PromotionMatches, Attempt, History, Commit, HoldDecision;
    if !w.position.Performed? { return; }
    DiskOk(c, w);
    assert w.position.intended.announcement.None?;
    if !w.position.outcome.Threw? {
      var env := w.position.env;
      Run2(c, v, Perform(env), Finish);
      hide StateOk, Sound, Run;
      var v1 := PerformStep(c, v, env);
      assert v1.position == w.position && v1.disk == w.disk && v1.saves == w.saves && v1.posted == w.posted
        && v1.interruptions == 0 && TagsWithin(v1.tags, w.tags);
      SameFinish(c, w, v1);
    }
  }

  lemma SameFinish(c: Config, w: World, v: World)
    requires w.position.Performed? && v.position == w.position && v.disk == w.disk && v.saves == w.saves
    requires v.posted == w.posted && v.interruptions == 0 && TagsWithin(v.tags, w.tags)
    requires w.position.intended.intent.Some? && w.position.intended.announcement.None? && !w.position.outcome.Threw?
    ensures InStep(c, FinishStep(w), FinishStep(v))
  {
    hide Commit, HoldDecision, Attempt, ApplyPatch;
    var s := w.position.intended;
    match w.position.outcome
    case Returned(result) => CommitAnnounces(s, s.intent.value, result);
    case HeldBy(reason, commit) => CommitAnnounces(s, HoldDecision(reason, commit), NoPatch);
    case Stale =>
  }

  lemma PerformAnswered(c: Config, w: World, v: World, env: Env)
    requires Simulates(c, w, v)
    ensures InStep(c, PerformStep(c, w, env), v)
  {
    hide InTable, ApplyPatch, NextStep, PromotionMatches, Attempt, History, StateOk;
    if !w.position.Performing? { return; }
    var s := w.position.intended;
    AttemptAgain(c, ApplyPatch(s, s.intent.value.patch), s.intent.value, env, v.tags, w.tags);
  }

  lemma PostAnswered(c: Config, w: World, v: World)
    requires Simulates(c, w, v)
    ensures InStep(c, PostStep(w), Run(c, v, Answer(w, v, PostComment)))
  {
    hide InTable, ApplyPatch, NextStep, PromotionMatches, Attempt, History;
    if w.disk.Some? { DiskOk(c, w); }
    Run1(c, v, PostComment);
  }

  lemma ClearAnswered(c: Config, w: World, v: World)
    requires Simulates(c, w, v)
    ensures InStep(c, ClearAnnouncementStep(w), Run(c, v, Answer(w, v, ClearAnnouncement)))
  {
    hide InTable, ApplyPatch, NextStep, PromotionMatches, Attempt, History;
    if w.position.Posted? { DiskOk(c, w); }
    Run1(c, v, ClearAnnouncement);
  }

  lemma EventAnswered(c: Config, w: World, v: World, e: Event)
    requires Simulates(c, w, v)
    ensures InStep(c, Next(c, w, e), Run(c, v, Answer(w, v, e)))
  {
    hide InTable, ApplyPatch, NextStep, PromotionMatches, Attempt, History, StateOk, PerformStep, FinishStep;
    match e
    case SaveIntent => SaveIntentAnswered(c, w, v);
    case Finish => FinishAnswered(c, w, v);
    case Perform(env) => PerformAnswered(c, w, v, env);
    case PostComment => PostAnswered(c, w, v);
    case ClearAnnouncement => ClearAnswered(c, w, v);
    case Crash | Load | Snap(_) =>
  }

  lemma {:induction false} RunKeepsSound(c: Config, w: World, events: seq<Event>)
    requires Sound(c, w)
    ensures Sound(c, Run(c, w, events))
  {
    hide Sound, Next;
    if events != [] {
      RunKeepsSound(c, w, events[..|events| - 1]);
      NextKeepsSound(c, Run(c, w, events[..|events| - 1]), events[|events| - 1]);
    }
  }

  /** One history of the state file and of the issue, and v was never interrupted. */
  predicate SameHistory(w: World, v: World) {
    v.saves == w.saves && v.disk == w.disk && v.posted == w.posted && v.interruptions == 0
  }

  /**
   Crash refinement: whatever the crashes and failures, there is a run without a crash, in which no call
   ever broke off, that writes exactly the same history of the state file and posts the same comments.
   */
  lemma CrashesChangeNothing(c: Config, events: seq<Event>)
    ensures exists smooth :: CrashFree(smooth) && SameHistory(Run(c, INITIAL, events), Run(c, INITIAL, smooth))
  {
    hide Sound, Run, Attempt, CrashFree;
    var smooth := Smooth(c, events);
    assert CrashFree(smooth);
  }

  lemma SmoothStep(c: Config, w: World, v: World, e: Event)
    requires Simulates(c, w, v)
    ensures CrashFree(Answer(w, v, e)) && Simulates(c, Next(c, w, e), Run(c, v, Answer(w, v, e)))
  {
    hide Next, Sound, Run, Attempt, ApplyPatch;
    EventAnswered(c, w, v, e);
    NextKeepsSound(c, w, e);
    RunKeepsSound(c, v, Answer(w, v, e));
  }

  lemma StartSimulates(c: Config)
    ensures Simulates(c, INITIAL, INITIAL)
  {
    hide Attempt, InTable;
    RunIsSound(c, []);
  }

  lemma {:induction false} Smooth(c: Config, events: seq<Event>) returns (smooth: seq<Event>)
    ensures CrashFree(smooth) && Simulates(c, Run(c, INITIAL, events), Run(c, INITIAL, smooth))
  {
    hide Next, Simulates, Answer;
    if events == [] {
      smooth := [];
      StartSimulates(c);
    } else {
      var front, e := events[..|events| - 1], events[|events| - 1];
      var before := Smooth(c, front);
      var w, v := Run(c, INITIAL, front), Run(c, INITIAL, before);
      SmoothStep(c, w, v, e);
      RunAppend(c, INITIAL, before, Answer(w, v, e));
      smooth := before + Answer(w, v, e);
    }
  }
}
