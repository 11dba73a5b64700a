/**
 How an upstream order may land, over whole runs of the release driver: scripts/release-driver.ts, lines 188-211.
 Every intent on file was planned for the save before it; once a release is held or past its order it never touches the
 order again before a retry or a new selection; and an order is merged only after the driver itself made it ready.
 */
module OrderLanding {
  import opened Wrappers
  import opened Versions
  import opened ReleasePolicy
  import opened ReleaseDriver
  import opened DriverRuns
  import opened DriverHistory
  import opened DriverSafety
  import opened PlanGuards

  predicate LandsOrder(step: Decision) { step.operation in {UpdateOrder, ReadyOrder, MergeOrder} }

  /** The phases in which an order can still be worked on. */
  predicate Landing(phase: Phase) { phase in {Selected, OrderUpdated, OrderReady, OrderLanded} }

  // Every saved intent was planned.

  /** The intent of t is what some snapshot made of s. */
  ghost predicate PlannedFrom(c: Config, s: DriverState, t: DriverState)
    requires t.intent.Some?
  {
    s.intent.None? && exists repo :: SnapshotFits(Some(s), repo) && NextStep(Some(s), repo, c) == Act(t.intent.value)
  }

  ghost predicate PlannedAt(c: Config, saves: seq<DriverState>, i: int)
    requires 0 < i < |saves|
  {
    saves[i].intent.Some? ==> PlannedFrom(c, saves[i - 1], saves[i])
  }

  ghost predicate AllPlanned(c: Config, saves: seq<DriverState>) {
    forall i :: 0 < i < |saves| ==> PlannedAt(c, saves, i)
  }

  lemma SaveKeepsPlanned(c: Config, w: World, s: DriverState)
    requires AllPlanned(c, w.saves) && w.disk == (if w.saves == [] then None else Some(w.saves[|w.saves| - 1]))
    requires w.disk == Some(s) || s.intent.None? || w.disk.None? || PlannedFrom(c, w.disk.value, s)
    ensures AllPlanned(c, Save(w, s).saves)
  {
    hide PlannedFrom;
    var saves := Save(w, s).saves;
    forall i | 0 < i < |saves|
      ensures PlannedAt(c, saves, i)
    {
      assert i < |w.saves| ==> PlannedAt(c, w.saves, i);
    }
  }

  lemma SaveIntentKeepsPlanned(c: Config, w: World)
    requires Sound(c, w) && AllPlanned(c, w.saves)
    ensures AllPlanned(c, SaveIntentStep(w).saves)
  {
    hide AllPlanned, NextStep, History;
    if !w.position.Planned? { return; }
    var next, repo := w.position.next, w.position.repo;
    if w.disk.Some? {
      if w.disk.value.intent.Some? {
        PlannedIntentFollows(c, w);
        AgainIsTheSame(c, w);
      } else {
        assert SnapshotFits(w.disk, repo) && NextStep(w.disk, repo, c) == Act(next.intent.value);
      }
    }
    SaveKeepsPlanned(c, w, next);
  }

  lemma AgainIsTheSame(c: Config, w: World)
    requires Sound(c, w) && w.position.Planned? && w.disk.Some? && w.disk.value.intent.Some?
    ensures w.disk == Some(w.position.next)
  {
    hide InTable, PromotionMatches;
    DiskOk(c, w);
    IntentIsIdempotent(w.disk.value);
  }

  lemma FinishKeepsPlanned(c: Config, w: World)
    requires Sound(c, w) && AllPlanned(c, w.saves)
    ensures AllPlanned(c, FinishStep(w).saves)
  {
    hide AllPlanned, NextStep, History, Commit, HoldDecision;
    if !w.position.Performed? || w.position.intended.intent.None? { return; }
    var s, step := w.position.intended, w.position.intended.intent.value;
    match w.position.outcome
    case Returned(result) =>
      CommitAnnounces(s, step, result);
      SaveKeepsPlanned(c, w, Commit(s, step, result));
    case HeldBy(reason, commit) =>
      CommitAnnounces(s, HoldDecision(reason, commit), NoPatch);
      SaveKeepsPlanned(c, w, Commit(s, HoldDecision(reason, commit), NoPatch));
    case Stale => SaveKeepsPlanned(c, w, s.(intent := None));
    case Threw =>
  }

  lemma ClearKeepsPlanned(c: Config, w: World)
    requires Sound(c, w) && AllPlanned(c, w.saves)
    ensures AllPlanned(c, ClearAnnouncementStep(w).saves)
  {
    hide AllPlanned, NextStep, History, InTable;
    if !w.position.Posted? { return; }
    DiskOk(c, w);
    SaveKeepsPlanned(c, w, w.position.committed.(announcement := None));
  }

  lemma NextKeepsPlanned(c: Config, w: World, e: Event)
    requires Sound(c, w) && AllPlanned(c, w.saves)
    ensures AllPlanned(c, Next(c, w, e).saves)
  {
    hide AllPlanned, Sound, NextStep, Attempt, SaveIntentStep, FinishStep, ClearAnnouncementStep;
    match e
    case SaveIntent => SaveIntentKeepsPlanned(c, w);
    case Finish => FinishKeepsPlanned(c, w);
    case ClearAnnouncement => ClearKeepsPlanned(c, w);
    case Crash | Load | Snap(_) | Perform(_) | PostComment =>
  }

  /** Whatever the snapshots and crashes, every intent on file but the first was planned for the save before it. */
  lemma {:induction false} RunIsPlanned(c: Config, events: seq<Event>)
    ensures AllPlanned(c, Run(c, INITIAL, events).saves)
  {
    hide Next, Sound;
    if events != [] {
      RunIsPlanned(c, events[..|events| - 1]);
      RunIsSound(c, events[..|events| - 1]);
      NextKeepsPlanned(c, Run(c, INITIAL, events[..|events| - 1]), events[|events| - 1]);
    }
  }

  // No order is touched once the release is held or past it.

  /** What made an order operation due. */
  lemma LandingPlan(c: Config, s: DriverState, t: DriverState)
    requires t.intent.Some? && PlannedFrom(c, s, t) && LandsOrder(t.intent.value)
    ensures var step := t.intent.value;
      && Landing(s.phase) && step.pr.Some? && Landable(s, step.pr.value)
      && (step.operation.MergeOrder? ==> !step.pr.value.draft && !step.pr.value.behind)
  {
    var repo :| SnapshotFits(Some(s), repo) && NextStep(Some(s), repo, c) == Act(t.intent.value);
    PlanIsExact(s, repo, c, t.intent.value.operation);
    hide NextStep, Landable, Baseline;
  }

  lemma HeldPlan(c: Config, s: DriverState, t: DriverState)
    requires t.intent.Some? && PlannedFrom(c, s, t) && s.phase.Held?
    ensures t.intent.value.operation.OpenPrepare?
  {
    var repo :| SnapshotFits(Some(s), repo) && NextStep(Some(s), repo, c) == Act(t.intent.value);
    hide OrderStep;
    if s.holdReason.None? { HeldOrder(s, repo); }
  }

  lemma HeldOrder(s: DriverState, repo: Snapshot)
    requires s.phase.Held? && OrderStep(s, repo).Act?
    ensures OrderStep(s, repo).step.operation.OpenPrepare?
  {
    hide Compare, ParseVersion, RequestVersion, IsOrder, OutsideOrderScope;
  }

  predicate PastLanding(s: DriverState) { !Landing(s.phase) && (s.intent.Some? ==> !LandsOrder(s.intent.value)) }

  lemma StepStaysPast(c: Config, s: DriverState, t: DriverState)
    requires StateOk(s) && DurableStep(s, t) && (t.intent.Some? ==> PlannedFrom(c, s, t))
    requires PastLanding(s) && !t.phase.Selected?
    ensures PastLanding(t)
  {
    hide PlannedFrom, Landable;
    if PlanStep(s, t) {
      if LandsOrder(t.intent.value) { LandingPlan(c, s, t); }
    } else if s.intent.Some? {
      SettlingStaysPast(s, t);
    }
    hide InTable, ResultFits;
  }

  lemma SettlingStaysPast(s: DriverState, t: DriverState)
    requires StateOk(s) && DurableStep(s, t) && s.intent.Some? && PastLanding(s)
    ensures t.intent.None? && (t.phase.Selected? || !Landing(t.phase))
  {
    IntentCases(s, NoPatch);
    hide ApplyPatch, ResultFits;
  }

  /**
   Once a release is held or past its order, no order is updated, made ready or merged before a retry or a new
   selection, however the snapshots change; and a held release goes on by preparing the release and by nothing else.
   */
  lemma {:induction false} NoLandingAfter(c: Config, events: seq<Event>, i: int, j: int)
    requires var saves := Run(c, INITIAL, events).saves; SameAttempt(saves, i, j) && !Landing(saves[i].phase)
    ensures var s := Run(c, INITIAL, events).saves[j];
      && !Landing(s.phase)
      && (s.intent.Some? ==> !LandsOrder(s.intent.value) && (s.phase.Held? ==> s.intent.value.operation.OpenPrepare?))
    decreases j
  {
    RunIsSound(c, events);
    RunIsPlanned(c, events);
    var saves := Run(c, INITIAL, events).saves;
    StaysPast(c, saves, i, j);
    if saves[j].intent.Some? && saves[j].phase.Held? { HeldIntent(c, saves, j); }
  }

  lemma HeldIntent(c: Config, saves: seq<DriverState>, j: int)
    requires History(saves) && AllPlanned(c, saves) && 0 <= j < |saves| && saves[j].phase.Held? && saves[j].intent.Some?
    ensures saves[j].intent.value.operation.OpenPrepare?
  {
    hide InTable, PlannedFrom;
    if j > 0 {
      assert PlannedAt(c, saves, j) && StepAt(saves, j);
      HeldPlan(c, saves[j - 1], saves[j]);
    }
  }

  lemma PastFrom(c: Config, saves: seq<DriverState>, i: int)
    requires History(saves) && AllPlanned(c, saves) && 0 <= i < |saves| && !Landing(saves[i].phase)
    ensures PastLanding(saves[i])
  {
    hide InTable, PlannedFrom, Landable;
    if i > 0 && saves[i].intent.Some? && LandsOrder(saves[i].intent.value) {
      assert PlannedAt(c, saves, i) && StepAt(saves, i);
      LandingPlan(c, saves[i - 1], saves[i]);
    }
  }

  lemma {:induction false} StaysPast(c: Config, saves: seq<DriverState>, i: int, j: int)
    requires History(saves) && AllPlanned(c, saves) && SameAttempt(saves, i, j) && !Landing(saves[i].phase)
    ensures PastLanding(saves[j])
    decreases j
  {
    hide StateOk, DurableStep, PlannedFrom;
    if i == j {
      PastFrom(c, saves, i);
    } else {
      StaysPast(c, saves, i, j - 1);
      assert StepAt(saves, j) && PlannedAt(c, saves, j);
      StepStaysPast(c, saves[j - 1], saves[j]);
    }
  }

  // An order is merged only after the driver made it ready.

  /** t is the commit by which the driver made pull request n ready, from the intent s. */
  ghost predicate Readies(s: DriverState, t: DriverState, n: nat) {
    && s.intent.Some? && s.intent.value.operation.ReadyOrder? && s.intent.value.patch == OrderPrPatch(n)
    && CommitStep(s, t) && t.phase.OrderReady? && t.orderPr == Some(n)
  }

  /** The order's number starts out empty, and only a ready-order commit sets it. */
  lemma StepKeepsOrder(s: DriverState, t: DriverState)
    requires StateOk(s) && DurableStep(s, t) && (s.phase.Selected? ==> s.orderPr.None?)
    ensures t.phase.Selected? ==> t.orderPr.None?
    ensures t.orderPr.None? || t.orderPr == s.orderPr || Readies(s, t, t.orderPr.value)
  {
    if CommitStep(s, t) {
      var result :| ResultFits(s.intent.value.operation, result) && t == Commit(s, s.intent.value, result);
      CommitKeepsOrder(s, result);
    } else {
      hide InTable, ResultFits, CommitStep;
    }
  }

  lemma CommitKeepsOrder(s: DriverState, result: Patch)
    requires StateOk(s) && s.intent.Some? && ResultFits(s.intent.value.operation, result)
    requires s.phase.Selected? ==> s.orderPr.None?
    ensures var t := Commit(s, s.intent.value, result);
      && (t.phase.Selected? ==> t.orderPr.None?)
      && (t.orderPr.None? || t.orderPr == s.orderPr || Readies(s, t, t.orderPr.value))
  {
  }

  /** Save i made n ready, in the attempt save j belongs to. */
  ghost predicate ReadiedAt(saves: seq<DriverState>, i: int, j: int, n: nat) {
    0 < i <= j < |saves| && SameAttempt(saves, i, j) && Readies(saves[i - 1], saves[i], n)
  }

  lemma {:induction false} OrderWasReadied(saves: seq<DriverState>, j: int)
    requires History(saves) && 0 <= j < |saves|
    ensures saves[j].phase.Selected? ==> saves[j].orderPr.None?
    ensures saves[j].orderPr.Some? ==> exists i :: ReadiedAt(saves, i, j, saves[j].orderPr.value)
  {
    hide StateOk, DurableStep, Readies;
    if j > 0 {
      OrderWasReadied(saves, j - 1);
      assert StepAt(saves, j);
      StepKeepsOrder(saves[j - 1], saves[j]);
      if saves[j].orderPr.Some? {
        var n := saves[j].orderPr.value;
        if saves[j].orderPr == saves[j - 1].orderPr {
          var i :| ReadiedAt(saves, i, j - 1, n);
          assert ReadiedAt(saves, i, j, n);
        } else {
          assert ReadiedAt(saves, j, j, n);
        }
      }
    }
  }

  /**
   Every saved intent to merge an order, and every one to update an order that is no longer a draft, is for a pull
   request the same attempt made ready before, and one that was open, in scope, checked and by the order's author.
   */
  lemma MergedOrderWasReadied(c: Config, events: seq<Event>, j: int)
    requires var saves := Run(c, INITIAL, events).saves;
      && 0 <= j < |saves| && saves[j].intent.Some? && LandsOrder(saves[j].intent.value)
    ensures var saves := Run(c, INITIAL, events).saves; var step := saves[j].intent.value;
      && step.pr.Some? && IsOrder(step.pr.value) && step.pr.value.open && step.pr.value.checksPassed
      && !OutsideOrderScope(step.pr.value)
      && (step.operation.MergeOrder? ==> !step.pr.value.draft && !step.pr.value.behind)
      && (!step.pr.value.draft ==> exists i :: ReadiedAt(saves, i, j, step.pr.value.number))
  {
    hide Run, StateOk, DurableStep, Readies, PlannedFrom, IsOrder, OutsideOrderScope;
    RunIsSound(c, events);
    RunIsPlanned(c, events);
    var saves := Run(c, INITIAL, events).saves;
    assert j > 0 && PlannedAt(c, saves, j) && StepAt(saves, j);
    LandingPlan(c, saves[j - 1], saves[j]);
    OrderWasReadied(saves, j);
    IntentKeepsOrder(saves[j - 1], saves[j]);
  }

  lemma IntentKeepsOrder(s: DriverState, t: DriverState)
    requires StateOk(s) && DurableStep(s, t) && t.intent.Some? && LandsOrder(t.intent.value)
    ensures t.orderPr == s.orderPr
  {
  }
}
