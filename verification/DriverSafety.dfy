/**
 Safety of whole release-driver runs, whatever the snapshots, the replays and the crashes: an intent is
 carried out unchanged until it is settled, an approved subject and a stable commit never move, and at
 most one commit is ever signed for a selected release.
 */
module DriverSafety {
  import opened Wrappers
  import opened ReleasePolicy
  import opened ReleaseDriver
  import opened DriverRuns
  import opened DriverHistory

  predicate Selects(s: DriverState) { s.intent.Some? && s.intent.value.operation.Select? }

  /** No new release is selected after save i up to save j. */
  predicate SameRelease(saves: seq<DriverState>, i: int, j: int) {
    0 <= i <= j < |saves| && forall k :: i < k <= j ==> !Selects(saves[k])
  }

  /** No selection and no retry after save i up to save j: both lead through the selected phase. */
  predicate SameAttempt(saves: seq<DriverState>, i: int, j: int) {
    0 <= i <= j < |saves| && forall k :: i < k <= j ==> !saves[k].phase.Selected?
  }

  predicate KeepsStable(s: DriverState, t: DriverState) {
    !Selects(t) ==> t.version == s.version && (s.stableCommit.Some? ==> t.stableCommit == s.stableCommit)
  }

  predicate KeepsSubject(s: DriverState, t: DriverState) {
    s.approvedHead.Some? && !t.phase.Selected? ==> PromotionSubject(t) == PromotionSubject(s)
  }

  lemma CommitWithoutResultFreezes(s: DriverState)
    requires StateOk(s) && s.intent.Some? && ResultFits(s.intent.value.operation, NoPatch)
    ensures KeepsStable(s, Commit(s, s.intent.value, NoPatch)) && KeepsSubject(s, Commit(s, s.intent.value, NoPatch))
  {
  }

  lemma CommitWithResultFreezes(s: DriverState, result: Patch)
    requires StateOk(s) && s.intent.Some? && ResultFits(s.intent.value.operation, result) && !result.NoPatch?
    ensures KeepsStable(s, Commit(s, s.intent.value, result)) && KeepsSubject(s, Commit(s, s.intent.value, result))
  {
  }

  lemma CommitFreezes(s: DriverState, result: Patch)
    requires StateOk(s) && s.intent.Some? && ResultFits(s.intent.value.operation, result)
    ensures KeepsStable(s, Commit(s, s.intent.value, result)) && KeepsSubject(s, Commit(s, s.intent.value, result))
  {
    hide StateOk, KeepsStable, KeepsSubject, Commit;
    if result.NoPatch? { CommitWithoutResultFreezes(s); } else { CommitWithResultFreezes(s, result); }
  }

  lemma HoldFreezes(s: DriverState, reason: HoldReason, commit: Option<string>)
    requires StateOk(s) && s.intent.Some?
    ensures var t := Commit(s, HoldDecision(reason, commit), NoPatch); KeepsStable(s, t) && KeepsSubject(s, t)
  {
  }

  lemma DurableStepFreezes(s: DriverState, t: DriverState)
    requires StateOk(s) && DurableStep(s, t)
    ensures KeepsStable(s, t) && KeepsSubject(s, t)
  {
    if CommitStep(s, t) {
      var result :| ResultFits(s.intent.value.operation, result) && t == Commit(s, s.intent.value, result);
      CommitFreezes(s, result);
    } else if HoldStep(s, t) {
      var reason, commit :| t == Commit(s, HoldDecision(reason, commit), NoPatch);
      HoldFreezes(s, reason, commit);
    }
  }

  /** Once a release has a stable commit, it and the version stay until the next selection. */
  lemma {:induction false} StableCommitFrozen(saves: seq<DriverState>, i: int, j: int)
    requires History(saves) && SameRelease(saves, i, j)
    ensures saves[j].version == saves[i].version
    ensures saves[i].stableCommit.Some? ==> saves[j].stableCommit == saves[i].stableCommit
    decreases j
  {
    if i < j {
      StableCommitFrozen(saves, i, j - 1);
      assert StepAt(saves, j);
      DurableStepFreezes(saves[j - 1], saves[j]);
    }
  }

  /** From the start of the approve checks the whole promotion subject stays until a retry or a new selection. */
  lemma {:induction false} SubjectFrozen(saves: seq<DriverState>, i: int, j: int)
    requires History(saves) && SameAttempt(saves, i, j) && saves[i].approvedHead.Some?
    ensures PromotionSubject(saves[j]) == PromotionSubject(saves[i])
    decreases j
  {
    if i < j {
      SubjectFrozen(saves, i, j - 1);
      assert StepAt(saves, j);
      DurableStepFreezes(saves[j - 1], saves[j]);
    }
  }

  /** A stable commit exists only behind an approved promotion, and no retry follows it. */
  lemma StableStatesAreFinal(s: DriverState, t: DriverState)
    requires StateOk(s) && DurableStep(s, t) && s.stableCommit.Some? && !Selects(t)
    ensures !t.phase.Selected?
  {
    hide InTable, DurableStep;
    DurableStepFreezes(s, t);
    DurableStepKeepsState(s, t);
  }

  lemma {:induction false} ReleaseIsOneAttemptOnceStable(saves: seq<DriverState>, i: int, j: int)
    requires History(saves) && SameRelease(saves, i, j) && saves[i].stableCommit.Some?
    ensures SameAttempt(saves, i, j)
    decreases j
  {
    if i < j {
      ReleaseIsOneAttemptOnceStable(saves, i, j - 1);
      StableCommitFrozen(saves, i, j - 1);
      assert StepAt(saves, j);
      StableStatesAreFinal(saves[j - 1], saves[j]);
    }
  }

  /**
   Promotion safety: every signing was checked against a snapshot whose merge tree, approved tree and
   evidence agree with the state, and all signings for one release name the same version, commit and subject.
   */
  lemma PromotionSafety(c: Config, events: seq<Event>, a: int, b: int)
    requires var w := Run(c, INITIAL, events);
      && 0 <= a < |w.signings| && 0 <= b < |w.signings|
      && SameRelease(w.saves, w.signings[a].save, w.signings[b].save)
    ensures var w := Run(c, INITIAL, events);
      var g, h := w.signings[a], w.signings[b];
      var s, t := w.saves[g.save], w.saves[h.save];
      && PromotionMatches(s, g.repo) && PromotionMatches(t, h.repo)
      && s.version == t.version && s.stableCommit == t.stableCommit && PromotionSubject(s) == PromotionSubject(t)
  {
    RunIsSound(c, events);
    var w := Run(c, INITIAL, events);
    var i, j := w.signings[a].save, w.signings[b].save;
    assert SigningFits(w.saves, w.signings[a]) && SigningFits(w.saves, w.signings[b]);
    assert StateOk(w.saves[i]);
    StableCommitFrozen(w.saves, i, j);
    ReleaseIsOneAttemptOnceStable(w.saves, i, j);
    SubjectFrozen(w.saves, i, j);
  }

  /** The intent of s was committed, held or dropped as stale. */
  ghost predicate Settled(s: DriverState, t: DriverState) { CommitStep(s, t) || HoldStep(s, t) || DropStep(s, t) }

  /** A saved intent is the only thing `perform` is called with, and the next save is the one that settles it. */
  lemma IntentCarriedOut(c: Config, events: seq<Event>)
    ensures var w := Run(c, INITIAL, events);
      && (w.position.Performing? || w.position.Performed? ==>
          w.disk == Some(w.position.intended) && w.position.intended.intent.Some?)
      && forall i :: 0 <= i < |w.saves| - 1 && w.saves[i].intent.Some? ==>
        && w.saves[i + 1].intent.None?
        && Settled(w.saves[i], w.saves[i + 1])
  {
    hide InTable, ApplyPatch, PromotionMatches, NextStep, Run, StateOk, DurableStep, Settled, Commit;
    RunIsSound(c, events);
    var w := Run(c, INITIAL, events);
    forall i | 0 <= i < |w.saves| - 1 && w.saves[i].intent.Some?
      ensures w.saves[i + 1].intent.None?
      ensures Settled(w.saves[i], w.saves[i + 1])
    {
      assert StateOk(w.saves[i]) && StepAt(w.saves, i + 1);
      IntentSettles(w.saves[i], w.saves[i + 1]);
    }
  }

  lemma IntentSettles(s: DriverState, t: DriverState)
    requires StateOk(s) && DurableStep(s, t) && s.intent.Some?
    ensures t.intent.None? && Settled(s, t)
  {
    hide InTable, ApplyPatch, ResultFits;
  }
}
