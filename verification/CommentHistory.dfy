/**
 Progress comments over whole runs of the release driver, with arbitrary snapshots and crashes: what is posted on the
 issue is what the state file called for, in order, each marker once; and within a release no marker comes twice.
 */
module CommentHistory {
  import opened Wrappers
  import opened Versions
  import opened ReleasePolicy
  import opened ReleaseDriver
  import opened DriverRuns
  import opened DriverHistory
  import opened DriverSafety

  /** The comments the history calls for, oldest first: one for each save that put one in the outbox. */
  function Markers(saves: seq<DriverState>): seq<Marker> {
    if saves == [] then [] else
    var last := saves[|saves| - 1];
    Markers(saves[..|saves| - 1]) + (if last.announcement.Some? then [last.announcement.value] else [])
  }

  predicate Distinct(markers: seq<Marker>) { forall i, j :: 0 <= i < j < |markers| ==> markers[i] != markers[j] }

  /** The markers without later repeats. */
  function Once(markers: seq<Marker>): seq<Marker> {
    if markers == [] then [] else Post(Once(markers[..|markers| - 1]), markers[|markers| - 1])
  }

  lemma MarkersOfSave(saves: seq<DriverState>, t: DriverState)
    ensures Markers(saves + [t]) == Markers(saves) + (if t.announcement.Some? then [t.announcement.value] else [])
  {
    assert (saves + [t])[..|saves + [t]| - 1] == saves;
  }

  lemma OnceMore(markers: seq<Marker>, m: Marker)
    ensures Once(markers + [m]) == Post(Once(markers), m)
  {
    assert (markers + [m])[..|markers|] == markers;
  }

  /** Each marker is kept, once, and none is added. */
  lemma {:induction false} OnceHasAll(markers: seq<Marker>)
    ensures Distinct(Once(markers)) && forall m :: m in Once(markers) <==> m in markers
    ensures |Once(markers)| <= |markers|
  {
    if markers != [] {
      var front, last := markers[..|markers| - 1], markers[|markers| - 1];
      OnceHasAll(front);
      assert markers == front + [last];
    }
  }

  /** Nothing is dropped exactly where nothing repeats. */
  lemma {:induction false} OnceIsAllIffDistinct(markers: seq<Marker>)
    ensures Once(markers) == markers <==> Distinct(markers)
  {
    if markers != [] {
      var front, last := markers[..|markers| - 1], markers[|markers| - 1];
      OnceIsAllIffDistinct(front);
      OnceHasAll(front);
      assert markers == front + [last];
      if last in front {
        assert |Once(markers)| < |markers|;
      } else {
        DistinctMore(front, last);
        assert Once(markers) == Once(front) + [last];
        assert Once(markers) == markers ==> Once(front) == Once(markers)[..|markers| - 1] == front;
      }
    }
  }

  lemma DistinctMore(front: seq<Marker>, last: Marker)
    requires last !in front
    ensures Distinct(front + [last]) <==> Distinct(front)
  {
    if Distinct(front + [last]) {
      forall i, j | 0 <= i < j < |front| ensures front[i] != front[j] {
        assert (front + [last])[i] == front[i] && (front + [last])[j] == front[j];
      }
    }
  }

  // What is posted.

  /** The comment in the outbox, if the file holds one. */
  function Pending(w: World): Option<Marker> { if w.disk.Some? then w.disk.value.announcement else None }

  /** All comments but perhaps the pending one are posted, each once. */
  predicate Posted(w: World) {
    var markers := Markers(w.saves);
    if Pending(w).None? || w.position.Posted? then w.posted == Once(markers)
    else markers != [] && markers[|markers| - 1] == Pending(w).value
         && (w.posted == Once(markers) || w.posted == Once(markers[..|markers| - 1]))
  }

  lemma DiskIsLast(c: Config, w: World)
    requires Sound(c, w)
    ensures w.disk == (if w.saves == [] then None else Some(w.saves[|w.saves| - 1]))
    ensures w.position.Loaded? ==> w.position.state == w.disk
    ensures w.position.Outbox? || w.position.Posted? ==> w.disk == Some(w.position.committed) && w.disk.value.announcement.Some?
    ensures w.position.Planned? ==> w.disk.Some? ==> w.disk.value.announcement.None?
    ensures w.position.Performing? || w.position.Performed? ==>
      w.disk == Some(w.position.intended) && w.disk.value.intent.Some? && w.disk.value.announcement.None?
  {
    hide InTable, PromotionMatches, NextStep;
    if w.disk.Some? { DiskOk(c, w); }
  }

  lemma LastMarker(saves: seq<DriverState>)
    requires saves != [] && saves[|saves| - 1].announcement.Some?
    ensures var markers := Markers(saves);
      markers != [] && Some(markers[|markers| - 1]) == saves[|saves| - 1].announcement
      && markers[..|markers| - 1] == Markers(saves[..|saves| - 1])
  {
  }

  /** A save while nothing is pending leaves its own comment pending, if it has one. */
  lemma SaveKeepsPosted(w: World, s: DriverState, position: Position)
    requires w.posted == Once(Markers(w.saves)) && !position.Posted?
    requires w.disk == (if w.saves == [] then None else Some(w.saves[|w.saves| - 1]))
    ensures Posted(Save(w, s).(position := position))
  {
    hide Once, Markers;
    var before := Markers(w.saves);
    if w.disk != Some(s) {
      MarkersOfSave(w.saves, s);
      if s.announcement.Some? {
        assert (before + [s.announcement.value])[..|before|] == before;
      } else {
        assert before + [] == before;
      }
    } else if s.announcement.Some? {
      LastMarker(w.saves);
    }
  }

  lemma SaveIntentKeepsPosted(c: Config, w: World)
    requires Sound(c, w) && Posted(w)
    ensures Posted(SaveIntentStep(w))
  {
    hide Sound, Markers, Once;
    if w.position.Planned? {
      DiskIsLast(c, w);
      SaveKeepsPosted(w, w.position.next, Performing(w.position.next));
    }
  }

  lemma FinishKeepsPosted(c: Config, w: World)
    requires Sound(c, w) && Posted(w)
    ensures Posted(FinishStep(w))
  {
    hide Sound, Markers, Once, Commit, HoldDecision;
    if w.position.Performed? && w.position.intended.intent.Some? {
      DiskIsLast(c, w);
      var s, step := w.position.intended, w.position.intended.intent.value;
      match w.position.outcome
      case Returned(result) => SaveKeepsPosted(w, Commit(s, step, result), Outbox(Commit(s, step, result)));
      case HeldBy(reason, commit) =>
        var t := Commit(s, HoldDecision(reason, commit), NoPatch);
        SaveKeepsPosted(w, t, Outbox(t));
      case Stale => SaveKeepsPosted(w, s.(intent := None), Down);
      case Threw =>
    }
  }

  lemma PostKeepsPosted(c: Config, w: World)
    requires Sound(c, w) && Posted(w)
    ensures Posted(PostStep(w))
  {
    hide Sound, Markers, Once;
    DiskIsLast(c, w);
    var markers := Markers(w.saves);
    if Pending(w).Some? && (w.position.Loaded? || w.position.Outbox?) {
      var front, m := markers[..|markers| - 1], markers[|markers| - 1];
      assert markers == front + [m];
      OnceMore(front, m);
      OnceHasAll(markers);
      assert m in markers;
    }
  }

  lemma ClearKeepsPosted(c: Config, w: World)
    requires Sound(c, w) && Posted(w)
    ensures Posted(ClearAnnouncementStep(w))
  {
    hide Sound, Markers, Once;
    if w.position.Posted? {
      DiskIsLast(c, w);
      SaveKeepsPosted(w, w.position.committed.(announcement := None), Down);
    }
  }

  lemma NextKeepsPosted(c: Config, w: World, e: Event)
    requires Sound(c, w) && Posted(w)
    ensures Posted(Next(c, w, e))
  {
    hide Sound, Markers, Once, NextStep, Attempt, SaveIntentStep, FinishStep, PostStep, ClearAnnouncementStep;
    match e
    case SaveIntent => SaveIntentKeepsPosted(c, w);
    case Finish => FinishKeepsPosted(c, w);
    case PostComment => PostKeepsPosted(c, w);
    case ClearAnnouncement => ClearKeepsPosted(c, w);
    case Crash | Load | Snap(_) | Perform(_) => OtherKeepsPosted(c, w, e);
  }

  lemma OtherKeepsPosted(c: Config, w: World, e: Event)
    requires Posted(w) && (e.Crash? || e.Load? || e.Snap? || e.Perform?)
    requires Sound(c, w)
    ensures Posted(Next(c, w, e))
  {
    hide Sound, Markers, Once, NextStep, Attempt, InTable;
    DiskIsLast(c, w);
    if w.position.Posted? && Pending(w).Some? { LastMarker(w.saves); }
  }

  lemma {:induction false} RunIsPosted(c: Config, events: seq<Event>)
    ensures Posted(Run(c, INITIAL, events))
  {
    hide Posted, Next;
    if events == [] {
      NothingPosted();
    } else {
      RunIsPosted(c, events[..|events| - 1]);
      RunIsSound(c, events[..|events| - 1]);
      NextKeepsPosted(c, Run(c, INITIAL, events[..|events| - 1]), events[|events| - 1]);
    }
  }

  lemma NothingPosted()
    ensures Posted(INITIAL)
  {
  }

  /**
   Whatever the snapshots and crashes: the comments on the issue are those the file called for, in order and without
   later repeats, short of at most the pending one; with none pending they are all of them exactly where no two of them
   share a marker.
   */
  lemma CommentsPostedOnceInOrder(c: Config, events: seq<Event>)
    ensures var w := Run(c, INITIAL, events); var markers := Markers(w.saves);
      && Distinct(w.posted)
      && (w.posted == Once(markers) || (Pending(w).Some? && markers != [] && w.posted == Once(markers[..|markers| - 1])))
      && (forall m :: m in markers && Pending(w) != Some(m) ==> m in w.posted)
      && (forall m :: m in w.posted ==> m in markers)
      && (Pending(w).None? ==> (w.posted == markers <==> Distinct(markers)))
  {
    hide Run, Markers, Once;
    RunIsPosted(c, events);
    var w := Run(c, INITIAL, events);
    var markers := Markers(w.saves);
    OnceHasAll(markers);
    OnceIsAllIffDistinct(markers);
    if markers != [] {
      OnceHasAll(markers[..|markers| - 1]);
      assert markers == markers[..|markers| - 1] + [markers[|markers| - 1]];
    }
  }

  // Markers within a release.

  /** A state's announcement is its own marker. */
  predicate Signed(s: DriverState) { s.announcement.Some? ==> s.announcement == Some(MarkerOf(s)) }

  /** Every step but a selection keeps the sequence or raises it, and one that announces raises it. */
  lemma StepRaises(s: DriverState, t: DriverState)
    requires StateOk(s) && DurableStep(s, t) && !Selects(t) && Signed(s)
    ensures Signed(t) && t.sequence >= s.sequence && (t.announcement.Some? ==> t.sequence > s.sequence)
  {
    if PlanStep(s, t) {
      PlanRaises(s, t);
    } else if CommitStep(s, t) {
      var result :| ResultFits(s.intent.value.operation, result) && t == Commit(s, s.intent.value, result);
      hide InTable, ResultFits;
    } else if HoldStep(s, t) {
      var reason, commit :| t == Commit(s, HoldDecision(reason, commit), NoPatch);
      hide InTable;
    } else {
      hide InTable;
    }
  }

  lemma PlanRaises(s: DriverState, t: DriverState)
    requires PlanStep(s, t) && !Selects(t)
    ensures t == s.(intent := t.intent)
  {
  }

  lemma SelectionIsSigned(t: DriverState)
    requires StateOk(t) && t.intent.Some?
    ensures Signed(t)
  {
    hide InTable;
  }

  lemma {:induction false} SavesAreSigned(saves: seq<DriverState>, i: nat)
    requires History(saves) && i < |saves|
    ensures Signed(saves[i])
  {
    hide StateOk, DurableStep;
    if i == 0 || Selects(saves[i]) {
      SelectionIsSigned(saves[i]);
    } else {
      SavesAreSigned(saves, i - 1);
      assert StepAt(saves, i);
      StepRaises(saves[i - 1], saves[i]);
    }
  }

  lemma {:induction false} SequenceRises(saves: seq<DriverState>, i: int, j: int)
    requires History(saves) && SameRelease(saves, i, j)
    ensures saves[j].sequence >= saves[i].sequence
    ensures i < j && saves[j].announcement.Some? ==> saves[j].sequence > saves[i].sequence
    decreases j
  {
    hide StateOk, DurableStep;
    if i < j {
      SequenceRises(saves, i, j - 1);
      SavesAreSigned(saves, j - 1);
      assert StepAt(saves, j);
      StepRaises(saves[j - 1], saves[j]);
    }
  }

  /** Within a release no two commits share a marker, so each of its comments is posted exactly once. */
  lemma ReleaseMarkersDiffer(saves: seq<DriverState>, i: int, j: int)
    requires History(saves) && SameRelease(saves, i, j) && i < j
    requires saves[i].announcement.Some? && saves[j].announcement.Some?
    ensures saves[i].announcement != saves[j].announcement
  {
    SequenceRises(saves, i, j);
    SavesAreSigned(saves, i);
    SavesAreSigned(saves, j);
  }
}
