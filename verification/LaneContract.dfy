/**
 What the campaign may expect of a lane with resources outside: scripts/stable-qualification.ts,
 `ExternalLaneModule`, lines 271-281. A run or a cleanup is a sequence of checkpoints and effects.
 */
module LaneContract {
  import opened Wrappers

  type Epoch = string

  /** A lane's recorded progress: none, readable by its module, or not, with the epoch it names. */
  datatype Progress = Absent | Recorded(epoch: Epoch, owed: bool) | Unreadable(epoch: Epoch)

  /** The module's own reading of its progress; unreadable progress throws. */
  function NeedsCleanup(p: Progress): Option<bool> {
    match p
    case Absent => Some(false)
    case Recorded(_, owed) => Some(owed)
    case Unreadable(_) => None
  }

  /** Unreadable progress may owe a cleanup. */
  predicate Owes(p: Progress) { NeedsCleanup(p) != Some(false) }

  datatype Event =
    | Checkpoint(progress: Progress, saved: bool)
    /** An effect that may leave a resource behind. */
    | Acquire
    /** The attempt's resources are all gone. */
    | ReleaseAll

  /**
   Where an attempt stands: its epoch, whether a saved checkpoint says cleanup is owed, whether it is over, and
   whether it may hold resources; and every epoch any attempt has used.
   */
  datatype Attempt = Attempt(epoch: Option<Epoch>, onRecord: bool, over: bool, live: bool, used: set<Epoch>)

  /** Where an attempt stands when a run or a cleanup is given its progress. */
  function Resumed(p: Progress, live: bool, used: set<Epoch>): Attempt {
    Attempt(if p.Absent? || p.epoch == "" then None else Some(p.epoch), Owes(p), !p.Absent? && !Owes(p), live, used)
  }

  /**
   The contract: a new attempt has an epoch never used before and starts only when nothing is held; its resources
   are acquired only after a checkpoint that owes their cleanup is saved, and are gone before one that owes none.
   */
  predicate Allowed(a: Attempt, e: Event) {
    match e
    case Checkpoint(p, _) =>
      && !p.Absent? && p.epoch != ""
      && if a.epoch == Some(p.epoch) then if Owes(p) then !a.over else !a.live
         else Owes(p) && p.epoch !in a.used && (a.epoch.None? || a.over) && !a.live
    case Acquire => a.onRecord && !a.over
    case ReleaseAll => true
  }

  function After(a: Attempt, e: Event): Attempt
    requires Allowed(a, e)
  {
    match e
    case Checkpoint(p, saved) =>
      if a.epoch == Some(p.epoch) then a.(onRecord := a.onRecord || (saved && Owes(p)), over := a.over || !Owes(p))
      else Attempt(Some(p.epoch), saved, false, false, a.used + {p.epoch})
    case Acquire => a.(live := true)
    case ReleaseAll => a.(live := false)
  }

  /** A cleanup stays with the attempt it is given and acquires nothing. */
  predicate AllowedInCleanup(a: Attempt, e: Event) {
    Allowed(a, e) && !e.Acquire? && (e.Checkpoint? ==> a.epoch == Some(e.progress.epoch))
  }

  predicate Conforms(a: Attempt, events: seq<Event>)
    decreases |events|
  {
    events == [] || (Allowed(a, events[0]) && Conforms(After(a, events[0]), events[1..]))
  }

  predicate ConformsInCleanup(a: Attempt, events: seq<Event>)
    decreases |events|
  {
    events == [] || (AllowedInCleanup(a, events[0]) && ConformsInCleanup(After(a, events[0]), events[1..]))
  }

  /** Where an attempt stands after some events. */
  function AfterAll(a: Attempt, events: seq<Event>): Attempt
    requires Conforms(a, events)
    decreases |events|
  {
    if events == [] then a else AfterAll(After(a, events[0]), events[1..])
  }

  lemma {:induction false} ConformsMore(a: Attempt, events: seq<Event>, e: Event)
    requires Conforms(a, events) && Allowed(AfterAll(a, events), e)
    ensures Conforms(a, events + [e]) && AfterAll(a, events + [e]) == After(AfterAll(a, events), e)
    decreases |events|
  {
    hide Allowed, After;
    if events == [] {
      assert events + [e] == [e] && [e][1..] == [];
    } else {
      assert (events + [e])[1..] == events[1..] + [e];
      ConformsMore(After(a, events[0]), events[1..], e);
    }
  }

  /** A release: nothing, or everything gone, and then perhaps the checkpoint that owes no cleanup. */
  predicate IsRelease(events: seq<Event>, epoch: Epoch) {
    && |events| <= 2 && (|events| > 0 ==> events[0] == ReleaseAll)
    && (|events| == 2 ==> events[1].Checkpoint? && events[1].progress == Recorded(epoch, false))
  }

  lemma ReleaseConforms(a: Attempt, events: seq<Event>, epoch: Epoch)
    requires IsRelease(events, epoch) && a.epoch == Some(epoch) && epoch != ""
    ensures ConformsInCleanup(a, events)
  {
    if |events| == 2 {
      var b := After(a, events[0]);
      assert events[1..][1..] == [];
      assert ConformsInCleanup(b, events[1..]);
    } else if |events| == 1 {
      assert events[1..] == [];
    }
  }

  lemma {:induction false} CleanupConforms(a: Attempt, events: seq<Event>)
    requires ConformsInCleanup(a, events)
    ensures Conforms(a, events) && AfterAll(a, events).used == a.used
    decreases |events|
  {
    if events != [] { CleanupConforms(After(a, events[0]), events[1..]); }
  }

  // What the campaign may rely on.

  /** Held resources belong to an attempt whose saved checkpoint owes their cleanup. */
  predicate Accounted(a: Attempt) {
    && (a.epoch.Some? ==> a.epoch.value in a.used) && (a.onRecord ==> a.epoch.Some?)
    && (a.live ==> a.onRecord && !a.over)
  }

  lemma {:induction false} ConformingIsAccounted(a: Attempt, events: seq<Event>)
    requires Accounted(a) && Conforms(a, events)
    ensures Accounted(AfterAll(a, events))
    decreases |events|
  {
    if events != [] { ConformingIsAccounted(After(a, events[0]), events[1..]); }
  }
}
