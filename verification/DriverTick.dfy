/**
 `tick` as it runs: scripts/release-driver.ts, lines 294-331. One call loads the state file, makes at most one
 transition and saves as it goes; it may die at any await. Every call is a run of DriverRuns, so what is proved of
 runs holds of every sequence of calls; and a call that does not die ends as its plan and the operation's outcome say.
 */
module DriverTick {
  import opened Wrappers
  import opened ReleaseDriver
  import opened DriverRuns
  import opened DriverHistory
  import opened CommentHistory

  // The steps of one call.

  function Rank(e: Event): nat {
    match e
    case Load => 0
    case Snap(_) => 1
    case SaveIntent => 2
    case Perform(_) => 3
    case Finish => 4
    case PostComment => 5
    case ClearAnnouncement => 6
    case Crash => 7
  }

  /** Each kind of step comes at most once, in this order, and nothing follows a crash. */
  predicate InOrder(events: seq<Event>) {
    forall i, j :: 0 <= i < j < |events| ==> Rank(events[i]) < Rank(events[j])
  }

  predicate Before(events: seq<Event>, rank: nat) { InOrder(events) && (events == [] || Rank(events[|events| - 1]) < rank) }

  lemma StepMore(c: Config, w: World, events: seq<Event>, e: Event)
    requires Before(events, Rank(e))
    ensures Run(c, w, events + [e]) == Next(c, Run(c, w, events), e)
    ensures Before(events + [e], Rank(e) + 1)
  {
    hide Run, Next;
    RunMore(c, w, events, e);
  }

  // Where a call ends that does not die.

  /** The comment of s is on the issue and s is on file without it. */
  predicate Announced(s: DriverState, posted: seq<Marker>, after: World) {
    && s.announcement.Some? && after.posted == Post(posted, s.announcement.value)
    && after.disk == Some(s.(announcement := None))
  }

  /** A result is committed, a hold committed instead, a stale intent dropped, and after an error it stays on file. */
  predicate Settled(intended: DriverState, outcome: Outcome, posted: seq<Marker>, after: World)
    requires intended.intent.Some?
  {
    match outcome
    case Returned(result) => Announced(Commit(intended, intended.intent.value, result), posted, after)
    case HeldBy(reason, commit) => Announced(Commit(intended, HoldDecision(reason, commit), NoPatch), posted, after)
    case Stale => after.disk == Some(intended.(intent := None)) && after.posted == posted
    case Threw => after.disk == Some(intended) && after.posted == posted
  }

  /** The intent was performed once, and settled by its outcome. */
  predicate Carried(c: Config, intended: DriverState, env: Env, posted: seq<Marker>, tags: map<string, string>,
                    after: World)
  {
    intended.intent.Some? &&
    var step := intended.intent.value;
    var (outcome, tagged, signs) := Attempt(c, ApplyPatch(intended, step.patch), step, env, tags);
    after.tags == tagged && Settled(intended, outcome, posted, after)
  }

  /** Only a pending comment is settled; or nothing is to be done; or the planned step is carried out. */
  predicate Ended(c: Config, repo: Snapshot, env: Env, before: World, after: World) {
    if before.disk.Some? && before.disk.value.announcement.Some? then
      Announced(before.disk.value, before.posted, after) && after.tags == before.tags
    else
      match NextStep(before.disk, repo, c)
      case Act(step) => Carried(c, WithIntent(before.disk, step), env, before.posted, before.tags, after)
      case _ => after == before
  }

  /** The sequence a call starts counting from: a selection starts anew. */
  function SequenceBefore(state: Option<DriverState>, plan: Plan): nat {
    if state.None? || (plan.Act? && plan.step.patch.SelectPatch?) then 0 else state.value.sequence
  }

  /** What was written is the pending comment's settlement, or at most one transition on. */
  predicate OneTransition(before: Option<DriverState>, plan: Plan, after: Option<DriverState>) {
    || after == before
    || (if before.Some? && before.value.announcement.Some? then after == Some(before.value.(announcement := None))
        else after.Some? && 0 <= after.value.sequence - SequenceBefore(before, plan) <= 1)
  }

  lemma CommitCounts(s: DriverState, step: Decision, result: Patch)
    ensures Commit(s, step, result).announcement.Some? && Commit(s, step, result).intent.None?
    ensures Commit(s, step, result).sequence == s.sequence + 1
  {
  }

  lemma IntentIsTheStep(state: Option<DriverState>, step: Decision)
    ensures var t := WithIntent(state, step);
      && t.intent == Some(step) && t.sequence == SequenceBefore(state, Act(step))
      && ((state.Some? ==> state.value.announcement.None?) ==> t.announcement.None?)
  {
  }

  lemma RunNothing(c: Config, w: World)
    ensures Run(c, w, []) == w
  {
  }

  class Driver {
    const c: Config
    var disk: Option<DriverState>
    var posted: seq<Marker>
    var tags: map<string, string>
    ghost var saves: seq<DriverState>
    ghost var signings: seq<Signing>
    ghost var interruptions: nat

    /** The world of the runs, with a tick at this position. */
    ghost function At(position: Position): World
      reads this
    {
      World(disk, saves, posted, tags, signings, position, interruptions)
    }

    constructor (c: Config)
      ensures this.c == c && At(Down) == INITIAL
    {
      this.c := c;
      disk, posted, tags, saves, signings, interruptions := None, [], map[], [], [], 0;
    }

    method SaveState(s: DriverState)
      modifies this`disk, this`saves
      ensures disk == Some(s) && forall p :: At(p) == Save(old(At(p)), s)
      ensures old(saves) <= saves
      ensures |Markers(old(saves))| <= |Markers(saves)|
      ensures |Markers(saves)| <= |Markers(old(saves))| + (if s.announcement.Some? then 1 else 0)
    {
      hide Markers;
      if disk != Some(s) {
        MarkersOfSave(saves, s);
        saves := saves + [s];
      }
      disk := Some(s);
    }

    /** The process dies, or an error leaves the call: what was in memory is lost. */
    ghost method Break(start: World, events: seq<Event>, position: Position) returns (more: seq<Event>)
      requires Run(c, start, events) == At(position) && Before(events, 7)
      modifies this`interruptions
      ensures At(Down) == Run(c, start, more) && more == events + [Crash] && InOrder(more)
    {
      StepMore(c, start, events, Crash);
      interruptions := interruptions + 1;
      more := events + [Crash];
    }

    /** Announcing deduplicates by marker; then the state is saved without its announcement. */
    method Reconcile(state: DriverState, died: set<nat>,
                     ghost start: World, ghost before: seq<Event>, ghost position: Position)
      returns (ghost events: seq<Event>)
      requires disk == Some(state) && state.announcement.Some? && position in {Loaded(Some(state)), Outbox(state)}
      requires Run(c, start, before) == At(position) && Before(before, 5)
      modifies this`disk, this`saves, this`posted, this`interruptions
      ensures At(Down) == Run(c, start, events) && before <= events && InOrder(events)
      ensures posted == if 5 in died then old(posted) else Post(old(posted), state.announcement.value)
      ensures disk == if 5 in died || 6 in died then Some(state) else Some(state.(announcement := None))
      ensures old(saves) <= saves && |Markers(saves)| == |Markers(old(saves))|
    {
      hide Run, NextStep, Attempt, Markers;
      events := before;
      if 5 in died {
        events := Break(start, events, position);
        return;
      }
      StepMore(c, start, events, PostComment);
      posted := Post(posted, state.announcement.value);
      events := events + [PostComment];
      if 6 in died {
        events := Break(start, events, Posted(state));
        return;
      }
      StepMore(c, start, events, ClearAnnouncement);
      SaveState(state.(announcement := None));
      events := events + [ClearAnnouncement];
    }

    /** A commit is saved with its comment in the outbox, which is settled at once. */
    method Conclude(committed: DriverState, died: set<nat>, ghost start: World, ghost before: seq<Event>)
      returns (ghost events: seq<Event>)
      requires Run(c, start, before) == Commits(At(Down), committed) && Before(before, 5) && committed.announcement.Some?
      modifies this`disk, this`saves, this`posted, this`interruptions
      ensures At(Down) == Run(c, start, events) && before <= events && InOrder(events)
      ensures old(saves) <= saves && 0 <= |Markers(saves)| - |Markers(old(saves))| <= 1
      ensures disk == Some(committed) || disk == Some(committed.(announcement := None))
      ensures died == {} ==> Announced(committed, old(posted), At(Down))
    {
      hide Run, Markers;
      events := before;
      SaveState(committed);
      if 4 in died {
        events := Break(start, events, Outbox(committed));
        return;
      }
      events := Reconcile(committed, died, start, events, Outbox(committed));
    }

    /** What was performed is committed, held or dropped as its outcome says. */
    method Settle(intended: DriverState, env: Env, outcome: Outcome, died: set<nat>,
                  ghost start: World, ghost before: seq<Event>)
      returns (ghost events: seq<Event>)
      requires disk == Some(intended) && intended.intent.Some? && intended.announcement.None? && !outcome.Threw?
      requires Run(c, start, before) == At(Performed(intended, env, outcome)) && Before(before, 4)
      modifies this`disk, this`saves, this`posted, this`interruptions
      ensures At(Down) == Run(c, start, events) && before <= events && InOrder(events)
      ensures old(saves) <= saves && 0 <= |Markers(saves)| - |Markers(old(saves))| <= 1
      ensures disk.Some? && 0 <= disk.value.sequence - intended.sequence <= 1
      ensures died == {} ==> Settled(intended, outcome, old(posted), At(Down))
    {
      hide Run, Commit, HoldDecision, Markers, Announced;
      StepMore(c, start, before, Finish);
      events := before + [Finish];
      if outcome.Stale? {
        SaveState(intended.(intent := None));
        return;
      }
      var step, result := intended.intent.value, NoPatch;
      if outcome.HeldBy? {
        step := HoldDecision(outcome.reason, outcome.commit);
      } else {
        result := outcome.result;
      }
      CommitCounts(intended, step, result);
      events := Conclude(Commit(intended, step, result), died, start, events);
    }

    /** The saved intent, performed once and settled. */
    method CarryOut(intended: DriverState, env: Env, died: set<nat>, ghost start: World, ghost before: seq<Event>)
      returns (ghost events: seq<Event>)
      requires disk == Some(intended) && intended.intent.Some? && intended.announcement.None?
      requires Run(c, start, before) == At(Performing(intended)) && Before(before, 3)
      modifies this
      ensures At(Down) == Run(c, start, events) && before <= events && InOrder(events)
      ensures old(saves) <= saves && 0 <= |Markers(saves)| - |Markers(old(saves))| <= 1
      ensures disk.Some? && 0 <= disk.value.sequence - intended.sequence <= 1
      ensures died == {} ==> Carried(c, intended, env, old(posted), old(tags), At(Down))
    {
      hide Run, Attempt, Commit, HoldDecision, ApplyPatch, Markers, Announced;
      var step := intended.intent.value;
      if 2 in died {
        events := Break(start, before, Performing(intended));
        return;
      }
      StepMore(c, start, before, Perform(env));
      var (outcome, after, signs) := Attempt(c, ApplyPatch(intended, step.patch), step, env, tags);
      tags := after;
      if signs { signings := signings + [Signing(|saves| - 1, env.before)]; }
      events := before + [Perform(env)];
      if outcome.Threw? || 3 in died {
        events := Break(start, events, Performed(intended, env, outcome));
        return;
      }
      events := Settle(intended, env, outcome, died, start, events);
    }

    /** A planned step is saved as the intent before it is carried out. */
    method Follow(state: Option<DriverState>, step: Decision, repo: Snapshot, env: Env, died: set<nat>,
                  ghost start: World, ghost before: seq<Event>)
      returns (ghost events: seq<Event>)
      requires disk == state && (state.Some? ==> state.value.announcement.None?)
      requires Run(c, start, before) == At(Planned(WithIntent(state, step), repo)) && Before(before, 2)
      modifies this
      ensures At(Down) == Run(c, start, events) && before <= events && InOrder(events)
      ensures old(saves) <= saves && 0 <= |Markers(saves)| - |Markers(old(saves))| <= 1
      ensures OneTransition(state, Act(step), disk)
      ensures died == {} ==> Carried(c, WithIntent(state, step), env, old(posted), old(tags), At(Down))
    {
      hide Run, WithIntent, Markers, Settled, Attempt, ApplyPatch;
      var intended := WithIntent(state, step);
      if 1 in died {
        events := Break(start, before, Planned(intended, repo));
        return;
      }
      StepMore(c, start, before, SaveIntent);
      IntentIsTheStep(state, step);
      SaveState(intended);
      events := before + [SaveIntent];
      events := CarryOut(intended, env, died, start, events);
    }

    /**
     One call, given what it will see and the awaits at which the process would die: a run from what the last call
     left, each step at most once and in order, and at most one transition; undisturbed, it ends as planned.
     */
    method Tick(repo: Snapshot, env: Env, died: set<nat>) returns (ghost events: seq<Event>)
      requires SnapshotFits(disk, repo)
      modifies this
      ensures At(Down) == Run(c, old(At(Down)), events)
      ensures [Load] <= events && InOrder(events)
      ensures old(saves) <= saves && 0 <= |Markers(saves)| - |Markers(old(saves))| <= 1
      ensures OneTransition(old(disk), NextStep(old(disk), repo, c), disk)
      ensures died == {} ==> Ended(c, repo, env, old(At(Down)), At(Down))
    {
      hide Run, NextStep, WithIntent, Markers, Carried;
      ghost var start := At(Down);
      events := [];
      RunNothing(c, start);
      var state := disk;
      StepMore(c, start, events, Load);
      events := [] + [Load];
      if state.Some? && state.value.announcement.Some? {
        events := Reconcile(state.value, died, start, events, Loaded(state));
        return;
      }
      if 0 in died {
        events := Break(start, events, Loaded(state));
        return;
      }
      StepMore(c, start, events, Snap(repo));
      var plan := NextStep(state, repo, c);
      events := events + [Snap(repo)];
      if plan.Act? { events := Follow(state, plan.step, repo, env, died, start, events); }
    }
  }

  lemma NoMarkers()
    ensures Markers([]) == []
  {
  }

  /** Any sequence of calls is a run, with at most as many transitions as there were calls. */
  method Ticks(c: Config, calls: seq<(Snapshot, Env, set<nat>)>) returns (driver: Driver, ghost events: seq<Event>)
    ensures driver.At(Down) == Run(c, INITIAL, events) && |Markers(driver.saves)| <= |calls|
  {
    hide Run, SnapshotFits, Ended, OneTransition, Markers;
    driver := new Driver(c);
    events := [];
    RunNothing(c, INITIAL);
    NoMarkers();
    for i := 0 to |calls|
      invariant driver.c == c && driver.At(Down) == Run(c, INITIAL, events) && fresh(driver)
      invariant |Markers(driver.saves)| <= i
    {
      if SnapshotFits(driver.disk, calls[i].0) {
        var more := driver.Tick(calls[i].0, calls[i].1, calls[i].2);
        RunAppend(c, INITIAL, events, more);
        events := events + more;
      }
    }
  }
}
