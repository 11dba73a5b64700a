/**
 The in-process device lease: scripts/stable-qualification.ts, `createPixelLease`, lines 560-583, over promises.

 A request's turn waits for the promise that was `tail` when it asked, and `tail` becomes that turn's caught promise.
 The scheduler may run the reaction of any promise that is fulfilled, in any order; nothing else orders the turns.
 */
module PixelLease {
  import opened Wrappers
  import opened Restoration

  datatype TurnState = Waiting | Running | Fulfilled | Rejected

  /** `Promise.resolve()`, the promise of a turn, or `turn.catch(() => {})`. */
  datatype Promise = Resolved | Of(turn: nat) | Caught(turn: nat)

  datatype Turn = Turn(owner: string, after: Promise, state: TurnState)

  /** Turn i's action started, or was refused, or ended with an error or without. */
  datatype Entry = Started(i: nat) | Refused(i: nat) | Settled(i: nat, error: Option<Error>)

  datatype State = State(
    turns: seq<Turn>, tail: Promise, holder: Option<string>, unrestoredBy: Option<string>, log: seq<Entry>)

  datatype Event =
    | Request(owner: string)
    /** The scheduler runs the reaction that turn i put on the promise it waits for. */
    | React(i: nat)
    /** The running action of turn i returns, or throws. */
    | Settle(i: nat, error: Option<Error>)

  const INITIAL := State([], Resolved, None, None, [])

  /** Where a promise stands: a turn's own promise is rejected with it, a caught one is fulfilled either way. */
  function Status(p: Promise, turns: seq<Turn>): TurnState {
    match p
    case Resolved => Fulfilled
    case Of(i) => if i < |turns| then turns[i].state else Waiting
    case Caught(i) =>
      if i >= |turns| then Waiting else if turns[i].state.Rejected? then Fulfilled else turns[i].state
  }

  predicate Ended(state: TurnState) { state.Fulfilled? || state.Rejected? }

  predicate Poisons(entry: Entry) { entry.Settled? && entry.error.Some? && PixelUnrestored(entry.error.value) }

  function With(turns: seq<Turn>, i: nat, state: TurnState): seq<Turn>
    requires i < |turns|
  {
    turns[i := turns[i].(state := state)]
  }

  /** `tail.then(...)`: the reaction runs the body on a fulfilled promise and passes a rejection on. */
  function ReactStep(s: State, i: nat): State {
    if i >= |s.turns| || !s.turns[i].state.Waiting? then s
    else match Status(s.turns[i].after, s.turns)
      case Fulfilled =>
        if s.unrestoredBy.Some? then s.(turns := With(s.turns, i, Rejected), log := s.log + [Refused(i)])
        else s.(turns := With(s.turns, i, Running), holder := Some(s.turns[i].owner), log := s.log + [Started(i)])
      case Rejected => s.(turns := With(s.turns, i, Rejected))
      case _ => s
  }

  function SettleStep(s: State, i: nat, error: Option<Error>): State {
    if i >= |s.turns| || !s.turns[i].state.Running? then s else
    State(With(s.turns, i, if error.Some? then Rejected else Fulfilled), s.tail, None,
          if error.Some? && PixelUnrestored(error.value) then Some(s.turns[i].owner) else s.unrestoredBy,
          s.log + [Settled(i, error)])
  }

  function Next(s: State, e: Event): State {
    match e
    case Request(owner) => s.(turns := s.turns + [Turn(owner, s.tail, Waiting)], tail := Caught(|s.turns|))
    case React(i) => ReactStep(s, i)
    case Settle(i, error) => SettleStep(s, i, error)
  }

  function Run(events: seq<Event>): State {
    if events == [] then INITIAL else Next(Run(events[..|events| - 1]), events[|events| - 1])
  }

  class Lease {
    var turns: seq<Turn>
    var tail: Promise
    var holder: Option<string>
    var unrestoredBy: Option<string>
    ghost var log: seq<Entry>

    ghost function Now(): State
      reads this
    {
      State(turns, tail, holder, unrestoredBy, log)
    }

    constructor ()
      ensures Now() == INITIAL
    {
      turns, tail, holder, unrestoredBy, log := [], Resolved, None, None, [];
    }

    /** A lane asks for the device; `waits` is what the source logs. */
    method Ask(owner: string) returns (waits: bool)
      modifies this
      ensures Now() == Next(old(Now()), Request(owner)) && waits == holder.Some?
    {
      waits := holder.Some?;
      var turn := |turns|;
      turns := turns + [Turn(owner, tail, Waiting)];
      tail := Caught(turn);
    }

    /** The body of a turn, run once the promise it waits for is fulfilled. */
    method Begin(i: nat) returns (runs: bool)
      requires i < |turns| && turns[i].state.Waiting? && Status(turns[i].after, turns).Fulfilled?
      modifies this
      ensures Now() == Next(old(Now()), React(i)) && runs == old(unrestoredBy).None?
    {
      if unrestoredBy.Some? {
        log := log + [Refused(i)];
        turns := With(turns, i, Rejected);
        return false;
      }
      holder := Some(turns[i].owner);
      log := log + [Started(i)];
      turns := With(turns, i, Running);
      runs := true;
    }

    /** The action of a turn returns (no error) or throws. */
    method End(i: nat, error: Option<Error>)
      requires i < |turns| && turns[i].state.Running?
      modifies this
      ensures Now() == Next(old(Now()), Settle(i, error))
    {
      if error.Some? && PixelUnrestored(error.value) { unrestoredBy := Some(turns[i].owner); }
      holder := None;
      log := log + [Settled(i, error)];
      turns := With(turns, i, if error.Some? then Rejected else Fulfilled);
    }
  }

  // What the chain of promises establishes.

  /** Each turn waits for the caught promise of the one before it, and none has begun before that one ended. */
  predicate Chained(s: State) {
    && s.tail == (if s.turns == [] then Resolved else Caught(|s.turns| - 1))
    && forall i :: 0 <= i < |s.turns| ==> Links(s.turns, i)
  }

  predicate Links(turns: seq<Turn>, i: nat)
    requires i < |turns|
  {
    && turns[i].after == (if i == 0 then Resolved else Caught(i - 1))
    && (i > 0 && !turns[i].state.Waiting? ==> Ended(turns[i - 1].state))
  }

  lemma StepKeepsChain(s: State, e: Event)
    requires Chained(s)
    ensures Chained(Next(s, e))
  {
    var t := Next(s, e);
    forall i | 0 <= i < |t.turns| ensures Links(t.turns, i) {
      if i < |s.turns| {
        assert Links(s.turns, i);
        assert i + 1 < |s.turns| ==> Links(s.turns, i + 1);
      }
    }
  }

  lemma {:induction false} RunIsChained(events: seq<Event>)
    ensures Chained(Run(events))
  {
    if events != [] {
      RunIsChained(events[..|events| - 1]);
      StepKeepsChain(Run(events[..|events| - 1]), events[|events| - 1]);
    }
  }

  /** Once a turn has begun, every earlier one has ended. */
  lemma {:induction false} EarlierEnded(s: State, j: nat, i: nat)
    requires Chained(s) && j < i < |s.turns| && !s.turns[i].state.Waiting?
    ensures Ended(s.turns[j].state)
    decreases i
  {
    assert Links(s.turns, i);
    if j < i - 1 { EarlierEnded(s, j, i - 1); }
  }

  /** However the reactions are scheduled, at most one action runs. */
  lemma OneActionAtATime(events: seq<Event>, i: nat, j: nat)
    requires var turns := Run(events).turns;
      i < |turns| && j < |turns| && turns[i].state.Running? && turns[j].state.Running?
    ensures i == j
  {
    RunIsChained(events);
    if i < j { EarlierEnded(Run(events), i, j); }
    if j < i { EarlierEnded(Run(events), j, i); }
  }

  /**
   A waiting turn may begin exactly when every earlier turn has ended, by value or by error; so the next one in line is
   always enabled as soon as the one before it ends, and its reaction then begins it.
   */
  lemma EnabledInOrder(events: seq<Event>, i: nat)
    requires i < |Run(events).turns| && Run(events).turns[i].state.Waiting?
    ensures var s := Run(events);
      && (Status(s.turns[i].after, s.turns).Fulfilled? <==> forall j :: 0 <= j < i ==> Ended(s.turns[j].state))
      && (Status(s.turns[i].after, s.turns).Fulfilled? <==> i == 0 || Ended(s.turns[i - 1].state))
      && (Status(s.turns[i].after, s.turns).Fulfilled? <==> Next(s, React(i)) != s)
  {
    var s := Run(events);
    RunIsChained(events);
    assert Links(s.turns, i);
    if i > 0 && Ended(s.turns[i - 1].state) {
      forall j | 0 <= j < i ensures Ended(s.turns[j].state) {
        if j < i - 1 { EarlierEnded(s, j, i - 1); }
      }
    }
    assert With(s.turns, i, Rejected)[i].state.Rejected? && With(s.turns, i, Running)[i].state.Running?;
  }

  /** No turn is left behind: while any waits, an action runs or some waiting turn is enabled. */
  lemma {:induction false} SomeTurnIsEnabled(events: seq<Event>, i: nat) returns (j: nat)
    requires i < |Run(events).turns| && Run(events).turns[i].state.Waiting?
    ensures j <= i && var s := Run(events);
      s.turns[j].state.Running? || (s.turns[j].state.Waiting? && Status(s.turns[j].after, s.turns).Fulfilled?)
    decreases i
  {
    EnabledInOrder(events, i);
    if i == 0 || Ended(Run(events).turns[i - 1].state) { j := i; }
    else if Run(events).turns[i - 1].state.Running? { j := i - 1; }
    else { j := SomeTurnIsEnabled(events, i - 1); }
  }

  // The order of what happened.

  predicate Begins(entry: Entry) { entry.Started? || entry.Refused? }

  ghost predicate EndsAfter(log: seq<Entry>, k: nat, i: nat) {
    exists m :: k < m < |log| && log[m].Settled? && log[m].i == i
  }

  /** Entry k is of a turn that has begun; if its action started and has ended, its end is logged behind it. */
  ghost predicate EntryFits(s: State, k: nat)
    requires k < |s.log|
  {
    var i := s.log[k].i;
    && i < |s.turns| && !s.turns[i].state.Waiting?
    && (s.log[k].Started? && Ended(s.turns[i].state) ==> EndsAfter(s.log, k, i))
    && (s.log[k].Refused? ==> exists j :: 0 <= j < k && Poisons(s.log[j]))
  }

  /** Turns begin in request order, each behind the end of what started before it, and none starts behind poison. */
  ghost predicate PairFits(log: seq<Entry>, j: nat, k: nat)
    requires j < k < |log|
  {
    && (Begins(log[j]) && Begins(log[k]) ==> log[j].i < log[k].i)
    && (log[j].Started? && Begins(log[k]) ==> EndsAfter(log[..k], j, log[j].i))
    && (Poisons(log[j]) ==> !log[k].Started?)
  }

  ghost predicate Ledger(s: State) {
    && Chained(s)
    && (forall k :: 0 <= k < |s.log| ==> EntryFits(s, k))
    && (forall j, k :: 0 <= j < k < |s.log| ==> PairFits(s.log, j, k))
    && (s.unrestoredBy.Some? <==> exists k :: 0 <= k < |s.log| && Poisons(s.log[k]))
    && (forall i :: 0 <= i < |s.turns| && !s.turns[i].state.Waiting? ==> HasBegun(s.log, i))
  }

  ghost predicate HasBegun(log: seq<Entry>, i: nat) { exists k :: 0 <= k < |log| && Begins(log[k]) && log[k].i == i }

  /** A longer log keeps what is logged, of turns that have not gone back. */
  lemma LongerKeeps(s: State, t: State, entry: Entry)
    requires Ledger(s) && Chained(t) && t.log == s.log + [entry] && |t.turns| == |s.turns|
    requires forall i :: 0 <= i < |s.turns| && !s.turns[i].state.Waiting? ==> !t.turns[i].state.Waiting?
    requires forall i :: 0 <= i < |s.turns| && Ended(t.turns[i].state) && !Ended(s.turns[i].state) ==>
      entry.i == i && !entry.Started?
    requires forall i :: 0 <= i < |s.turns| && Ended(t.turns[i].state) && s.turns[i].state.Running? ==> entry.Settled?
    ensures forall k :: 0 <= k < |s.log| ==> EntryFits(t, k)
    ensures forall j, k :: 0 <= j < k < |s.log| ==> PairFits(t.log, j, k)
    ensures forall i :: HasBegun(s.log, i) ==> HasBegun(t.log, i)
  {
    forall k | 0 <= k < |s.log| ensures EntryFits(t, k) {
      assert EntryFits(s, k) && t.log[k] == s.log[k];
      var i := s.log[k].i;
      if s.log[k].Started? && Ended(t.turns[i].state) {
        if Ended(s.turns[i].state) {
          var m :| k < m < |s.log| && s.log[m].Settled? && s.log[m].i == i;
          assert t.log[m] == s.log[m];
        } else {
          assert t.log[|s.log|] == entry;
        }
      }
      if s.log[k].Refused? {
        var j :| 0 <= j < k && Poisons(s.log[j]);
        assert t.log[j] == s.log[j];
      }
    }
    forall j, k | 0 <= j < k < |s.log| ensures PairFits(t.log, j, k) {
      assert PairFits(s.log, j, k) && t.log[..k] == s.log[..k] && t.log[j] == s.log[j] && t.log[k] == s.log[k];
    }
    forall i | HasBegun(s.log, i) ensures HasBegun(t.log, i) {
      var k :| 0 <= k < |s.log| && Begins(s.log[k]) && s.log[k].i == i;
      assert t.log[k] == s.log[k];
    }
  }

  /** A turn that begins is behind every turn that has begun, and each of those has ended. */
  lemma BeginsLast(s: State, i: nat, j: nat)
    requires Ledger(s) && i < |s.turns| && s.turns[i].state.Waiting? && Status(s.turns[i].after, s.turns).Fulfilled?
    requires j < |s.log|
    ensures s.log[j].i < i && Ended(s.turns[s.log[j].i].state)
  {
    assert EntryFits(s, j) && Links(s.turns, i);
    var e := s.log[j].i;
    if i < e { EarlierEnded(s, i, e); }
    if e < i - 1 { EarlierEnded(s, e, i - 1); }
  }

  lemma ReactKeepsLedger(s: State, i: nat)
    requires Ledger(s)
    ensures Ledger(ReactStep(s, i))
  {
    var t := ReactStep(s, i);
    StepKeepsChain(s, React(i));
    if t == s { return; }
    assert Links(s.turns, i);
    var entry := t.log[|s.log|];
    assert t.log == s.log + [entry] && Begins(entry) && entry.i == i;
    hide EntryFits, PairFits, HasBegun, EndsAfter, PixelUnrestored;
    assert Ended(t.turns[i].state) ==> !entry.Started?;
    LongerKeeps(s, t, entry);
    NewEntryFits(s, t, entry);
    forall j | 0 <= j < |s.log| ensures PairFits(t.log, j, |s.log|) { NewPairFits(s, t, entry, j); }
    assert HasBegun(t.log, i) by { NewHasBegun(t, i); }
    PoisonKept(s, t, entry);
  }

  lemma NewHasBegun(t: State, i: nat)
    requires t.log != [] && Begins(t.log[|t.log| - 1]) && t.log[|t.log| - 1].i == i
    ensures HasBegun(t.log, i)
  {
  }

  lemma NewEntryFits(s: State, t: State, entry: Entry)
    requires t.log == s.log + [entry] && Begins(entry) && entry.i < |t.turns|
    requires t.turns[entry.i].state == (if entry.Refused? then Rejected else Running)
    requires entry.Refused? ==> exists k :: 0 <= k < |s.log| && Poisons(s.log[k])
    ensures EntryFits(t, |s.log|)
  {
    if entry.Refused? {
      var k :| 0 <= k < |s.log| && Poisons(s.log[k]);
      assert t.log[k] == s.log[k];
    }
  }

  lemma NewPairFits(s: State, t: State, entry: Entry, j: nat)
    requires Ledger(s) && t.log == s.log + [entry] && Begins(entry) && j < |s.log|
    requires entry.i < |s.turns| && s.turns[entry.i].state.Waiting? && Status(s.turns[entry.i].after, s.turns).Fulfilled?
    requires entry.Started? ==> s.unrestoredBy.None?
    ensures PairFits(t.log, j, |s.log|)
  {
    BeginsLast(s, entry.i, j);
    assert EntryFits(s, j);
    hide Chained, PairFits;
    assert t.log[..|s.log|] == s.log && t.log[j] == s.log[j];
    assert PairFits(t.log, j, |s.log|) by { PairIs(s.log, entry, j); }
  }

  lemma PairIs(log: seq<Entry>, entry: Entry, j: nat)
    requires j < |log|
    requires Begins(log[j]) && Begins(entry) ==> log[j].i < entry.i
    requires log[j].Started? && Begins(entry) ==> EndsAfter(log, j, log[j].i)
    requires Poisons(log[j]) ==> !entry.Started?
    ensures PairFits(log + [entry], j, |log|)
  {
    hide EndsAfter;
    assert (log + [entry])[..|log|] == log;
  }

  lemma PoisonKept(s: State, t: State, entry: Entry)
    requires Ledger(s) && t.log == s.log + [entry]
    requires t.unrestoredBy == s.unrestoredBy || (t.unrestoredBy.Some? && Poisons(entry))
    requires Poisons(entry) ==> t.unrestoredBy.Some?
    ensures t.unrestoredBy.Some? <==> exists k :: 0 <= k < |t.log| && Poisons(t.log[k])
  {
    if k :| 0 <= k < |s.log| && Poisons(s.log[k]) { assert Poisons(t.log[k]); }
    if Poisons(entry) { assert Poisons(t.log[|s.log|]); }
    if k :| 0 <= k < |t.log| && Poisons(t.log[k]) {
      if k < |s.log| { assert Poisons(s.log[k]); }
    }
  }

  lemma SettleKeepsLedger(s: State, i: nat, error: Option<Error>)
    requires Ledger(s)
    ensures Ledger(SettleStep(s, i, error))
  {
    var t := SettleStep(s, i, error);
    StepKeepsChain(s, Settle(i, error));
    if t == s { return; }
    var entry := Settled(i, error);
    hide EntryFits, PairFits, HasBegun, EndsAfter, PixelUnrestored;
    LongerKeeps(s, t, entry);
    assert EntryFits(t, |s.log|) by { SettledFits(t); }
    forall j | 0 <= j < |s.log| ensures PairFits(t.log, j, |s.log|) { PairIs(s.log, entry, j); }
    PoisonKept(s, t, entry);
  }

  lemma SettledFits(t: State)
    requires t.log != [] && t.log[|t.log| - 1].Settled? && t.log[|t.log| - 1].i < |t.turns|
    requires !t.turns[t.log[|t.log| - 1].i].state.Waiting?
    ensures EntryFits(t, |t.log| - 1)
  {
  }

  lemma RequestKeepsLedger(s: State, owner: string)
    requires Ledger(s)
    ensures Ledger(Next(s, Request(owner)))
  {
    var t := Next(s, Request(owner));
    StepKeepsChain(s, Request(owner));
    hide PairFits, HasBegun, EndsAfter, PixelUnrestored;
    forall k | 0 <= k < |t.log| ensures EntryFits(t, k) { assert EntryFits(s, k); }
  }

  lemma {:induction false} RunIsLedger(events: seq<Event>)
    ensures Ledger(Run(events))
  {
    if events != [] {
      var s := Run(events[..|events| - 1]);
      RunIsLedger(events[..|events| - 1]);
      hide Ledger;
      match events[|events| - 1]
      case Request(owner) => RequestKeepsLedger(s, owner);
      case React(i) => ReactKeepsLedger(s, i);
      case Settle(i, error) => SettleKeepsLedger(s, i, error);
    }
  }

  /** Actions start in request order, and each has ended before the next starts. */
  lemma ActionsRunAloneInOrder(events: seq<Event>, j: nat, k: nat)
    requires j < k < |Run(events).log| && Run(events).log[j].Started? && Run(events).log[k].Started?
    ensures var log := Run(events).log;
      && log[j].i < log[k].i
      && exists m :: j < m < k && log[m].Settled? && log[m].i == log[j].i
  {
    var log := Run(events).log;
    RunIsLedger(events);
    assert PairFits(log, j, k);
    var m :| j < m < |log[..k]| && log[..k][m].Settled? && log[..k][m].i == log[j].i;
    assert log[m] == log[..k][m];
  }

  /** After an error that carries the flag, at any depth, no later action ever starts. */
  lemma PoisonIsFinal(events: seq<Event>, j: nat, k: nat)
    requires j < k < |Run(events).log| && Poisons(Run(events).log[j])
    ensures !Run(events).log[k].Started?
  {
    RunIsLedger(events);
    assert PairFits(Run(events).log, j, k);
  }

  /**
   A turn that ends, by value or by error, lets the next one begin; its action then runs unless an error that carries
   the flag has been seen, and every refusal has such a cause.
   */
  lemma OrdinaryFailureNeverBlocks(events: seq<Event>, i: nat)
    requires i + 1 < |Run(events).turns| && Ended(Run(events).turns[i].state) && Run(events).turns[i + 1].state.Waiting?
    ensures var s := Run(events); var t := Next(s, React(i + 1));
      t.turns[i + 1].state == if exists k :: 0 <= k < |s.log| && Poisons(s.log[k]) then Rejected else Running
  {
    EnabledInOrder(events, i + 1);
    RunIsLedger(events);
    hide Ledger, Status;
    var s := Run(events);
    assert s.unrestoredBy.Some? <==> exists k :: 0 <= k < |s.log| && Poisons(s.log[k]);
  }

  /** Every turn that has begun is in the log: none is passed over, as it would be behind a promise left uncaught. */
  lemma NoTurnIsPassedOver(events: seq<Event>, i: nat)
    requires i < |Run(events).turns| && !Run(events).turns[i].state.Waiting?
    ensures HasBegun(Run(events).log, i)
  {
    RunIsLedger(events);
  }
}
