/**
 The cross-process host lease: scripts/release-host-lease.ts, `withReleaseHostLease`, lines 37-68, as
 the steps of any number of processes that interleave, fail and are killed at will.

 SQLite is one writer lock, which a closed connection or a dead process gives up, and one committed
 owner row, which survives both. An event that does not fit a process's position changes nothing.
 */
module HostLease {
  import opened Wrappers

  type Pid = nat

  /** Where one process's call stands. */
  datatype Position =
    | Opened      // before BEGIN IMMEDIATE
    | Reserved    // holds the writer lock, has not read the owner row
    | Claiming    // the row is free or its own; its INSERT is not committed
    | Acting      // the row is committed and the action runs
    | Returned    // the action returned; the DELETE is not committed
    | Ended       // the call returned or threw

  datatype Call = Call(owner: string, position: Position)

  /** The order in which actions start and owner rows are deleted. */
  datatype Entry = Started(pid: Pid, owner: string) | Released(pid: Pid, owner: string)

  datatype State = State(lock: Option<Pid>, row: Option<string>, calls: map<Pid, Call>, log: seq<Entry>)

  datatype Event =
    | Open(pid: Pid, owner: string)
    | BeginImmediate(pid: Pid)
    | ReadOwner(pid: Pid)
    | CommitOwner(pid: Pid)
    | ActionReturns(pid: Pid)
    | CommitDelete(pid: Pid)
    | Fail(pid: Pid)               // any statement or the action throws, or the process dies

  const INITIAL := State(None, None, map[], [])

  function At(s: State, pid: Pid): Option<Position> { if pid in s.calls then Some(s.calls[pid].position) else None }

  function Move(s: State, pid: Pid, position: Position): State
    requires pid in s.calls
  {
    s.(calls := s.calls[pid := s.calls[pid].(position := position)])
  }

  /** Closing the connection, or dying, rolls back and gives up the lock; the committed row stays. */
  function Close(s: State, pid: Pid): State
    requires pid in s.calls
  {
    Move(s.(lock := if s.lock == Some(pid) then None else s.lock), pid, Ended)
  }

  function Next(s: State, e: Event): State {
    match e
    case Open(pid, owner) =>
      if pid in s.calls then s
      else if owner == "" then s.(calls := s.calls[pid := Call(owner, Ended)])
      else s.(calls := s.calls[pid := Call(owner, Opened)])
    case BeginImmediate(pid) =>
      if At(s, pid) != Some(Opened) then s
      else if s.lock.Some? then Close(s, pid)
      else Move(s.(lock := Some(pid)), pid, Reserved)
    case ReadOwner(pid) =>
      if At(s, pid) != Some(Reserved) then s
      else if s.row.Some? && s.row.value != s.calls[pid].owner then Close(s, pid)
      else Move(s, pid, Claiming)
    case CommitOwner(pid) =>
      if At(s, pid) != Some(Claiming) then s
      else Move(s.(row := Some(s.calls[pid].owner), log := s.log + [Started(pid, s.calls[pid].owner)]), pid, Acting)
    case ActionReturns(pid) => if At(s, pid) != Some(Acting) then s else Move(s, pid, Returned)
    case CommitDelete(pid) =>
      if At(s, pid) != Some(Returned) then s
      else Close(s.(row := None, log := s.log + [Released(pid, s.calls[pid].owner)]), pid)
    case Fail(pid) => if pid in s.calls then Close(s, pid) else s
  }

  function Run(events: seq<Event>): State {
    if events == [] then INITIAL else Next(Run(events[..|events| - 1]), events[|events| - 1])
  }

  predicate HoldsLock(position: Position) { position.Reserved? || position.Claiming? || position.Acting? || position.Returned? }

  /** Whose row a log leaves behind: the last started action's, unless a row was deleted since. */
  function Owing(log: seq<Entry>): Option<string> {
    if log == [] then None else
    match log[|log| - 1]
    case Started(_, owner) => Some(owner)
    case Released(_, _) => None
  }

  /** Each entry follows what the log before it owes: a start needs its own row or none, a release its own. */
  predicate EntryFits(log: seq<Entry>, i: int)
    requires 0 <= i < |log|
  {
    var owing := Owing(log[..i]);
    match log[i]
    case Started(_, owner) => owing.None? || owing.value == owner
    case Released(pid, owner) => owing == Some(owner) && log[i - 1] == Started(pid, owner)
  }

  ghost predicate Inv(s: State) {
    && (forall pid :: pid in s.calls && HoldsLock(s.calls[pid].position) ==> s.lock == Some(pid))
    && (s.lock.Some? ==> s.lock.value in s.calls && HoldsLock(s.calls[s.lock.value].position))
    && s.row == Owing(s.log)
    && (forall pid :: pid in s.calls ==>
          match s.calls[pid].position
          case Claiming => s.row.None? || s.row.value == s.calls[pid].owner
          case Acting | Returned => s.log != [] && s.log[|s.log| - 1] == Started(pid, s.calls[pid].owner)
          case _ => true)
    && forall i :: 0 <= i < |s.log| ==> EntryFits(s.log, i)
  }

  lemma LogGrows(s: State, entry: Entry)
    requires Inv(s) && EntryFits(s.log + [entry], |s.log|)
    ensures Owing(s.log + [entry]) == (match entry case Started(_, owner) => Some(owner) case Released(_, _) => None)
    ensures forall i :: 0 <= i < |s.log + [entry]| ==> EntryFits(s.log + [entry], i)
  {
    forall i | 0 <= i < |s.log + [entry]|
      ensures EntryFits(s.log + [entry], i)
    {
      if i < |s.log| {
        assert EntryFits(s.log, i);
        assert (s.log + [entry])[..i] == s.log[..i];
      }
    }
  }

  lemma CommitOwnerKeepsInv(s: State, pid: Pid)
    requires Inv(s) && At(s, pid) == Some(Claiming)
    ensures Inv(Next(s, CommitOwner(pid)))
  {
    var entry := Started(pid, s.calls[pid].owner);
    assert (s.log + [entry])[..|s.log|] == s.log;
    LogGrows(s, entry);
    hide EntryFits, Owing;
  }

  lemma CommitDeleteKeepsInv(s: State, pid: Pid)
    requires Inv(s) && At(s, pid) == Some(Returned)
    ensures Inv(Next(s, CommitDelete(pid)))
  {
    var entry := Released(pid, s.calls[pid].owner);
    assert (s.log + [entry])[..|s.log|] == s.log;
    LogGrows(s, entry);
    hide EntryFits, Owing;
  }

  lemma NextKeepsInv(s: State, e: Event)
    requires Inv(s)
    ensures Inv(Next(s, e))
  {
    hide EntryFits, Owing;
    match e
    case CommitOwner(pid) => if At(s, pid) == Some(Claiming) { CommitOwnerKeepsInv(s, pid); }
    case CommitDelete(pid) => if At(s, pid) == Some(Returned) { CommitDeleteKeepsInv(s, pid); }
    case _ =>
  }

  lemma {:induction false} RunKeepsInv(events: seq<Event>)
    ensures Inv(Run(events))
  {
    if events != [] {
      RunKeepsInv(events[..|events| - 1]);
      NextKeepsInv(Run(events[..|events| - 1]), events[|events| - 1]);
    }
  }

  /** However the processes interleave and fail, at most one action runs, and it runs under its own committed row. */
  lemma OneActionAtATime(events: seq<Event>, p: Pid, q: Pid)
    requires At(Run(events), p) == At(Run(events), q) == Some(Acting)
    ensures p == q && Run(events).row == Some(Run(events).calls[p].owner)
  {
    RunKeepsInv(events);
  }

  /** The last entry before i that deletes a row this owner started; j is where that owner's action started. */
  lemma {:induction false} ReleaseBetween(log: seq<Entry>, j: int, i: int) returns (k: int)
    requires 0 <= j < i < |log| && log[j].Started? && log[i].Started? && log[j].owner != log[i].owner
    requires forall n :: 0 <= n < |log| ==> EntryFits(log, n)
    ensures j < k < i && log[k].Released? && log[k].owner == log[j].owner && log[k - 1] == Started(log[k].pid, log[j].owner)
    decreases i - j
  {
    assert EntryFits(log, j + 1);
    assert log[..j + 1][j] == log[j];
    if log[j + 1].Released? {
      k := j + 1;
    } else {
      k := ReleaseBetween(log, j + 1, i);
    }
  }

  /**
   No campaign is overtaken: between an owner's action and another owner's, one of the first owner's
   actions returned and its delete committed. A crash or a throw in between is no excuse.
   */
  lemma NoOwnerIsOvertaken(events: seq<Event>, j: int, i: int)
    requires var log := Run(events).log;
      0 <= j < i < |log| && log[j].Started? && log[i].Started? && log[j].owner != log[i].owner
    ensures var log := Run(events).log;
      exists k :: j < k < i && log[k].Released? && log[k].owner == log[j].owner
  {
    RunKeepsInv(events);
    var k := ReleaseBetween(Run(events).log, j, i);
  }
}
