/**
 Resumable external lanes: scripts/stable-qualification.ts, lines 514-548 and 585-712, with the part of
 `runOwnedStableQualification`, lines 2204-2282, that decides what an invocation does with such a lane.

 One object holds one external lane with its cleanup lane, as the receipt in memory and as the receipt file, and
 the world outside: which attempts hold resources and which epochs have been used. Every persist may succeed, throw
 or crash the process; the other lanes persist the same receipt at any await. The lane's module is the most general
 one that keeps its contract.
 */
module ReceiptEngine {
  import opened LaneContract
  import opened Wrappers

  datatype Status = Pending | Running | Passed | Failed

  /** A primary lane records progress and whether its result passed; a cleanup lane the epoch it cleaned. */
  datatype Evidence = Evidence(progress: Progress, result: Option<bool>, epoch: Option<Epoch>)

  datatype Lane = Lane(status: Status, attempts: nat, evidence: Option<Evidence>)

  datatype Receipt = Receipt(status: Status, primary: Lane, cleanup: Lane)

  /** How a step ends: it returns, it throws, or the process is gone. */
  datatype Outcome = Done | Threw | Crashed

  const NEW_LANE := Lane(Pending, 0, None)
  const NEW_RECEIPT := Receipt(Running, NEW_LANE, NEW_LANE)

  function LaneProgress(lane: Lane): Progress { if lane.evidence.Some? then lane.evidence.value.progress else Absent }

  function ProgressEpoch(p: Progress): Option<Epoch> { if p.Absent? || p.epoch == "" then None else Some(p.epoch) }

  /** A lane that has been touched and whose progress owes a cleanup, or cannot be read. */
  predicate RecordedEffects(lane: Lane) {
    lane != NEW_LANE && Owes(LaneProgress(lane))
  }

  /** The cleanup lane's verdict carries the very epoch on record. */
  predicate CleanupCurrent(r: Receipt) {
    var epoch := ProgressEpoch(LaneProgress(r.primary));
    epoch.Some? && r.cleanup.status.Passed? && r.cleanup.evidence.Some? && r.cleanup.evidence.value.epoch == epoch
  }

  datatype Reason = LaneNotPassed | NoResult | ResultNotPassed | NotCleaned

  /** What the verdict would name of these two lanes, checked in the order status, result, epoch. */
  function Incomplete(r: Receipt): Option<Reason> {
    if !r.primary.status.Passed? || !r.cleanup.status.Passed? then Some(LaneNotPassed)
    else if r.primary.evidence.None? || r.primary.evidence.value.result.None? then Some(NoResult)
    else if r.primary.evidence.value.result == Some(false) then Some(ResultNotPassed)
    else if !CleanupCurrent(r) then Some(NotCleaned)
    else None
  }

  /**
   What holds of every receipt in memory and in the file, against the resources held outside: they belong to the
   one attempt recorded, which owes their cleanup; and a cleanup vouches only for an attempt that owes none.
   */
  ghost predicate Safe(r: Receipt, live: set<Epoch>, used: set<Epoch>) {
    var p := LaneProgress(r.primary);
    && (!p.Absent? ==> p.epoch in used && p.epoch != "")
    && (live != {} ==> Owes(p) && live == {p.epoch})
    && (r.cleanup.evidence.Some? && r.cleanup.evidence.value.epoch.Some? ==> r.cleanup.evidence.value.epoch.value in used)
    && (CleanupCurrent(r) ==> !Owes(p))
    && (r.primary.status.Passed? ==> !p.Absent? && r.primary.evidence.value.result == Some(true))
    && (r.primary.status.Pending? ==> p.Absent?)
    && (r.status.Passed? ==> Incomplete(r).None?)
  }

  /** A passed receipt holds no resources, and its last attempt was cleaned under its own epoch. */
  lemma PassedMeansReleased(r: Receipt, live: set<Epoch>, used: set<Epoch>)
    requires Safe(r, live, used) && r.status.Passed?
    ensures live == {}
    ensures var p := LaneProgress(r.primary);
      p.Recorded? && !p.owed && r.cleanup.status.Passed? && r.cleanup.evidence.value.epoch == Some(p.epoch)
  {
  }

  /** How the receipts and the world stand to an attempt in progress. */
  ghost predicate Linked(r: Receipt, file: Receipt, live: set<Epoch>, a: Attempt) {
    var p := LaneProgress(r.primary);
    && a.live == (live != {})
    && (a.epoch.None? ==> p.Absent? && !a.onRecord)
    && (a.epoch.Some? ==> !p.Absent? && p.epoch == a.epoch.value && Owes(p) == !a.over)
    && (a.onRecord && !a.over ==> var q := LaneProgress(file.primary); !q.Absent? && q.epoch == a.epoch.value && Owes(q))
  }

  function WithProgress(r: Receipt, p: Progress): Receipt {
    var result := if r.primary.evidence.Some? then r.primary.evidence.value.result else None;
    r.(primary := r.primary.(evidence := Some(Evidence(p, result, None))))
  }

  lemma CheckpointKeepsSafe(r: Receipt, file: Receipt, live: set<Epoch>, a: Attempt, p: Progress)
    requires Safe(r, live, a.used) && Safe(file, live, a.used) && Linked(r, file, live, a)
    requires Allowed(a, Checkpoint(p, true))
    requires r.status.Running? && !r.primary.status.Pending?
    ensures var used := a.used + {p.epoch};
      Safe(WithProgress(r, p), live, used) && Safe(file, live, used)
  {
  }

  /** A start of a module's run: what it was given, and which attempts held resources. */
  datatype Start = Start(resume: Progress, held: set<Epoch>)

  /** A run that begins a new attempt finds nothing held; one that resumes finds at most its own attempt's. */
  predicate Orderly(s: Start) {
    (Owes(s.resume) ==> s.held <= {s.resume.epoch}) && (!Owes(s.resume) ==> s.held == {})
  }

  class Campaign {
    var receipt: Receipt
    var file: Receipt
    var live: set<Epoch>
    var used: set<Epoch>
    ghost var starts: seq<Start>

    ghost predicate Valid()
      reads this
    {
      Safe(receipt, live, used) && Safe(file, live, used) && forall s :: s in starts ==> Orderly(s)
    }

    /** A campaign directory without a receipt loads as a new one. */
    constructor ()
      ensures Valid() && file == NEW_RECEIPT && live == {}
    {
      receipt, file, live, used, starts := NEW_RECEIPT, NEW_RECEIPT, {}, {}, [];
    }

    /** Lines 483-502: one save of the receipt in memory. Another lane's save of it may come first in any case. */
    method Persist() returns (o: Outcome)
      requires Valid()
      modifies this`file
      ensures Valid()
      ensures file == receipt || file == old(file)
      ensures o.Done? ==> file == receipt
    {
      o := *;
      var saved: bool := *;
      if o.Done? || saved { file := receipt; }
    }

    /** An await that is no persist of this lane: others may save the receipt, and the process may go. */
    method Await() returns (o: Outcome)
      requires Valid()
      modifies this`file
      ensures Valid() && (file == receipt || file == old(file))
    {
      o := Persist();
    }

    /** The first part of executeReceiptLane, up to its action. */
    method BeginPrimary() returns (o: Outcome)
      requires Valid() && receipt.status.Running?
      modifies this`file, this`receipt
      ensures Valid() && (o.Done? ==> file == receipt) && (file == receipt || file == old(file))
      ensures receipt == old(receipt).(primary := receipt.primary)
      ensures receipt.primary == old(receipt).primary.(status := Running, attempts := old(receipt).primary.attempts + 1)
    {
      receipt := receipt.(primary := receipt.primary.(status := Running, attempts := receipt.primary.attempts + 1));
      o := Persist();
    }

    method BeginCleanup() returns (o: Outcome)
      requires Valid() && receipt.status.Running?
      modifies this`file, this`receipt
      ensures Valid() && (o.Done? ==> file == receipt) && (file == receipt || file == old(file))
      ensures receipt == old(receipt).(cleanup := receipt.cleanup)
      ensures receipt.cleanup == old(receipt).cleanup.(status := Running, attempts := old(receipt).cleanup.attempts + 1)
    {
      receipt := receipt.(cleanup := receipt.cleanup.(status := Running, attempts := receipt.cleanup.attempts + 1));
      o := Persist();
    }

    /** Its part after an action that threw. */
    method FailPrimary() returns (o: Outcome)
      requires Valid() && receipt.status.Running?
      modifies this`file, this`receipt
      ensures Valid() && !o.Done?
      ensures receipt == old(receipt).(primary := old(receipt).primary.(status := Failed))
    {
      receipt := receipt.(primary := receipt.primary.(status := Failed));
      o := Persist();
      if o.Done? { o := Threw; }
    }

    method FailCleanup() returns (o: Outcome)
      requires Valid() && receipt.status.Running?
      modifies this`file, this`receipt
      ensures Valid() && !o.Done?
      ensures receipt == old(receipt).(cleanup := old(receipt).cleanup.(status := Failed))
    {
      receipt := receipt.(cleanup := receipt.cleanup.(status := Failed));
      o := Persist();
      if o.Done? { o := Threw; }
    }

    /** Lines 617-624: a checkpoint the contract allows leaves both receipts safe, saved or not. */
    method ExternalCheckpoint(a: Attempt, p: Progress) returns (o: Outcome, a': Attempt)
      requires Valid() && Linked(receipt, file, live, a) && a.used == used
      requires Allowed(a, Checkpoint(p, true))
      requires receipt.status.Running? && !receipt.primary.status.Pending?
      modifies this`file, this`receipt, this`used
      ensures Valid() && receipt == WithProgress(old(receipt), p) && used == old(used) + {p.epoch}
      ensures a' == After(a, Checkpoint(p, o.Done?)) && a'.used == used && Linked(receipt, file, live, a')
    {
      CheckpointKeepsSafe(receipt, file, live, a, p);
      receipt := WithProgress(receipt, p);
      used := used + {p.epoch};
      o := Persist();
      a' := After(a, Checkpoint(p, o.Done?));
    }

    /** One event of a module, chosen by it within its contract. */
    method TakeEvent(a: Attempt, e: Event) returns (o: Outcome, a': Attempt)
      requires Valid() && Linked(receipt, file, live, a) && a.used == used && Allowed(a, e)
      requires receipt.status.Running? && !receipt.primary.status.Pending?
      modifies this
      ensures Valid() && Linked(receipt, file, live, a') && a'.used == used
      ensures receipt.(primary := old(receipt).primary) == old(receipt)
      ensures receipt.primary.(evidence := None) == old(receipt).primary.(evidence := None)
      ensures ResultOf(receipt) == ResultOf(old(receipt)) && starts == old(starts)
      ensures AllowedInCleanup(a, e) ==> a'.epoch == a.epoch
    {
      match e {
        case Checkpoint(p, _) =>
          o, a' := ExternalCheckpoint(a, p);
        case Acquire =>
          live := live + {a.epoch.value};
          a' := After(a, e);
          o := Await();
        case ReleaseAll =>
          live := {};
          a' := After(a, e);
          o := Await();
      }
    }
  
    /** A module's run: any events its contract allows, then a result or an error. */
    method ModuleRun(resume: Progress) returns (o: Outcome, passed: bool)
      requires Valid() && receipt.status.Running? && receipt.primary.status.Running? && file == receipt
      requires resume == LaneProgress(receipt.primary)
      modifies this
      ensures Valid() && Orderly(Start(resume, old(live))) && starts == old(starts) + [Start(resume, old(live))]
      ensures receipt.(primary := old(receipt).primary) == old(receipt)
      ensures receipt.primary.(evidence := None) == old(receipt).primary.(evidence := None)
    {
      starts := starts + [Start(resume, live)];
      var a := Resumed(resume, live != {}, used);
      var n: nat := *;
      while n > 0
        invariant Valid() && Linked(receipt, file, live, a) && a.used == used
        invariant starts == old(starts) + [Start(resume, old(live))]
        invariant receipt.(primary := old(receipt).primary) == old(receipt)
        invariant receipt.primary.(evidence := None) == old(receipt).primary.(evidence := None)
      {
        var e: Event := *;
        if !Allowed(a, e) { break; }
        o, a := TakeEvent(a, e);
        if o.Crashed? { return o, false; }
        n := n - 1;
      }
      var settled: bool := *;
      passed := *;
      o := if settled then Done else Threw;
    }

    /** A module's cleanup of what the primary lane records. */
    method ModuleCleanup() returns (o: Outcome)
      requires Valid() && receipt.status.Running? && receipt.cleanup.status.Running? && file == receipt
      modifies this
      ensures Valid() && starts == old(starts)
      ensures receipt.(primary := old(receipt).primary) == old(receipt)
      ensures receipt.primary.(evidence := None) == old(receipt).primary.(evidence := None)
      ensures ResultOf(receipt) == ResultOf(old(receipt))
      ensures ProgressEpoch(LaneProgress(receipt.primary)) == ProgressEpoch(LaneProgress(old(receipt).primary))
    {
      var progress := LaneProgress(receipt.primary);
      var a := Resumed(progress, live != {}, used);
      var n: nat := *;
      while n > 0
        invariant Valid() && Linked(receipt, file, live, a) && a.used == used && starts == old(starts)
        invariant a.epoch == ProgressEpoch(progress)
        invariant receipt.(primary := old(receipt).primary) == old(receipt)
        invariant receipt.primary.(evidence := None) == old(receipt).primary.(evidence := None)
        invariant ResultOf(receipt) == ResultOf(old(receipt))
      {
        var e: Event := *;
        if !AllowedInCleanup(a, e) || receipt.primary.status.Pending? { break; }
        o, a := TakeEvent(a, e);
        if o.Crashed? { return; }
        n := n - 1;
      }
      var settled: bool := *;
      o := if settled then Done else Threw;
    }

    /** Lines 627-645: done means nothing held or owed, under a verdict that carries the epoch on record. */
    method CleanExternalLane() returns (o: Outcome)
      requires Valid() && receipt.status.Running?
      modifies this
      ensures Valid() && receipt.status.Running? && starts == old(starts)
      ensures receipt.primary.(evidence := None) == old(receipt).primary.(evidence := None)
      ensures ResultOf(receipt) == ResultOf(old(receipt))
      ensures ProgressEpoch(LaneProgress(receipt.primary)) == ProgressEpoch(LaneProgress(old(receipt).primary))
      ensures o.Done? ==> receipt.cleanup.status.Passed? && !Owes(LaneProgress(receipt.primary)) && live == {}
      ensures o.Done? && receipt.primary.evidence.Some? && !LaneProgress(receipt.primary).Absent? ==> CleanupCurrent(receipt)
    {
      o := BeginCleanup();
      if !o.Done? { return; }
      var epoch := ProgressEpoch(LaneProgress(receipt.primary));
      o := ModuleCleanup();
      if o.Done? && NeedsCleanup(LaneProgress(receipt.primary)) != Some(false) { o := Threw; }
      if o.Done? {
        receipt := receipt.(cleanup := receipt.cleanup.(status := Passed, evidence := Some(Evidence(Absent, None, epoch))));
        o := Persist();
      }
      if o.Threw? { o := FailCleanup(); }
    }

    /** Lines 657-697: done means that nothing is held and that the verdict has no objection to these lanes. */
    method RunExternalLane() returns (o: Outcome)
      requires Valid() && receipt.status.Running?
      modifies this
      ensures Valid() && receipt.status.Running?
      ensures o.Done? ==> Incomplete(receipt).None? && live == {}
    {
      var initial := receipt.primary.status;
      if initial.Passed? {
        o := Done;
        if !CleanupCurrent(receipt) || NeedsCleanup(LaneProgress(receipt.primary)) == Some(true) { o := CleanExternalLane(); }
        return;
      }
      if initial.Failed? {
        var needs := NeedsCleanup(LaneProgress(receipt.primary));
        if needs.None? { return Threw; }
        if needs.value || !CleanupCurrent(receipt) {
          o := CleanExternalLane();
          if !o.Done? { return; }
        }
      }
      var resumable := if initial.Running? then LaneProgress(receipt.primary) else Absent;
      if resumable.Absent? { receipt := receipt.(primary := receipt.primary.(evidence := None)); }
      var failed := true;
      o := BeginPrimary();
      if o.Done? {
        var passed;
        o, passed := ModuleRun(resumable);
        if o.Done? && (ProgressEpoch(LaneProgress(receipt.primary)).None? || !passed) { o := Threw; }
        if o.Done? {
          var evidence := Evidence(LaneProgress(receipt.primary), Some(passed), None);
          receipt := receipt.(primary := receipt.primary.(status := Passed, evidence := Some(evidence)));
          o := Persist();
          failed := !o.Done?;
        }
        if o.Threw? { o := FailPrimary(); }
      }
      if o.Crashed? { return; }
      o := CleanExternalLane();
      if o.Done? && failed { o := Threw; }
    }

    /** What one invocation does with this lane: loads the receipt, drives or only cleans the lane, and gives a verdict. */
    method Invoke() returns (passed: bool)
      requires Valid()
      modifies this
      ensures Valid()
      ensures passed ==> file.status.Passed? && live == {}
    {
      receipt := file.(status := Running);
      passed := false;
      var o: Outcome := *;
      var driven: bool := *;
      if o.Crashed? { return; }
      if driven {
        o := RunExternalLane();
      } else if RecordedEffects(receipt.primary) {
        // What a cleanup needs to reach, such as the Mac, may be out of reach; then the lane is left as it is.
        var reachable: bool := *;
        o := Threw;
        if reachable { o := CleanExternalLane(); }
      }
      if o.Crashed? { return; }
      var othersPassed: bool := *;
      if o.Done? && othersPassed && Incomplete(receipt).None? {
        receipt := receipt.(status := Passed);
        o := Persist();
        passed := o.Done?;
      } else {
        // An invocation that was not admitted and had nothing to clean reports nothing.
        var reported: bool := *;
        receipt := receipt.(status := Failed);
        if reported { o := Persist(); }
      }
    }

    /** Any number of invocations, each of which may crash anywhere. */
    method Invocations(n: nat)
      requires Valid()
      modifies this
      ensures Valid() && (file.status.Passed? ==> live == {})
    {
      for i := 0 to n
        invariant Valid()
      {
        var passed := Invoke();
      }
    }
  }

  function ResultOf(r: Receipt): Option<bool> { if r.primary.evidence.Some? then r.primary.evidence.value.result else None }
}
