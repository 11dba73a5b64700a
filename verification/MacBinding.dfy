/**
 The Mac a campaign uses stays bound and owed a cleanup: scripts/stable-qualification.ts, lines 1880-1914, with
 the order in which `runOwnedStableQualification`, lines 2009-2034, 2090-2204 and 2227-2235, starts Mac lanes,
 prepares the Mac fixture and cleans the Mac. Every persist may succeed, throw or crash the process.
 */
module MacBinding {
  import opened Wrappers
  import opened ReceiptEngine

  datatype Name =
    | Macos | OmpPublication | Android | AndroidPush | AndroidPushCleanup | DeviceCloud | DeviceCloudCleanup | Relay | Cleanup

  datatype LaneState = LaneState(status: Status, attempts: nat, evidence: bool)

  /** The part of a receipt that concerns the Mac. */
  datatype MacReceipt = MacReceipt(host: Option<string>, lanes: map<Name, LaneState>)

  const UNTOUCHED := LaneState(Pending, 0, false)

  ghost predicate Total(r: MacReceipt) { forall n: Name :: n in r.lanes }

  function AllUntouched(): map<Name, LaneState> {
    map[Macos := UNTOUCHED, OmpPublication := UNTOUCHED, Android := UNTOUCHED, AndroidPush := UNTOUCHED,
        AndroidPushCleanup := UNTOUCHED, DeviceCloud := UNTOUCHED, DeviceCloudCleanup := UNTOUCHED, Relay := UNTOUCHED,
        Cleanup := UNTOUCHED]
  }

  lemma UntouchedIsTotal(n: Name)
    ensures n in AllUntouched() && AllUntouched()[n] == UNTOUCHED
  {
    match n
    case Macos | OmpPublication | Android | AndroidPush | AndroidPushCleanup => {}
    case DeviceCloud | DeviceCloudCleanup | Relay | Cleanup => {}
  }

  const ALL := [Macos, OmpPublication, Android, AndroidPush, AndroidPushCleanup, DeviceCloud, DeviceCloudCleanup, Relay, Cleanup]
  const OWING := [Macos, OmpPublication, Android, AndroidPush, DeviceCloud, Relay, Cleanup]

  predicate HasMacEffects(r: MacReceipt) { exists n :: n in ALL && n in r.lanes && r.lanes[n] != UNTOUCHED }

  predicate NeedsMacCleanup(r: MacReceipt)
    requires Cleanup in r.lanes
  {
    !r.lanes[Cleanup].status.Passed? && exists n :: n in OWING && n in r.lanes && r.lanes[n].attempts > 0
  }

  /** The receipt is bound to no other Mac, and not unbound with effects on record. */
  predicate BindingHolds(r: MacReceipt, host: string) {
    r.host == Some(host) || (r.host.None? && !HasMacEffects(r))
  }

  /** Every recorded effect is on a bound Mac, and a lane passes only after an attempt. */
  ghost predicate Bound(r: MacReceipt) {
    && Total(r) && (HasMacEffects(r) ==> r.host.Some?)
    && forall n: Name :: r.lanes[n].status.Passed? ==> r.lanes[n].attempts > 0
  }

  /** A Mac that holds qualification state is the bound one, and its cleanup is owed. */
  ghost predicate Owed(r: MacReceipt, dirty: Option<string>) {
    Total(r) && (dirty.Some? ==> r.host == dirty && NeedsMacCleanup(r))
  }

  lemma TouchedIsEffect(r: MacReceipt, n: Name)
    requires n in r.lanes && r.lanes[n] != UNTOUCHED
    ensures HasMacEffects(r)
  {
    assert n in ALL by { if n.Macos? {} else if n.OmpPublication? {} else if n.Android? {} else if n.AndroidPush? {} }
  }

  lemma AttemptIsOwed(r: MacReceipt, n: Name)
    requires Total(r) && n in OWING && r.lanes[n].attempts > 0 && !r.lanes[Cleanup].status.Passed?
    ensures NeedsMacCleanup(r)
  {
  }

  /** Changing one lane, never back to fewer attempts, keeps what is owed unless it passes the cleanup. */
  lemma LaneChange(r: MacReceipt, n: Name, lane: LaneState, dirty: Option<string>)
    requires Bound(r) && Owed(r, dirty) && r.host.Some?
    requires lane.attempts >= r.lanes[n].attempts && (lane.status.Passed? ==> lane.attempts > 0)
    requires n == Cleanup && lane.status.Passed? ==> dirty.None?
    ensures var r' := r.(lanes := r.lanes[n := lane]); Bound(r') && Owed(r', dirty)
  {
    var r' := r.(lanes := r.lanes[n := lane]);
    if dirty.Some? {
      var m :| m in OWING && r.lanes[m].attempts > 0;
      AttemptIsOwed(r', m);
    }
  }

  method AnyLane() returns (n: Name, lane: LaneState) {
    n, lane := *, *;
  }

  class MacCampaign {
    var receipt: MacReceipt
    var file: MacReceipt
    /** The Mac, if any, that holds state of this campaign. */
    var dirty: Option<string>

    ghost predicate Valid()
      reads this
    {
      Bound(receipt) && Owed(receipt, dirty) && Bound(file) && Owed(file, dirty)
    }

    /** A Mac lane may act: the file already says whose Mac it is and that its cleanup is owed. */
    ghost predicate Ready(host: string)
      reads this
    {
      && Valid() && receipt.host == Some(host) && file.host == Some(host)
      && !receipt.lanes[Cleanup].status.Passed? && !file.lanes[Cleanup].status.Passed?
    }

    constructor ()
      ensures Valid() && dirty.None? && file.host.None?
    {
      receipt, file, dirty := MacReceipt(None, AllUntouched()), MacReceipt(None, AllUntouched()), None;
      new;
      forall n: Name { UntouchedIsTotal(n); }
    }

    method Persist() returns (o: Outcome)
      requires Valid()
      modifies this`file
      ensures Valid() && (file == receipt || file == old(file)) && (o.Done? ==> file == receipt)
    {
      o := *;
      var saved: bool := *;
      if o.Done? || saved { file := receipt; }
    }

    /** Lines 1902-1914. */
    method MarkMacCleanupRequired(host: string) returns (ok: bool, changed: bool)
      requires Valid()
      modifies this`receipt
      ensures Valid() && ok == BindingHolds(old(receipt), host)
      ensures !ok ==> receipt == old(receipt)
      ensures ok ==> receipt.host == Some(host) && !receipt.lanes[Cleanup].status.Passed?
      ensures ok && !changed ==> receipt == old(receipt)
      ensures forall n :: n != Cleanup && n in receipt.lanes ==> receipt.lanes[n] == old(receipt).lanes[n]
    {
      ok, changed := BindingHolds(receipt, host), false;
      if !ok { return; }
      changed := receipt.host.None?;
      receipt := receipt.(host := Some(host));
      var cleanup := receipt.lanes[Cleanup];
      if cleanup.status.Passed? {
        LaneChange(receipt, Cleanup, LaneState(Pending, cleanup.attempts, false), dirty);
        receipt := receipt.(lanes := receipt.lanes[Cleanup := LaneState(Pending, cleanup.attempts, false)]);
        changed := true;
      }
    }

    /** Lines 2010-2013, before any Mac lane or fixture. */
    method RequireMacCleanup(host: string) returns (o: Outcome)
      requires Valid() && BindingHolds(receipt, host) && (receipt.host.Some? ==> file.host == receipt.host)
      requires !receipt.lanes[Cleanup].status.Passed? ==> !file.lanes[Cleanup].status.Passed?
      modifies this`receipt, this`file
      ensures Valid() && receipt.host == Some(host) && (o.Done? ==> Ready(host))
      ensures file.host == receipt.host || file == old(file)
      ensures forall n :: n != Cleanup && n in receipt.lanes ==> receipt.lanes[n] == old(receipt).lanes[n]
      ensures file == receipt || file == old(file)
    {
      var ok, changed := MarkMacCleanupRequired(host);
      if !ok { return Threw; }
      o := Done;
      if changed { o := Persist(); }
    }

    /** A lane's new state, saved; in between, the lane acts on the Mac only once its start is saved. */
    method SaveLane(host: string, n: Name, lane: LaneState) returns (o: Outcome)
      requires Ready(host) && n != Cleanup
      requires lane.attempts >= receipt.lanes[n].attempts && (lane.status.Passed? ==> lane.attempts > 0)
      modifies this`receipt, this`file
      ensures Ready(host) && receipt == old(receipt).(lanes := old(receipt).lanes[n := lane])
      ensures file == receipt || file == old(file)
      ensures o.Done? ==> file == receipt
    {
      LaneChange(receipt, n, lane, dirty);
      receipt := receipt.(lanes := receipt.lanes[n := lane]);
      o := Persist();
    }

    /** The first effect on the Mac of a lane whose attempt the file records. */
    method Act(host: string, n: Name)
      requires Ready(host) && n in OWING && file.lanes[n].attempts > 0 && receipt.lanes[n].attempts > 0
      modifies this`dirty
      ensures Ready(host) && dirty == Some(host)
    {
      AttemptIsOwed(file, n);
      AttemptIsOwed(receipt, n);
      dirty := Some(host);
    }

    /** One lane from its start to its end, by executeReceiptLane or as the publication lane does it. */
    method RunMacLane(host: string, n: Name) returns (o: Outcome)
      requires Ready(host) && n in OWING && n != Cleanup
      modifies this
      ensures Ready(host)
    {
      var lane := receipt.lanes[n];
      o := SaveLane(host, n, LaneState(Running, lane.attempts + 1, lane.evidence));
      if !o.Done? { return; }
      Act(host, n);
      var status: Status := *;
      var evidence: bool := *;
      o := SaveLane(host, n, LaneState(status, receipt.lanes[n].attempts, evidence));
    }

    /** Lines 2227-2235 and cleanupMac: the cleanup lane passes only when the Mac holds nothing any more. */
    method RunCleanup() returns (o: Outcome)
      requires Valid() && receipt.host.Some?
      modifies this
      ensures Valid() && receipt.host == old(receipt.host)
      ensures file.host == receipt.host || file.host == old(file.host)
      ensures o.Done? ==> dirty.None? && receipt.lanes[Cleanup].status.Passed?
    {
      var lane := receipt.lanes[Cleanup];
      LaneChange(receipt, Cleanup, LaneState(Running, lane.attempts + 1, lane.evidence), dirty);
      receipt := receipt.(lanes := receipt.lanes[Cleanup := LaneState(Running, lane.attempts + 1, lane.evidence)]);
      o := Persist();
      if !o.Done? { return; }
      var cleaned: bool := *;
      if cleaned {
        dirty := None;
        LaneChange(receipt, Cleanup, LaneState(Passed, lane.attempts + 1, true), dirty);
        receipt := receipt.(lanes := receipt.lanes[Cleanup := LaneState(Passed, lane.attempts + 1, true)]);
        o := Persist();
        if !o.Threw? { return; }
      }
      var current := receipt.lanes[Cleanup];
      LaneChange(receipt, Cleanup, current.(status := Failed), dirty);
      receipt := receipt.(lanes := receipt.lanes[Cleanup := current.(status := Failed)]);
      o := Persist();
      if o.Done? { o := Threw; }
    }

    /** Lanes that run side by side on the bound Mac: any lane may be saved in any state, and act once it is recorded. */
    method RunLiveLanes(host: string) returns (o: Outcome)
      requires Ready(host)
      modifies this
      ensures Ready(host)
    {
      var n: nat := *;
      o := Done;
      while n > 0
        invariant Ready(host)
      {
        var name, lane := AnyLane();
        if name == Cleanup || lane.attempts < receipt.lanes[name].attempts { break; }
        if lane.status.Passed? && lane.attempts == 0 { break; }
        o := SaveLane(host, name, lane);
        if o.Crashed? { return; }
        if o.Done? && name in OWING && lane.attempts > 0 { Act(host, name); }
        n := n - 1;
      }
    }

    /** Lines 2090-2200: the macOS lane unless it passed, and the live lanes if any is still to pass. */
    method DriveMacLanes(host: string) returns (o: Outcome, required: bool)
      requires Valid() && BindingHolds(receipt, host) && file == receipt
      modifies this
      ensures Valid() && (required ==> receipt.host == Some(host)) && (!required ==> receipt == old(receipt))
      ensures old(file.host).Some? ==> file.host == old(file.host) && receipt.host == file.host
    {
      var macWasPassed := receipt.lanes[Macos].status.Passed?;
      required := false;
      o := Done;
      if !macWasPassed {
        required := true;
        o := RequireMacCleanup(host);
        if !o.Done? { return; }
        o := RunMacLane(host, Macos);
        if !o.Done? { return; }
      }
      var liveEvidenceNeeded: bool := *;
      if liveEvidenceNeeded {
        required := true;
        o := RequireMacCleanup(host);
        if !o.Done? { return; }
        if macWasPassed { Act(host, Macos); }
        o := RunMacLane(host, OmpPublication);
        if !o.Done? { return; }
        o := RunLiveLanes(host);
      }
    }

    /** In the finally path, a lane that was not driven is cleaned on the Mac it is already bound to. */
    method TouchLane(n: Name, lane: LaneState) returns (o: Outcome)
      requires Valid() && receipt.host.Some? && n != Cleanup
      requires lane.attempts >= receipt.lanes[n].attempts && (lane.status.Passed? ==> lane.attempts > 0)
      modifies this`receipt, this`file
      ensures Valid() && receipt.host == old(receipt.host) && (file == receipt || file == old(file))
    {
      LaneChange(receipt, n, lane, dirty);
      receipt := receipt.(lanes := receipt.lanes[n := lane]);
      o := Persist();
    }

    /** One invocation with a configured Mac, from loading the receipt to its end or a crash. */
    method Invoke(host: string)
      requires Valid()
      modifies this
      ensures Valid() && (old(file.host).Some? ==> file.host == old(file.host))
      ensures !BindingHolds(old(file), host) ==> file == old(file) && dirty == old(dirty)
    {
      receipt := file;
      if !BindingHolds(receipt, host) { return; }
      var cleanupRequired := NeedsMacCleanup(receipt);
      if cleanupRequired { OwedIsEffect(receipt); }
      var o: Outcome := *;
      if o.Crashed? { return; }
      if o.Done? {
        var required;
        o, required := DriveMacLanes(host);
        cleanupRequired := cleanupRequired || required;
        if o.Crashed? { return; }
      }
      for i := 0 to 2
        invariant Valid() && (cleanupRequired ==> receipt.host.Some?)
        invariant old(file.host).Some? ==> file.host == old(file.host) && receipt.host == file.host
      {
        var n := if i == 0 then AndroidPush else DeviceCloud;
        var cleanupLane := if i == 0 then AndroidPushCleanup else DeviceCloudCleanup;
        var cleaned: bool := *;
        if cleaned && receipt.lanes[n] != UNTOUCHED {
          TouchedIsEffect(receipt, n);
          var lane := receipt.lanes[cleanupLane];
          var status: Status := *;
          o := TouchLane(cleanupLane, LaneState(status, lane.attempts + 1, true));
          if o.Crashed? { return; }
        }
      }
      var reachable: bool := *;
      if cleanupRequired && reachable { o := RunCleanup(); }
    }

    /** Any number of invocations, each with whatever Mac is configured: the first one bound stays bound. */
    method Invocations(hosts: seq<string>)
      requires Valid()
      modifies this
      ensures Valid() && (old(file.host).Some? ==> file.host == old(file.host))
      ensures dirty.Some? ==> file.host == dirty && NeedsMacCleanup(file)
    {
      for i := 0 to |hosts|
        invariant Valid() && (old(file.host).Some? ==> file.host == old(file.host))
      {
        Invoke(hosts[i]);
      }
    }
  }

  lemma OwedIsEffect(r: MacReceipt)
    requires Total(r) && NeedsMacCleanup(r)
    ensures HasMacEffects(r)
  {
    var n :| n in OWING && r.lanes[n].attempts > 0;
    TouchedIsEffect(r, n);
  }
}
