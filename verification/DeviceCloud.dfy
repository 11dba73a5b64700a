/**
 The device-cloud lane: scripts/device-cloud-qualification.ts, lines 266-433. One object is one attempt: its
 progress, what it holds at the vendor and on the Mac, and what it has told the campaign. Every call into the
 runtime and every checkpoint may succeed or throw. The lane keeps the contract of LaneContract.
 */
module DeviceCloud {
  import opened DeviceCloudProgress
  import opened LaneContract
  import opened Wrappers

  datatype Resource = Session(id: string) | Tunnel | Fixture | Workspace

  /** A step of a release, in the order they are attempted. */
  datatype Call = EndSession(id: string) | StopTunnel | StopFixture | RemoveWorkspace

  function ReleaseCalls(sessions: seq<string>): seq<Call> {
    EndSessions(sessions) + [StopTunnel, StopFixture, RemoveWorkspace]
  }

  function EndSessions(sessions: seq<string>): seq<Call> {
    if sessions == [] then [] else EndSessions(sessions[..|sessions| - 1]) + [EndSession(sessions[|sessions| - 1])]
  }

  /** A session's record: what the vendor kept of it. */
  datatype TestRecord = TestRecord(text: string, media: bool)

  predicate SplitsLink(c: char) { c in {'/', '?', '#', '&', '='} }

  function PartEnd(link: string, i: nat): (end: nat)
    requires i <= |link|
    ensures i <= end <= |link|
    decreases |link| - i
  {
    if i == |link| || SplitsLink(link[i]) then i else PartEnd(link, i + 1)
  }

  function Parts(link: string): seq<string>
    decreases |link|
  {
    var end := PartEnd(link, 0);
    [link[..end]] + (if end < |link| then Parts(link[end + 1..]) else [])
  }

  /** A link shows in a text as a whole or by one of its long parts. */
  predicate Shows(text: string, link: string) {
    Includes(text, link, 0) || exists part :: part in Parts(link) && |part| >= 16 && Includes(text, part, 0)
  }

  /** What is searched for: the link, and each part of it of at least sixteen characters. */
  function Needles(links: seq<string>): seq<string> {
    if links == [] then []
    else Needles(links[..|links| - 1]) + [links[|links| - 1]] + Long(Parts(links[|links| - 1]))
  }

  function Long(parts: seq<string>): (r: seq<string>)
    ensures forall p :: p in r <==> p in parts && |p| >= 16
  {
    if parts == [] then [] else (if |parts[0]| >= 16 then [parts[0]] else []) + Long(parts[1..])
  }

  predicate Exposes(r: TestRecord, needles: seq<string>) { exists n :: n in needles && Includes(r.text, n, 0) }

  function Exposing(records: seq<TestRecord>, needles: seq<string>): nat {
    if records == [] then 0
    else Exposing(records[..|records| - 1], needles) + (if Exposes(records[|records| - 1], needles) then 1 else 0)
  }

  function WithMedia(records: seq<TestRecord>): nat {
    if records == [] then 0 else WithMedia(records[..|records| - 1]) + (if records[|records| - 1].media then 1 else 0)
  }

  predicate IsNeedle(n: string, link: string) { n == link || (n in Parts(link) && |n| >= 16) }

  lemma {:induction false} NeedlesAreAll(links: seq<string>, n: string)
    ensures n in Needles(links) <==> exists l :: l in links && IsNeedle(n, l)
  {
    hide Parts;
    if links != [] {
      var front, last := links[..|links| - 1], links[|links| - 1];
      NeedlesAreAll(front, n);
      assert links == front + [last];
      assert n in Needles(links) <==> n in Needles(front) || IsNeedle(n, last);
      hide Needles, IsNeedle;
      if l :| l in links && IsNeedle(n, l) { assert l in front || l == last; }
      if n in Needles(links) {
        if n in Needles(front) {
          var l :| l in front && IsNeedle(n, l);
          assert l in links;
        } else {
          assert last in links;
        }
      }
    }
  }

  lemma ShownByNeedle(text: string, link: string)
    ensures Shows(text, link) <==> exists n :: IsNeedle(n, link) && Includes(text, n, 0)
  {
    hide Includes, Parts;
    if Includes(text, link, 0) { assert IsNeedle(link, link); }
    if part :| part in Parts(link) && |part| >= 16 && Includes(text, part, 0) { assert IsNeedle(part, link); }
  }

  lemma ExposesIsShows(r: TestRecord, links: seq<string>)
    ensures Exposes(r, Needles(links)) <==> exists l :: l in links && Shows(r.text, l)
  {
    hide Shows, IsNeedle, Needles, Includes;
    if n :| n in Needles(links) && Includes(r.text, n, 0) {
      NeedlesAreAll(links, n);
      var l :| l in links && IsNeedle(n, l);
      ShownByNeedle(r.text, l);
    }
    if l :| l in links && Shows(r.text, l) {
      ShownByNeedle(r.text, l);
      var n :| IsNeedle(n, l) && Includes(r.text, n, 0);
      NeedlesAreAll(links, n);
    }
  }

  /** What has become of sessions on their way: recorded with all before it, or driven. */
  datatype Driving = Recording(ids: seq<string>) | Driven(id: string)

  /** Every driven session was recorded first. */
  predicate RecordedFirst(journal: seq<Driving>) {
    forall k :: 0 <= k < |journal| && journal[k].Driven? ==>
      exists j :: 0 <= j < k && journal[j].Recording? && journal[k].id in journal[j].ids
  }

  /** Each created session recorded behind the ones before it, and then driven. */
  function Drives(before: seq<string>, created: seq<string>): seq<Driving> {
    if created == [] then [] else
    Drives(before, created[..|created| - 1]) + [Recording(before + created), Driven(created[|created| - 1])]
  }

  /** What a target's run reports: the sessions it created, and its observations unless it threw. */
  datatype Verified = Verified(created: seq<string>, observations: Option<Observations>)

  method AnyVerified() returns (v: Verified) {
    v := *;
  }

  /** A session's record, once the vendor has finalized it. */
  method AnyRecord() returns (final: bool, record: TestRecord) {
    final, record := *, *;
  }

  /** A live link of a session whose generation has not changed. */
  method AnyLink() returns (same: bool, link: string) {
    same, link := *, *;
  }

  function VerifiedPhase(target: string): string
    requires target in TARGETS
  {
    if target == "iphone" then "iphone_verified" else if target == "ipad" then "ipad_verified" else "android_verified"
  }

  /** All of an attempt fits but perhaps its session ids. */
  ghost predicate Sound(p: CloudProgress) {
    && IsEpoch(p.epoch) && IsDigest(p.binding) && p.phase in PHASES && ResultsFit(p.results)
    && (p.phase == RESTORED) == !p.cleanupRequired
  }

  lemma SavableIffSessionsFit(p: CloudProgress)
    requires Sound(p)
    ensures Parse(Encode(p)).Success? <==> SessionsFit(p.sessions)
    ensures SessionsFit(p.sessions) ==> Parse(Encode(p)) == Success(p)
  {
    ParseEncode(p);
    hide Parse, Encode, IsEpoch, IsDigest, ResultsFit, SessionsFit;
  }

  /** Progress as the campaign sees it. */
  function View(v: Option<Json>): LaneContract.Progress {
    if v.None? then Absent
    else match Parse(v.value)
      case Success(p) => Recorded(p.epoch, p.cleanupRequired)
      case Failure(_) => Unreadable("")
  }

  class CloudAttempt {
    var progress: CloudProgress
    var held: set<Resource>
    ghost const began: Attempt
    ghost var attempt: Attempt
    ghost var events: seq<Event>
    ghost var calls: seq<Call>
    ghost var journal: seq<Driving>

    /** The attempt so far keeps its contract, and recorded each session before driving it. */
    ghost predicate Conforming()
      reads this
    {
      Sound(progress) && Conforms(began, events) && attempt == AfterAll(began, events) && RecordedFirst(journal)
    }

    /** Its first checkpoint is saved, its cleanup is owed, and each session it holds is recorded. */
    ghost predicate Open()
      reads this
    {
      && Conforming() && progress.cleanupRequired && attempt.epoch == Some(progress.epoch) && progress.epoch != ""
      && attempt.onRecord && !attempt.over && (held != {} ==> attempt.live)
      && forall id :: Session(id) in held ==> id in progress.sessions
    }

    /** An attempt before anything happens: a new one, or one read back for its cleanup. */
    constructor (progress: CloudProgress, held: set<Resource>, ghost began: Attempt)
      requires Sound(progress)
      ensures Conforming() && this.progress == progress && this.held == held && attempt == this.began == began
      ensures events == [] && calls == [] && journal == []
    {
      this.progress, this.held, this.began, this.attempt := progress, held, began, began;
      this.events, this.calls, this.journal := [], [], [];
    }

    /** One event, which the contract must allow. */
    ghost method Emit(e: Event)
      requires Conforming() && Allowed(attempt, e)
      modifies this`events, this`attempt
      ensures Conforming() && events == old(events) + [e] && attempt == After(old(attempt), e)
    {
      ConformsMore(began, events, e);
      events := events + [e];
      attempt := After(attempt, e);
    }

    /** Progress the parser would refuse is not offered to the campaign; any other is one checkpoint event. */
    method Save() returns (saved: bool)
      requires Conforming() && Allowed(attempt, Checkpoint(Recorded(progress.epoch, progress.cleanupRequired), true))
      modifies this`events, this`attempt, this`journal
      ensures journal == if saved then old(journal) + [Recording(progress.sessions)] else old(journal)
      ensures Conforming() && (saved ==> SessionsFit(progress.sessions))
      ensures var e := Checkpoint(Recorded(progress.epoch, progress.cleanupRequired), saved);
        if events == old(events) then !saved && attempt == old(attempt)
        else events == old(events) + [e] && attempt == After(old(attempt), e)
      ensures events == old(events) <==> !SessionsFit(progress.sessions)
    {
      SavableIffSessionsFit(progress);
      var parsed := Parse(Encode(progress));
      if parsed.Failure? { return false; }
      saved := *;
      Emit(Checkpoint(Recorded(progress.epoch, progress.cleanupRequired), saved));
      if saved {
        MoreRecordedFirst(journal, Recording(progress.sessions));
        journal := journal + [Recording(progress.sessions)];
      }
    }

    /** The journeys on one session, which its latest record names. */
    method DriveSession(id: string)
      requires Conforming() && journal != []
      requires journal[|journal| - 1].Recording? && id in journal[|journal| - 1].ids
      modifies this`journal
      ensures Conforming() && journal == old(journal) + [Driven(id)]
    {
      MoreRecordedFirst(journal, Driven(id));
      journal := journal + [Driven(id)];
    }

    method Advance(phase: string) returns (ok: bool)
      requires Open() && phase in PHASES && phase != RESTORED
      modifies this`progress, this`events, this`attempt, this`journal
      ensures Open() && progress == old(progress).(phase := phase)
    {
      progress := progress.(phase := phase);
      ok := Save();
    }

    /** Starts something outside, which may be there even if the start throws. */
    method Hold(resources: set<Resource>) returns (ok: bool)
      requires Open() && forall id :: Session(id) !in resources
      modifies this`held, this`events, this`attempt
      ensures Open()
    {
      Emit(Acquire);
      held := held + resources;
      ok := *;
    }

    /** One created session: held, recorded and only then driven. */
    method RecordAndDrive(id: string) returns (ok: bool)
      requires Open() && attempt.live
      modifies this`progress, this`held, this`events, this`attempt, this`journal
      ensures Open() && attempt.live && progress == old(progress).(sessions := old(progress).sessions + [id])
      ensures ok ==> journal == old(journal) + [Recording(progress.sessions), Driven(id)]
    {
      hide SessionsFit, ResultsFit, IsEpoch, IsDigest;
      held := held + {Session(id)};
      progress := progress.(sessions := progress.sessions + [id]);
      ok := Save();
      if ok { DriveSession(id); }
    }

    /** Every created session is recorded and then driven; only safe observations join the results. */
    method Verify(target: string) returns (ok: bool, ghost created: seq<string>)
      requires Open() && target in TARGETS
      modifies this
      ensures Open() && progress.(sessions := [], results := map[]) == old(progress).(sessions := [], results := map[])
      ensures ok ==> progress.results.Keys == old(progress).results.Keys + {target} && SafeObservations(progress.results[target])
      ensures ok ==> progress.sessions == old(progress).sessions + created
      ensures ok ==> journal == old(journal) + Drives(old(progress).sessions, created)
      ensures !ok ==> progress.results == old(progress).results
      ensures calls == old(calls)
    {
      var v := AnyVerified();
      created := v.created;
      Emit(Acquire);
      ok := DriveAll(v.created);
      if !ok || v.observations.None? || !SafeObservations(v.observations.value) { return false, created; }
      progress := progress.(results := progress.results[target := v.observations.value]);
    }

    method DriveAll(created: seq<string>) returns (ok: bool)
      requires Open() && attempt.live
      modifies this`progress, this`held, this`events, this`attempt, this`journal
      ensures Open() && progress.(sessions := []) == old(progress).(sessions := [])
      ensures ok ==> progress.sessions == old(progress).sessions + created
      ensures ok ==> journal == old(journal) + Drives(old(progress).sessions, created)
    {
      hide Open, Drives;
      ghost var before := progress.sessions;
      NoDrives(before);
      for i := 0 to |created|
        invariant Open() && attempt.live && progress.(sessions := []) == old(progress).(sessions := [])
        invariant progress.sessions == before + created[..i] && journal == old(journal) + Drives(before, created[..i])
      {
        DrivesStep(before, created, i);
        ok := RecordAndDrive(created[i]);
        if !ok { return; }
      }
      assert created[..|created|] == created;
      ok := true;
    }

    method ReadRecords() returns (ok: bool, records: seq<TestRecord>)
      ensures ok ==> |records| == |progress.sessions|
    {
      records := [];
      for i := 0 to |progress.sessions|
        invariant |records| == i
      {
        var final, record := AnyRecord();
        if !final { return false, records; }
        records := records + [record];
      }
      ok := true;
    }

    /** Four links, two of each session, and everything a record is searched for because of them. */
    method ReadLinks() returns (ok: bool, needles: seq<string>, ghost links: seq<string>)
      ensures ok ==> |links| == 4 && needles == Needles(links)
    {
      needles, links := [], [];
      for i := 0 to 4
        invariant |links| == i && needles == Needles(links)
      {
        var same, link := AnyLink();
        if !same { return false, needles, links; }
        assert (links + [link])[..|links|] == links;
        needles := needles + [link] + Long(Parts(link));
        links := links + [link];
      }
      ok := true;
    }

    /** The audit passes only if no session's record shows any live link, whole or by a long part, or keeps media. */
    method AuditRecords() returns (ok: bool, records: seq<TestRecord>, ghost links: seq<string>)
      requires Open()
      modifies this`progress, this`events, this`attempt, this`journal
      ensures Open() && progress.(results := map[]) == old(progress).(results := map[])
      ensures ok ==> |records| == |progress.sessions| && |links| == 4
      ensures ok ==> forall r, l :: r in records && l in links ==> !Shows(r.text, l)
      ensures ok ==> forall r :: r in records ==> !r.media
      ensures ok ==> progress.results == old(progress).results[AUDIT := Audit(|records|, 0, 0)]
    {
      hide Shows, Exposing, WithMedia, Needles, IsEpoch, IsDigest;
      links := [];
      ok, records := ReadRecords();
      if !ok { return; }
      var needles;
      ok, needles, links := ReadLinks();
      if !ok { return; }
      var exposing, withMedia := Exposing(records, needles), WithMedia(records);
      CountsAreExact(records, links);
      AuditIsSafe(|records|, exposing, withMedia);
      progress := progress.(results := progress.results[AUDIT := Audit(|records|, exposing, withMedia)]);
      ok := Save();
      ok := ok && exposing == 0 && withMedia == 0;
    }

    /** A return means safe results for every target and a clean audit; the attempt stays open whichever way it ends. */
    method Drive() returns (ok: bool)
      requires Open() && progress.results == map[]
      modifies this
      ensures Open() && calls == old(calls) && progress.epoch == old(progress.epoch)
      ensures ok ==> progress.phase == "evidence_complete" && progress.results.Keys == set t | t in TARGETS + [AUDIT]
    {
      hide Open, Conforming, SafeObservations, IsEpoch;
      ok := Hold({Fixture, Workspace});
      if !ok { return; }
      var published: bool := *;
      if !published { return false; }
      ok := Advance("fixture_ready");
      if !ok { return; }
      ok := Hold({Tunnel});
      if !ok { return; }
      ok := Advance("tunnel_ready");
      if !ok { return; }
      for i := 0 to |TARGETS|
        invariant Open() && calls == old(calls) && progress.epoch == old(progress.epoch)
        invariant progress.results.Keys == set t | t in TARGETS[..i]
      {
        assert TARGETS[..i + 1] == TARGETS[..i] + [TARGETS[i]];
        ghost var created;
        ok, created := Verify(TARGETS[i]);
        if !ok { return; }
        ok := Advance(VerifiedPhase(TARGETS[i]));
        if !ok { return; }
      }
      assert TARGETS[..|TARGETS|] == TARGETS;
      var records;
      ghost var links;
      ok, records, links := AuditRecords();
      if !ok { return; }
      ok := Advance("records_audited");
      if !ok { return; }
      ok := Advance("evidence_complete");
    }

    /** The calls go out for all sessions in order; the step succeeds only when no session is held any more. */
    method EndAllSessions() returns (ok: bool)
      requires Open()
      modifies this`held, this`calls
      ensures Open() && held <= old(held) && calls == old(calls) + EndSessions(progress.sessions)
      ensures ok ==> forall id :: Session(id) !in held
    {
      var ended := 0;
      for i := 0 to |progress.sessions|
        invariant Open() && held <= old(held) && ended <= i
        invariant calls == old(calls) + EndSessions(progress.sessions[..i])
        invariant ended == i ==> forall j :: 0 <= j < i ==> Session(progress.sessions[j]) !in held
      {
        var id := progress.sessions[i];
        assert progress.sessions[..i + 1][..i] == progress.sessions[..i];
        calls := calls + [EndSession(id)];
        var gone: bool := *;
        if gone {
          held := held - {Session(id)};
          ended := ended + 1;
        }
      }
      assert progress.sessions[..|progress.sessions|] == progress.sessions;
      ok := ended == |progress.sessions|;
    }

    /** One other release step. */
    method Stop(call: Call, resource: Resource) returns (ok: bool)
      requires Open() && !resource.Session?
      modifies this`held, this`calls
      ensures Open() && calls == old(calls) + [call] && held == if ok then old(held) - {resource} else old(held)
    {
      calls := calls + [call];
      ok := *;
      if ok { held := held - {resource}; }
    }

    /** All steps are called, and when all succeed nothing is left. */
    method Steps() returns (restored: bool)
      requires Open()
      modifies this`held, this`calls
      ensures Open() && calls == old(calls) + ReleaseCalls(progress.sessions) && (restored ==> held == {})
    {
      hide IsEpoch, IsDigest, ResultsFit, SessionsFit, Conforms, AfterAll;
      var sessions := EndAllSessions();
      var tunnel := Stop(StopTunnel, Tunnel);
      var fixture := Stop(StopFixture, Fixture);
      var workspace := Stop(RemoveWorkspace, Workspace);
      restored := sessions && tunnel && fixture && workspace;
      if restored { NothingHeld(held); }
    }

    /**
     The four steps are called in order on every path; the attempt becomes restored exactly when all four succeeded,
     and then it holds nothing.
     */
    method Release() returns (ok: bool, restored: bool)
      requires Open()
      modifies this
      ensures Conforming() && calls == old(calls) + ReleaseCalls(progress.sessions)
      ensures restored <==> progress.phase == RESTORED && !progress.cleanupRequired
      ensures restored ==> held == {} && progress == old(progress).(cleanupRequired := false, phase := RESTORED)
      ensures !restored ==> Open() && progress == old(progress) && !ok
      ensures ok ==> restored && attempt.over && !attempt.live
      ensures ok ==> |events| == |old(events)| + 2 && events[|events| - 1] == Checkpoint(Recorded(progress.epoch, false), true)
      ensures old(events) <= events && IsRelease(events[|old(events)|..], progress.epoch)
    {
      hide IsEpoch, IsDigest, ResultsFit, SessionsFit, Conforms, AfterAll;
      restored := Steps();
      if !restored { return false, restored; }
      Emit(ReleaseAll);
      progress := progress.(cleanupRequired := false, phase := RESTORED);
      ok := Save();
    }

    /** The leased action of a run: one attempt and its release. */
    method RunAttempt() returns (ok: bool, begun: bool)
      requires Conforming() && progress.results == map[] && progress.sessions == [] && progress.cleanupRequired
      requires held == {} && events == [] && calls == [] && attempt == began
      requires Allowed(began, Checkpoint(Recorded(progress.epoch, true), true))
      requires began.epoch != Some(progress.epoch)
      modifies this
      ensures Conforming()
      ensures RecordedFirst(journal)
      ensures begun ==> calls == ReleaseCalls(progress.sessions)
      ensures !begun ==> calls == [] && held == {} && !ok
      ensures held == {} || (progress.cleanupRequired && attempt.onRecord && !attempt.over)
      ensures ok ==> held == {} && attempt.over && progress.phase == RESTORED
      ensures progress.epoch == old(progress.epoch)
    {
      begun := Save();
      if !begun { return false, begun; }
      var driven := Drive();
      var released, restored := Release();
      ok := driven && released;
    }
  }

  /**
   A run, given a fresh epoch: refuses progress that is unreadable, of another candidate, or still owes a cleanup, and
   otherwise drives and releases one attempt. Whatever happens, what it tells the campaign keeps the contract.
   */
  method RunDeviceCloud(bind: Option<string>, resume: Option<Json>, epoch: string, ghost live: bool, ghost used: set<Epoch>)
    returns (ok: bool, ghost events: seq<Event>)
    requires (bind.Some? ==> IsDigest(bind.value)) && IsEpoch(epoch) && epoch !in used
    requires (Owes(View(resume)) || !live) && (View(resume).Recorded? ==> View(resume).epoch in used)
    ensures Conforms(Resumed(View(resume), live, used), events)
    ensures Owes(View(resume)) ==> !ok && events == []
    ensures ok ==> AfterAll(Resumed(View(resume), live, used), events).over
  {
    ok, events := false, [];
    if bind.None? { return; }
    if resume.Some? {
      var previous := Parse(resume.value);
      if previous.Failure? || previous.value.binding != bind.value || previous.value.cleanupRequired { return; }
    }
    var admitted, leased: bool := *, *;
    if !admitted || !leased { return; }
    var progress := CloudProgress(epoch, bind.value, "attempt_started", true, [], map[]);
    var attempt := new CloudAttempt(progress, {}, Resumed(View(resume), live, used));
    var begun;
    ok, begun := attempt.RunAttempt();
    events := attempt.events;
  }

  /**
   A cleanup, given recorded progress of this candidate that owes one: a release of what that progress names, within
   the cleanup contract. Progress that owes none is already restored, and any other is refused.
   */
  method CleanupDeviceCloud(bind: Option<string>, recorded: Json, held: set<Resource>, ghost used: set<Epoch>)
    returns (ok: bool, ghost events: seq<Event>)
    requires Parse(recorded).Success? ==> forall id :: Session(id) in held ==> id in Parse(recorded).value.sessions
    requires !Owes(View(Some(recorded))) ==> held == {}
    ensures ConformsInCleanup(Resumed(View(Some(recorded)), held != {}, used), events)
    ensures ok ==> Parse(recorded).Success? && bind == Some(Parse(recorded).value.binding)
    ensures ok && Owes(View(Some(recorded))) ==>
      events != [] && events[|events| - 1] == Checkpoint(Recorded(Parse(recorded).value.epoch, false), true)
    ensures ok && !Owes(View(Some(recorded))) ==> events == []
  {
    ok, events := false, [];
    var parsed := Parse(recorded);
    if parsed.Failure? || bind != Some(parsed.value.binding) { return; }
    var progress := parsed.value;
    if !progress.cleanupRequired { return true, events; }
    var leased: bool := *;
    if !leased { return; }
    ParseIsExact(recorded);
    ghost var began := Resumed(View(Some(recorded)), held != {}, used);
    var attempt := new CloudAttempt(progress, held, began);
    var restored;
    ok, restored := attempt.Release();
    events := attempt.events;
    ReleaseConforms(began, events, progress.epoch);
  }

  lemma NothingHeld(held: set<Resource>)
    requires (forall id :: Session(id) !in held) && Tunnel !in held && Fixture !in held && Workspace !in held
    ensures held == {}
  {
    forall r | r in held ensures false {
      match r
      case Session(id) => assert false;
      case Tunnel => assert false;
      case Fixture => assert false;
      case Workspace => assert false;
    }
  }

  lemma {:induction false} CountsAreExact(records: seq<TestRecord>, links: seq<string>)
    ensures Exposing(records, Needles(links)) == 0 <==> forall r, l :: r in records && l in links ==> !Shows(r.text, l)
    ensures WithMedia(records) == 0 <==> forall r :: r in records ==> !r.media
  {
    hide Shows, Exposes, Needles;
    if records != [] {
      var front, last := records[..|records| - 1], records[|records| - 1];
      CountsAreExact(front, links);
      ExposesIsShows(last, links);
      assert records == front + [last];
    }
  }

  lemma MoreRecordedFirst(journal: seq<Driving>, entry: Driving)
    requires RecordedFirst(journal)
    requires entry.Driven? ==> exists j :: 0 <= j < |journal| && journal[j].Recording? && entry.id in journal[j].ids
    ensures RecordedFirst(journal + [entry])
  {
    var more := journal + [entry];
    forall k | 0 <= k < |more| && more[k].Driven?
      ensures exists j :: 0 <= j < k && more[j].Recording? && more[k].id in more[j].ids
    {
      if k < |journal| {
        assert more[k] == journal[k];
        var j :| 0 <= j < k && journal[j].Recording? && journal[k].id in journal[j].ids;
        assert more[j] == journal[j];
      } else {
        var j :| 0 <= j < |journal| && journal[j].Recording? && entry.id in journal[j].ids;
        assert more[j] == journal[j];
      }
    }
  }

  lemma NoDrives(before: seq<string>)
    ensures Drives(before, []) == []
  {
  }

  lemma DrivesStep(before: seq<string>, created: seq<string>, i: nat)
    requires i < |created|
    ensures created[..i + 1] == created[..i] + [created[i]]
    ensures Drives(before, created[..i + 1]) ==
      Drives(before, created[..i]) + [Recording(before + created[..i + 1]), Driven(created[i])]
  {
    assert created[..i + 1][..i] == created[..i];
  }
}
