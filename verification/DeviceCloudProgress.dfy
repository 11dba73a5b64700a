/**
 The only progress the device-cloud lane saves and reads back: scripts/device-cloud-qualification.ts, lines 34-60,
 107-132 and 213-243, and the session ids of scripts/testingbot.ts, line 30.
 */
module DeviceCloudProgress {
  import opened Characters
  import opened Wrappers

  /** A JSON value; a number is finite or not. */
  datatype Json =
    | Null
    | Bool(flag: bool)
    | Number(number: Option<real>)
    | Text(text: string)
    | List(items: seq<Json>)
    | Object(fields: map<string, Json>)

  type Observations = map<string, Json>

  datatype CloudProgress = CloudProgress(
    epoch: string, binding: string, phase: string, cleanupRequired: bool, sessions: seq<string>,
    results: map<string, Observations>)

  datatype Refusal = InvalidProgress | InvalidSessions | InvalidResults | RefusedResult | InconsistentCleanup

  const TARGETS := ["iphone", "ipad", "android"]
  const AUDIT := "audit"
  const RESTORED := "restored"
  const PHASES := [
    "attempt_started", "fixture_ready", "tunnel_ready", "iphone_verified", "ipad_verified", "android_verified",
    "records_audited", "evidence_complete", "restored"]

  // The grammars of single values.

  predicate IsHex(c: char) { IsDigit(c) || 'a' <= c <= 'f' }

  predicate AllHex(s: string) { forall i :: 0 <= i < |s| ==> IsHex(s[i]) }

  predicate IsDigest(s: string) { |s| == 64 && AllHex(s) }

  /** A version 4 UUID in lower case. */
  predicate IsEpoch(s: string) {
    && |s| == 36 && s[8] == '-' && s[13] == '-' && s[18] == '-' && s[23] == '-'
    && AllHex(s[..8]) && AllHex(s[9..13]) && s[14] == '4' && AllHex(s[15..18]) && s[19] in {'8', '9', 'a', 'b'}
    && AllHex(s[20..23]) && AllHex(s[24..])
  }

  predicate IsSessionId(s: string) {
    8 <= |s| <= 128 && forall i :: 0 <= i < |s| ==> IsLetter(s[i]) || IsDigit(s[i]) || s[i] in {'_', '-'}
  }

  predicate IsObservationName(s: string) {
    1 <= |s| <= 48 && 'a' <= s[0] <= 'z' && forall i :: 0 <= i < |s| ==> IsLetter(s[i])
  }

  function LowerChar(c: char): char { if 'A' <= c <= 'Z' then c - 'A' + 'a' else c }

  function Lower(s: string): (r: string)
    ensures |r| == |s| && forall i :: 0 <= i < |s| ==> r[i] == LowerChar(s[i])
  {
    seq(|s|, i requires 0 <= i < |s| => LowerChar(s[i]))
  }

  predicate Includes(s: string, word: string, from: nat)
    decreases |s| - from
  {
    from + |word| <= |s| && (s[from..from + |word|] == word || Includes(s, word, from + 1))
  }

  const SECRET_WORDS := ["capability", "password", "secret", "authkey", "token", "bearer"]

  predicate IsSecretName(s: string) { exists w :: w in SECRET_WORDS && Includes(Lower(s), w, 0) }

  predicate IsNumberPart(s: string) { 1 <= |s| <= 4 && forall i :: 0 <= i < |s| ==> IsDigit(s[i]) }

  /** One to four dot-separated numbers of up to four digits. */
  predicate IsVersionOf(s: string, parts: nat) {
    parts > 0
    && (IsNumberPart(s) || exists i :: 0 < i < |s| && s[i] == '.' && IsNumberPart(s[..i]) && IsVersionOf(s[i + 1..], parts - 1))
  }

  predicate IsVersion(s: string) { IsVersionOf(s, 4) }

  const MODELS := [
    "iPhone 17 Pro Max", "iPhone 17 Pro", "iPhone 16", "iPad (9th generation)", "Galaxy S26", "Galaxy S25", "Galaxy S24"]

  predicate IsGalaxyCode(s: string) {
    4 <= |s| <= 15 && s[..3] == "SM-" && forall i :: 3 <= i < |s| ==> 'A' <= s[i] <= 'Z' || IsDigit(s[i])
  }

  predicate IsObservationText(name: string, s: string) {
    || (name == "device" && s in MODELS) || (name == "model" && IsGalaxyCode(s))
    || (name in ["os", "browserVersion"] && IsVersion(s)) || (name == "browser" && s in ["safari", "chrome"])
    || (name == "pushServiceHost" && s == "web.push.apple.com")
  }

  predicate SafeObservation(name: string, item: Json) {
    && IsObservationName(name) && !IsSecretName(name)
    && (item.Bool? || (item.Number? && item.number.Some? && item.number.value >= 0.0)
        || (item.Text? && IsObservationText(name, item.text)))
  }

  predicate SafeObservations(result: Observations) { forall name :: name in result ==> SafeObservation(name, result[name]) }

  // The parser.

  predicate IsKey(key: string) { key == AUDIT || key in TARGETS }

  predicate IsResult(key: string, v: Json) { IsKey(key) && v.Object? && SafeObservations(v.fields) }

  /** The checks in their order; a value that passes them all is returned in typed form. */
  function Parse(v: Json): Result<CloudProgress, Refusal> {
    if !v.Object? || v.fields.Keys != {"binding", "cleanupRequired", "epoch", "lane", "phase", "results", "sessions"}
      || v.fields["lane"] != Text("deviceCloud") || !v.fields["epoch"].Text? || !IsEpoch(v.fields["epoch"].text)
      || !v.fields["binding"].Text? || !IsDigest(v.fields["binding"].text) || !v.fields["cleanupRequired"].Bool?
      || !v.fields["phase"].Text? || v.fields["phase"].text !in PHASES then Failure(InvalidProgress)
    else
      var sessions, results := v.fields["sessions"], v.fields["results"];
      if !sessions.List? || |sessions.items| > |TARGETS|
        || exists i :: 0 <= i < |sessions.items| && !(sessions.items[i].Text? && IsSessionId(sessions.items[i].text))
      then Failure(InvalidSessions)
      else if !results.Object? then Failure(InvalidResults)
      else if exists key :: key in results.fields && !IsResult(key, results.fields[key])
      then Failure(RefusedResult)
      else if (v.fields["phase"].text == RESTORED) == v.fields["cleanupRequired"].flag then Failure(InconsistentCleanup)
      else Success(CloudProgress(
        v.fields["epoch"].text, v.fields["binding"].text, v.fields["phase"].text, v.fields["cleanupRequired"].flag,
        seq(|sessions.items|, i requires 0 <= i < |sessions.items| => sessions.items[i].text),
        map key | key in results.fields :: results.fields[key].fields))
  }

  /** Progress as the JSON value it is saved as. */
  function Encode(p: CloudProgress): Json {
    Object(map[
      "lane" := Text("deviceCloud"), "epoch" := Text(p.epoch), "binding" := Text(p.binding), "phase" := Text(p.phase),
      "cleanupRequired" := Bool(p.cleanupRequired),
      "sessions" := List(seq(|p.sessions|, i requires 0 <= i < |p.sessions| => Text(p.sessions[i]))),
      "results" := Object(map key | key in p.results :: Object(p.results[key]))])
  }

  predicate SessionsFit(sessions: seq<string>) {
    |sessions| <= |TARGETS| && forall i :: 0 <= i < |sessions| ==> IsSessionId(sessions[i])
  }

  predicate ResultsFit(results: map<string, Observations>) {
    forall key :: key in results ==> IsKey(key) && SafeObservations(results[key])
  }

  predicate Fits(p: CloudProgress) {
    && IsEpoch(p.epoch) && IsDigest(p.binding) && p.phase in PHASES && SessionsFit(p.sessions) && ResultsFit(p.results)
    && (p.phase == RESTORED) == !p.cleanupRequired
  }

  /** What is saved is accepted exactly when it fits, and then read back as it was. */
  lemma ParseEncode(p: CloudProgress)
    ensures Fits(p) <==> Parse(Encode(p)).Success?
    ensures Fits(p) ==> Parse(Encode(p)) == Success(p)
  {
    hide IsEpoch, IsDigest, SafeObservations, IsSessionId;
    var v := Encode(p);
    var items, fields := v.fields["sessions"].items, v.fields["results"].fields;
    assert v.fields.Keys == {"binding", "cleanupRequired", "epoch", "lane", "phase", "results", "sessions"};
    assert forall i :: 0 <= i < |items| ==> items[i] == Text(p.sessions[i]);
    assert seq(|items|, i requires 0 <= i < |items| => items[i].text) == p.sessions;
    assert forall key :: key in p.results ==> fields[key] == Object(p.results[key]);
    assert (map key | key in fields :: fields[key].fields) == p.results;
    assert SessionsFit(p.sessions) <==> |items| <= |TARGETS| && forall i :: 0 <= i < |items| ==> IsSessionId(items[i].text);
  }

  /** Nothing else is accepted. */
  lemma ParseIsExact(v: Json)
    requires Parse(v).Success?
    ensures Fits(Parse(v).value) && Encode(Parse(v).value) == v
  {
    hide IsEpoch, IsDigest, SafeObservations, IsSessionId;
    var p := Parse(v).value;
    var e := Encode(p);
    assert e.fields["sessions"].items == v.fields["sessions"].items;
    assert e.fields["results"].fields == v.fields["results"].fields;
    assert e.fields == v.fields;
  }

  // The audit's own observations are safe.

  lemma {:induction false} IncludedStart(s: string, word: string, from: nat) returns (i: nat)
    requires |word| >= 3 && Includes(s, word, from)
    ensures from <= i && i + 3 <= |s| && s[i] == word[0] && s[i + 1] == word[1] && s[i + 2] == word[2]
    decreases |s| - from
  {
    if s[from..from + |word|] == word {
      i := from;
      assert s[from..from + |word|][0] == word[0] && s[from..from + |word|][1] == word[1] && s[from..from + |word|][2] == word[2];
    } else {
      i := IncludedStart(s, word, from + 1);
    }
  }

  /** The first three letters of one of the secret words, in lower case. */
  predicate StartsSecret(a: char, b: char, c: char) {
    || (a == 'c' && b == 'a' && c == 'p') || (a == 'p' && b == 'a' && c == 's') || (a == 's' && b == 'e' && c == 'c')
    || (a == 'a' && b == 'u' && c == 't') || (a == 't' && b == 'o' && c == 'k') || (a == 'b' && b == 'e' && c == 'a')
  }

  /** No place from i on starts like a secret word. */
  predicate NoSecretFrom(s: string, i: nat)
    decreases |s| - i
  {
    i + 3 > |s| || (!StartsSecret(LowerChar(s[i]), LowerChar(s[i + 1]), LowerChar(s[i + 2])) && NoSecretFrom(s, i + 1))
  }

  lemma {:induction false} NoSecretAt(s: string, i: nat, j: nat)
    requires NoSecretFrom(s, i) && i <= j && j + 3 <= |s|
    ensures !StartsSecret(LowerChar(s[j]), LowerChar(s[j + 1]), LowerChar(s[j + 2]))
    decreases j - i
  {
    if i < j { NoSecretAt(s, i + 1, j); }
  }

  lemma NoSecret(s: string)
    requires NoSecretFrom(s, 0)
    ensures !IsSecretName(s)
  {
    if w :| w in SECRET_WORDS && Includes(Lower(s), w, 0) {
      hide Includes;
      SecretStarts(w);
      var i := IncludedStart(Lower(s), w, 0);
      NoSecretAt(s, 0, i);
      hide *;
      assert false;
    }
  }

  lemma SecretStarts(w: string)
    requires w in SECRET_WORDS
    ensures |w| >= 3 && StartsSecret(w[0], w[1], w[2])
  {
  }

  function Audit(records: nat, exposing: nat, withMedia: nat): Observations {
    map["records" := Number(Some(records as real)), "recordsExposingLinks" := Number(Some(exposing as real)),
        "recordsWithMedia" := Number(Some(withMedia as real))]
  }

  lemma AuditIsSafe(records: nat, exposing: nat, withMedia: nat)
    ensures SafeObservations(Audit(records, exposing, withMedia))
  {
    AuditNamesAreSafe();
    hide IsObservationName, IsSecretName;
  }

  lemma AuditNamesAreSafe()
    ensures forall name :: name in ["records", "recordsExposingLinks", "recordsWithMedia"] ==>
      IsObservationName(name) && !IsSecretName(name)
  {
    RecordsIsSafe();
    ExposingIsSafe();
    MediaIsSafe();
    hide *;
  }

  lemma RecordsIsSafe()
    ensures IsObservationName("records") && !IsSecretName("records")
  {
    hide IsSecretName;
    assert NoSecretFrom("records", 0);
    NoSecret("records");
  }

  lemma ExposingIsSafe()
    ensures IsObservationName("recordsExposingLinks") && !IsSecretName("recordsExposingLinks")
  {
    hide IsSecretName;
    assert NoSecretFrom("recordsExposingLinks", 12);
    assert NoSecretFrom("recordsExposingLinks", 6);
    assert NoSecretFrom("recordsExposingLinks", 0);
    NoSecret("recordsExposingLinks");
  }

  lemma MediaIsSafe()
    ensures IsObservationName("recordsWithMedia") && !IsSecretName("recordsWithMedia")
  {
    hide IsSecretName;
    assert NoSecretFrom("recordsWithMedia", 7);
    assert NoSecretFrom("recordsWithMedia", 0);
    NoSecret("recordsWithMedia");
  }
}
