/**
 Version strings, tracking requests and candidate tags: scripts/release-driver.ts, `compareVersions`,
 `requestVersion`, `selectRequest` and `nextCandidate`.

 `BigInt(text)` and `${number}` are the two directions of one decimal notation, so candidate numbers
 are read back exactly as they were printed.
 */
module Versions {
  import opened Characters
  import opened Wrappers

  function Digit(n: nat): char
    requires n < 10
  {
    '0' + n as char
  }

  /** Decimal text without a leading zero. */
  function Print(n: nat): (s: string)
    ensures s != ""
    ensures forall c :: c in s ==> IsDigit(c)
    ensures s[0] == '0' ==> n == 0 && s == "0"
  {
    if n < 10 then [Digit(n)] else Print(n / 10) + [Digit(n % 10)]
  }

  function DigitValue(c: char): (n: nat)
    requires IsDigit(c)
    ensures n < 10 && Digit(n) == c
  {
    c as int - '0' as int
  }

  function DigitsValue(s: string): nat
    requires forall c :: c in s ==> IsDigit(c)
  {
    if s == "" then 0 else DigitsValue(s[..|s| - 1]) * 10 + DigitValue(s[|s| - 1])
  }

  /** Text matching `0|[1-9][0-9]*`. */
  predicate IsCanonical(s: string) {
    s != "" && (forall c :: c in s ==> IsDigit(c)) && (s[0] == '0' ==> s == "0")
  }

  function Parse(s: string): Option<nat> {
    if IsCanonical(s) then Some(DigitsValue(s)) else None
  }

  lemma {:induction false} ParsePrint(n: nat)
    ensures Parse(Print(n)) == Some(n)
  {
    var s := Print(n);
    if n < 10 {
      assert s == [Digit(n)] && s[..0] == "" && DigitsValue("") == 0;
      assert DigitsValue(s) == DigitsValue(s[..0]) * 10 + DigitValue(s[0]);
    } else {
      ParsePrint(n / 10);
      assert s[..|s| - 1] == Print(n / 10) && DigitValue(s[|s| - 1]) == n % 10;
      assert s[0] == Print(n / 10)[0];
    }
  }

  lemma {:induction false} PrintParse(s: string)
    requires IsCanonical(s)
    ensures Print(DigitsValue(s)) == s
  {
    var front, d := s[..|s| - 1], DigitValue(s[|s| - 1]);
    assert s == front + [Digit(d)];
    if front == "" {
      assert DigitsValue(s) == d;
    } else {
      assert front[0] == s[0];
      PrintParse(front);
      assert DigitsValue(front) > 0;
      assert DigitsValue(s) / 10 == DigitsValue(front) && DigitsValue(s) % 10 == d;
    }
  }

  datatype Version = Version(major: nat, minor: nat, patch: nat)

  function Compare(a: Version, b: Version): int {
    if a.major != b.major then (if a.major > b.major then 1 else -1)
    else if a.minor != b.minor then (if a.minor > b.minor then 1 else -1)
    else if a.patch != b.patch then (if a.patch > b.patch then 1 else -1)
    else 0
  }

  function PrintVersion(v: Version): string {
    Print(v.major) + "." + Print(v.minor) + "." + Print(v.patch)
  }

  /** The position of the first occurrence of c, or |s|. */
  function Find(s: string, c: char): (i: nat)
    ensures i <= |s| && (i < |s| ==> s[i] == c)
    ensures forall k :: 0 <= k < i ==> s[k] != c
  {
    if s == "" || s[0] == c then 0 else 1 + Find(s[1..], c)
  }

  lemma FindAfter(prefix: string, c: char, rest: string)
    requires c !in prefix
    ensures Find(prefix + [c] + rest, c) == |prefix|
  {
    var s := prefix + [c] + rest;
    assert s[|prefix|] == c;
    assert forall k :: 0 <= k < |prefix| ==> s[k] == prefix[k];
  }

  /** `/^(0|[1-9][0-9]*)\.(0|[1-9][0-9]*)\.(0|[1-9][0-9]*)$/` */
  function ParseBare(s: string): Option<Version> {
    var i := Find(s, '.');
    if i == |s| then None else
    var rest := s[i + 1..];
    var j := Find(rest, '.');
    if j == |rest| then None else
    match (Parse(s[..i]), Parse(rest[..j]), Parse(rest[j + 1..]))
    case (Some(a), Some(b), Some(c)) => Some(Version(a, b, c))
    case _ => None
  }

  /** The same with an optional leading `v`. */
  function ParseVersion(s: string): Option<Version> {
    if s != "" && s[0] == 'v' then ParseBare(s[1..]) else ParseBare(s)
  }

  lemma ParseJoined(a: string, b: string, c: string)
    requires IsCanonical(a) && IsCanonical(b) && IsCanonical(c)
    ensures ParseBare(a + "." + b + "." + c) == Some(Version(DigitsValue(a), DigitsValue(b), DigitsValue(c)))
  {
    hide DigitsValue;
    var rest := b + ['.'] + c;
    var s := a + ['.'] + rest;
    assert a + "." + b + "." + c == s;
    FindAfter(a, '.', rest);
    FindAfter(b, '.', c);
    assert s[..|a|] == a && s[|a| + 1..] == rest;
    assert rest[..|b|] == b && rest[|b| + 1..] == c;
  }

  lemma ParsePrintVersion(v: Version)
    ensures ParseBare(PrintVersion(v)) == Some(v)
    ensures ParseVersion("v" + PrintVersion(v)) == Some(v)
    ensures ParseVersion(PrintVersion(v)) == Some(v)
  {
    ParsePrint(v.major);
    ParsePrint(v.minor);
    ParsePrint(v.patch);
    ParseJoined(Print(v.major), Print(v.minor), Print(v.patch));
    assert ("v" + PrintVersion(v))[1..] == PrintVersion(v);
    assert IsDigit(PrintVersion(v)[0]);
  }

  /** `compareVersions`; None where the source throws. */
  function CompareVersions(a: string, b: string): Option<int> {
    match (ParseVersion(a), ParseVersion(b))
    case (Some(x), Some(y)) => Some(Compare(x, y))
    case _ => None
  }

  predicate NotBelow(a: string, b: string) { CompareVersions(a, b).Some? && CompareVersions(a, b).value >= 0 }

  /**
   The comparison throws exactly when a text is no version. On versions it is a total order: zero only between texts
   of one version, opposite when turned around, and transitive.
   */
  lemma CompareVersionsIsOrder(a: string, b: string, c: string)
    ensures CompareVersions(a, b).Some? <==> ParseVersion(a).Some? && ParseVersion(b).Some?
    ensures CompareVersions(a, b) == Some(0) <==> ParseVersion(a).Some? && ParseVersion(a) == ParseVersion(b)
    ensures CompareVersions(a, b).Some? ==> CompareVersions(b, a) == Some(0 - CompareVersions(a, b).value)
    ensures NotBelow(a, b) && NotBelow(b, c) ==> NotBelow(a, c)
  {
    hide ParseVersion;
  }

  datatype Issue = Issue(number: nat, title: string, author: string, request: string)

  const TITLE_PREFIX := "Upstream tracking: "

  /** The version a request names, when it was opened by the workflow under the exact title. */
  function RequestVersion(issue: Issue): (v: Option<Version>) {
    var n := |TITLE_PREFIX|;
    if issue.author == "github-actions[bot]" && TITLE_PREFIX <= issue.title && |issue.title| > n && issue.title[n] == 'v'
    then ParseBare(issue.title[n + 1..]) else None
  }

  datatype Request = Request(version: Version, issue: Issue)

  /** `issues.filter(issue => requestVersion(issue) !== undefined)`, each with the version it names. */
  function Requests(issues: seq<Issue>): (r: seq<Request>)
    ensures forall q :: q in r ==> q.issue in issues && RequestVersion(q.issue) == Some(q.version)
    ensures forall i :: i in issues && RequestVersion(i).Some? ==> Request(RequestVersion(i).value, i) in r
  {
    if issues == [] then [] else
    var front, last := issues[..|issues| - 1], issues[|issues| - 1];
    assert issues == front + [last];
    match RequestVersion(last)
    case Some(v) => Requests(front) + [Request(v, last)]
    case None => Requests(front)
  }

  /** The order `selectRequest` sorts by, highest first: version, then issue number. */
  predicate Outranks(a: Request, b: Request) {
    var c := Compare(a.version, b.version);
    c > 0 || (c == 0 && a.issue.number > b.issue.number)
  }

  /** The first element of the sorted requests: an earlier request wins a tie, as the sort is stable. */
  function Highest(requests: seq<Request>): Request
    requires requests != []
  {
    var front, last := requests[..|requests| - 1], requests[|requests| - 1];
    if front == [] || Outranks(last, Highest(front)) then last else Highest(front)
  }

  lemma {:induction false} HighestIsHighest(requests: seq<Request>)
    requires requests != []
    ensures Highest(requests) in requests
    ensures forall r :: r in requests ==> !Outranks(r, Highest(requests))
  {
    var front, last := requests[..|requests| - 1], requests[|requests| - 1];
    assert requests == front + [last];
    if front != [] { HighestIsHighest(front); }
  }

  function SelectRequest(issues: seq<Issue>): Option<Issue> {
    if Requests(issues) == [] then None else Some(Highest(Requests(issues)).issue)
  }

  /** The selected issue is a valid request that no valid request outranks; there is one unless none is valid. */
  lemma SelectRequestHighest(issues: seq<Issue>)
    ensures SelectRequest(issues).None? <==> forall i :: i in issues ==> RequestVersion(i).None?
    ensures SelectRequest(issues).Some? ==>
      var best := SelectRequest(issues).value;
      && best in issues && RequestVersion(best).Some?
      && forall i :: i in issues && RequestVersion(i).Some? ==>
        !Outranks(Request(RequestVersion(i).value, i), Request(RequestVersion(best).value, best))
  {
    var requests := Requests(issues);
    if requests != [] {
      HighestIsHighest(requests);
      assert Highest(requests) in requests;
    }
  }

  function CandidatePrefix(version: string): string { "v" + version + "-prealpha." }

  /** The prealpha number of a tag of this version: the suffix must match `[1-9][0-9]*`. */
  function CandidateNumber(version: string, tag: string): Option<nat> {
    var prefix := CandidatePrefix(version);
    if prefix <= tag && IsCanonical(tag[|prefix|..]) && tag[|prefix|..] != "0"
    then Some(DigitsValue(tag[|prefix|..])) else None
  }

  function HighestCandidate(version: string, tags: seq<string>): (n: nat)
    ensures forall t :: t in tags && CandidateNumber(version, t).Some? ==> CandidateNumber(version, t).value <= n
    ensures n == 0 || exists t :: t in tags && CandidateNumber(version, t) == Some(n)
  {
    if tags == [] then 0 else
    var front, last := tags[..|tags| - 1], tags[|tags| - 1];
    assert forall t :: t in tags <==> t in front || t == last;
    var n := HighestCandidate(version, front);
    match CandidateNumber(version, last)
    case Some(m) => if m > n then m else n
    case None => n
  }

  function NextCandidate(version: string, tags: seq<string>): string {
    CandidatePrefix(version) + Print(HighestCandidate(version, tags) + 1)
  }

  /** A new candidate is above every published one, and so is not among the tags. */
  lemma NextCandidateIsNew(version: string, tags: seq<string>)
    ensures CandidateNumber(version, NextCandidate(version, tags)).Some?
    ensures forall t :: t in tags && CandidateNumber(version, t).Some? ==>
      CandidateNumber(version, t).value < CandidateNumber(version, NextCandidate(version, tags)).value
    ensures NextCandidate(version, tags) !in tags
  {
    var n := HighestCandidate(version, tags) + 1;
    ParsePrint(n);
    assert NextCandidate(version, tags)[|CandidatePrefix(version)|..] == Print(n);
    assert Print(n)[0] == '0' ==> n == 0;
  }
}
