/**
 The runtime comparison of a candidate archive with the stable one: scripts/release-runtime-compare.ts,
 `compareReleaseRuntime`, lines 50-67. Paths are ordered by their bytes.
 */
module RuntimeComparison {
  import opened Wrappers
  import opened ArchiveWriter
  import opened ArchiveReader
  import opened Ordering

  type Path = Bytes

  datatype Comparison = Comparison(compared: nat, differing: seq<Path>)

  const SLASH: Byte := 47

  function Encode(s: string): Bytes { seq(|s|, i requires 0 <= i < |s| => s[i] as int % 256) }

  const PROMOTION_METADATA: set<string> := {
    "release-info.json", "SBOM.spdx.json", "STABLE_RELEASE.lock.json", "schemas/stable-release.schema.json"}

  /** `path.slice(path.indexOf("/") + 1)` */
  function BelowRoot(path: Path): Path {
    if SLASH !in path then path else if path[0] == SLASH then path[1..] else BelowRoot(path[1..])
  }

  predicate IsMetadata(path: Path) { exists name :: name in PROMOTION_METADATA && BelowRoot(path) == Encode(name) }

  const BYTE_RANK: Byte -> int := b => b

  /** Two modes agree only as numbers: NaN differs from everything. */
  predicate SameMember(a: Member, b: Member) { a.mode.Some? && a.mode == b.mode && a.content == b.content }

  predicate Compared(expected: Members, actual: Members, path: Path) {
    path in expected && path in actual && !IsMetadata(path)
  }

  predicate Differs(expected: Members, actual: Members, path: Path) {
    || (path in expected) != (path in actual)
    || (Compared(expected, actual, path) && !SameMember(expected[path], actual[path]))
  }

  function ComparedPaths(expected: Members, actual: Members): set<Path> {
    set path | path in expected && Compared(expected, actual, path)
  }

  /**
   The report lists, in ascending order and once each, exactly the paths that differ, and counts exactly
   the members both archives hold outside promotion metadata; an unreadable archive is the first error.
   */
  method CompareReleaseRuntime(candidate: Bytes, stable: Bytes) returns (r: Result<Comparison, ReadError>)
    ensures var expected, actual := Read(candidate, 0, map[]), Read(stable, 0, map[]);
      match (expected, actual)
      case (Failure(e), _) => r == Failure(e)
      case (_, Failure(e)) => r == Failure(e)
      case (Success(x), Success(y)) =>
        && r.Success? && Ascending(r.value.differing, BYTE_RANK)
        && (forall path :: path in r.value.differing <==> Differs(x, y, path))
        && r.value.compared == |ComparedPaths(x, y)|
  {
    hide Read;
    var expected := ReadReleaseArchive(candidate);
    if expected.Failure? { return Failure(expected.error); }
    var actual := ReadReleaseArchive(stable);
    if actual.Failure? { return Failure(actual.error); }
    var report := CompareMembers(expected.value, actual.value);
    return Success(report);
  }

  method ComparePath(expected: Members, actual: Members, path: Path, report: Comparison) returns (r: Comparison)
    requires path in expected || path in actual
    ensures r.differing == if Differs(expected, actual, path) then report.differing + [path] else report.differing
    ensures r.compared == if Compared(expected, actual, path) then report.compared + 1 else report.compared
  {
    hide IsMetadata;
    r := report;
    if path !in expected || path !in actual {
      r := r.(differing := r.differing + [path]);
    } else if !IsMetadata(path) {
      r := r.(compared := r.compared + 1);
      if !SameMember(expected[path], actual[path]) { r := r.(differing := r.differing + [path]); }
    }
  }

  function ComparedAmong(expected: Members, actual: Members, paths: seq<Path>): set<Path> {
    set p | p in paths && Compared(expected, actual, p)
  }

  lemma ComparedGrows(expected: Members, actual: Members, paths: seq<Path>, path: Path)
    requires path !in paths
    ensures |ComparedAmong(expected, actual, paths + [path])| ==
      |ComparedAmong(expected, actual, paths)| + (if Compared(expected, actual, path) then 1 else 0)
  {
    hide Compared;
    var before, after := ComparedAmong(expected, actual, paths), ComparedAmong(expected, actual, paths + [path]);
    assert after == if Compared(expected, actual, path) then before + {path} else before;
  }

  lemma AscendingAppend(differing: seq<Path>, paths: seq<Path>, i: nat)
    requires Ascending(paths, BYTE_RANK) && i < |paths|
    requires Ascending(differing, BYTE_RANK) && forall p :: p in differing ==> p in paths[..i]
    ensures Ascending(differing + [paths[i]], BYTE_RANK)
  {
    forall k | 0 <= k < |differing|
      ensures Below(differing[k], paths[i], BYTE_RANK)
    {
      assert differing[k] in differing;
      var n :| 0 <= n < i && paths[..i][n] == differing[k];
    }
  }

  method CompareMembers(expected: Members, actual: Members) returns (r: Comparison)
    ensures Ascending(r.differing, BYTE_RANK)
    ensures forall path :: path in r.differing <==> Differs(expected, actual, path)
    ensures r.compared == |ComparedPaths(expected, actual)|
  {
    var paths := Sort(expected.Keys + actual.Keys, BYTE_RANK);
    r := Comparison(0, []);
    for i := 0 to |paths|
      invariant Ascending(r.differing, BYTE_RANK)
      invariant forall p :: p in r.differing <==> p in paths[..i] && Differs(expected, actual, p)
      invariant r.compared == |ComparedAmong(expected, actual, paths[..i])|
    {
      hide Ascending, Differs, Compared, ComparedAmong;
      NotBefore(paths, i, BYTE_RANK);
      assert paths[i] in paths;
      assert paths[..i + 1] == paths[..i] + [paths[i]];
      ComparedGrows(expected, actual, paths[..i], paths[i]);
      AscendingAppend(r.differing, paths, i);
      r := ComparePath(expected, actual, paths[i], r);
    }
    assert paths[..|paths|] == paths;
    assert ComparedAmong(expected, actual, paths) == ComparedPaths(expected, actual);
  }

  lemma {:induction false} ExpectedMember(files: seq<ArchiveFile>, i: nat)
    requires DistinctPaths(files) && i < |files|
    ensures files[i].path in Expected(files) && Expected(files)[files[i].path] == MemberOf(files[i])
  {
    var front, last := files[..|files| - 1], files[|files| - 1];
    if i < |front| {
      ExpectedMember(front, i);
      assert files[i].path != last.path;
    }
  }

  predicate Names(files: seq<ArchiveFile>, path: Path) { exists i :: 0 <= i < |files| && files[i].path == path }

  predicate SameFile(a: ArchiveFile, b: ArchiveFile) { a.executable == b.executable && a.content == b.content }

  /** Two releases agree: the same paths, and equal mode and bytes outside promotion metadata. */
  ghost predicate SameRuntime(left: seq<ArchiveFile>, right: seq<ArchiveFile>) {
    && (forall path :: Names(left, path) <==> Names(right, path))
    && (forall f, g :: f in left && g in right && f.path == g.path && !IsMetadata(f.path) ==> SameFile(f, g))
  }

  lemma PathIndex(files: seq<ArchiveFile>, path: Path) returns (i: nat)
    requires path in Expected(files)
    ensures i < |files| && files[i].path == path
  {
    ExpectedKeys(files);
    var f :| f in files && f.path == path;
    i :| i < |files| && files[i] == f;
  }

  /** The comparison of two written archives reports no difference exactly when their runtimes agree. */
  lemma ComparisonIsExact(left: seq<ArchiveFile>, right: seq<ArchiveFile>)
    requires forall f :: f in left + right ==> Fits(f) && LegalPath(f.path)
    requires DistinctPaths(left) && DistinctPaths(right)
    ensures Read(Archive(left), 0, map[]) == Success(Expected(left)) && Read(Archive(right), 0, map[]) == Success(Expected(right))
    ensures (forall path :: !Differs(Expected(left), Expected(right), path)) <==> SameRuntime(left, right)
  {
    hide IsMetadata, Read, Archive, Fits, LegalPath, Expected, SameMember;
    assert forall f :: f in left ==> f in left + right;
    assert forall f :: f in right ==> f in left + right;
    ArchiveRoundTrip(left);
    ArchiveRoundTrip(right);
    if SameRuntime(left, right) {
      forall path
        ensures !Differs(Expected(left), Expected(right), path)
      {
        AgreeingPathSame(left, right, path);
      }
    }
    if forall path :: !Differs(Expected(left), Expected(right), path) {
      SameMembersAgree(left, right);
    }
  }

  lemma NamesExpected(files: seq<ArchiveFile>, path: Path)
    ensures Names(files, path) <==> path in Expected(files)
  {
    ExpectedKeys(files);
    if path in Expected(files) { var i := PathIndex(files, path); }
  }

  lemma AgreeingPathSame(left: seq<ArchiveFile>, right: seq<ArchiveFile>, path: Path)
    requires DistinctPaths(left) && DistinctPaths(right) && SameRuntime(left, right)
    ensures !Differs(Expected(left), Expected(right), path)
  {
    hide IsMetadata, Expected;
    NamesExpected(left, path);
    NamesExpected(right, path);
    if path in Expected(left) && path in Expected(right) {
      var i := PathIndex(left, path);
      var j := PathIndex(right, path);
      ExpectedMember(left, i);
      ExpectedMember(right, j);
      assert left[i] in left && right[j] in right;
    }
  }

  lemma SameMembersAgree(left: seq<ArchiveFile>, right: seq<ArchiveFile>)
    requires DistinctPaths(left) && DistinctPaths(right)
    requires forall path :: !Differs(Expected(left), Expected(right), path)
    ensures SameRuntime(left, right)
  {
    hide IsMetadata, Expected;
    forall path
      ensures Names(left, path) <==> Names(right, path)
    {
      NamesExpected(left, path);
      NamesExpected(right, path);
      assert !Differs(Expected(left), Expected(right), path);
    }
    forall f, g | f in left && g in right && f.path == g.path && !IsMetadata(f.path)
      ensures SameFile(f, g)
    {
      var i: nat :| i < |left| && left[i] == f;
      var j: nat :| j < |right| && right[j] == g;
      ExpectedMember(left, i);
      ExpectedMember(right, j);
      assert !Differs(Expected(left), Expected(right), f.path);
    }
  }
}
