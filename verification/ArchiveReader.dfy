/**
 The release archive reader: scripts/release-runtime-compare.ts, `readReleaseArchive`, lines 29-48, and
 its round trip with the writer.

 `subarray` and `parseInt` keep their JavaScript meaning on every archive, negative sizes included.
 Decoding a header field as UTF-8 is taken as the field's own bytes.
 */
module ArchiveReader {
  import opened Wrappers
  import opened ArchiveWriter

  /** `mode` is None where `parseInt` gives NaN. */
  datatype Member = Member(mode: Option<int>, content: Bytes)

  datatype ReadError = NoEndOfArchive | ForeignEntry(offset: int) | Repeats(path: Bytes) | Truncates(path: Bytes)

  type Members = map<Bytes, Member>

  function Clamp(index: int, length: nat): (i: nat)
    ensures i <= length
  {
    if index < 0 then (if length + index < 0 then 0 else length + index) else if index > length then length else index
  }

  /** `buffer.subarray(start, end)`: negative positions count from the end. */
  function Subarray(s: Bytes, start: int, end: int): Bytes {
    var a, b := Clamp(start, |s|), Clamp(end, |s|);
    if a < b then s[a..b] else []
  }

  function UpToNul(s: Bytes): (r: Bytes)
    ensures 0 !in r
  {
    if s == [] || s[0] == 0 then [] else [s[0]] + UpToNul(s[1..])
  }

  function Text(header: Bytes, start: nat, length: nat): Bytes { UpToNul(Subarray(header, start, start + length)) }

  predicate IsSpace(b: Byte) { 9 <= b <= 13 || b == SPACE }

  function TrimStart(s: Bytes): Bytes { if s != [] && IsSpace(s[0]) then TrimStart(s[1..]) else s }

  predicate IsOctal(b: Byte) { ZERO_DIGIT <= b < ZERO_DIGIT + 8 }

  function OctalPrefix(s: Bytes): (r: Bytes)
    ensures forall b :: b in r ==> IsOctal(b)
  {
    if s != [] && IsOctal(s[0]) then [s[0]] + OctalPrefix(s[1..]) else []
  }

  function OctalValue(s: Bytes): nat
    requires forall b :: b in s ==> IsOctal(b)
  {
    if s == [] then 0 else
    assert IsOctal(s[|s| - 1]);
    OctalValue(s[..|s| - 1]) * 8 + (s[|s| - 1] - ZERO_DIGIT)
  }

  /** `Number.parseInt(text, 8)`; None for NaN. */
  function ParseInt(text: Bytes): Option<int> {
    var t := TrimStart(text);
    var negative := t != [] && t[0] == 45;
    var unsigned := if t != [] && (t[0] == 43 || t[0] == 45) then t[1..] else t;
    var digits := OctalPrefix(unsigned);
    var value: int := OctalValue(digits);
    if digits == [] then None else Some(if negative then -value else value)
  }

  function OctalAt(header: Bytes, start: nat, length: nat): Option<int> { ParseInt(Text(header, start, length)) }

  function HeaderAt(archive: Bytes, offset: int): Bytes { Subarray(archive, offset, offset + 512) }

  function PathOf(header: Bytes): Bytes { Text(header, 0, 100) }

  predicate AllZero(s: Bytes) { forall b :: b in s ==> b == 0 }

  /** The fields every entry of the release writer has. */
  predicate WriterShaped(header: Bytes) {
    Text(header, 257, 6) == USTAR && Text(header, 156, 1) == [ZERO_DIGIT] && Text(header, 345, 155) == []
    && PathOf(header) != [] && OctalAt(header, 124, 12).Some?
  }

  /** `Math.ceil(size / 512) * 512` */
  function BlockLength(size: int): int { -((-size) / 512) * 512 }

  /** Every path a header could name: what bounds the reader's steps on any input. */
  ghost function Paths(archive: Bytes): set<Bytes> {
    set o | -|archive| - 512 < o <= |archive| :: PathOf(HeaderAt(archive, o))
  }

  lemma PathListed(archive: Bytes, offset: int, members: Members, member: Member)
    requires offset + 512 <= |archive| && !AllZero(HeaderAt(archive, offset))
    requires PathOf(HeaderAt(archive, offset)) !in members
    ensures Paths(archive) - members[PathOf(HeaderAt(archive, offset)) := member].Keys < Paths(archive) - members.Keys
  {
    assert -|archive| - 512 < offset <= |archive|;
    assert PathOf(HeaderAt(archive, offset)) in Paths(archive) - members.Keys;
  }

  function Read(archive: Bytes, offset: int, members: Members): Result<Members, ReadError>
    decreases Paths(archive) - members.Keys
  {
    if offset + 512 > |archive| then Failure(NoEndOfArchive) else
    var header := HeaderAt(archive, offset);
    if AllZero(header) then Success(members)
    else if !WriterShaped(header) then Failure(ForeignEntry(offset)) else
    var path, size := PathOf(header), OctalAt(header, 124, 12).value;
    if path in members then Failure(Repeats(path))
    else if offset + 512 + size > |archive| then Failure(Truncates(path)) else
    var member := Member(OctalAt(header, 100, 8), Subarray(archive, offset + 512, offset + 512 + size));
    PathListed(archive, offset, members, member);
    Read(archive, offset + 512 + BlockLength(size), members[path := member])
  }

  /** The loop ends on every input: a path may be named only once. */
  method ReadReleaseArchive(archive: Bytes) returns (r: Result<Members, ReadError>)
    ensures r == Read(archive, 0, map[])
  {
    hide Text, OctalAt, PathOf, HeaderAt;
    var members: Members, offset: int := map[], 0;
    while true
      invariant Read(archive, offset, members) == Read(archive, 0, map[])
      decreases Paths(archive) - members.Keys
    {
      if offset + 512 > |archive| { return Failure(NoEndOfArchive); }
      var header := HeaderAt(archive, offset);
      if AllZero(header) { return Success(members); }
      if !WriterShaped(header) { return Failure(ForeignEntry(offset)); }
      var path, size := PathOf(header), OctalAt(header, 124, 12).value;
      if path in members { return Failure(Repeats(path)); }
      var start := offset + 512;
      if start + size > |archive| { return Failure(Truncates(path)); }
      var member := Member(OctalAt(header, 100, 8), Subarray(archive, start, start + size));
      PathListed(archive, offset, members, member);
      members := members[path := member];
      offset := start + BlockLength(size);
    }
  }

  /** What the reader should find for a written file. */
  function MemberOf(file: ArchiveFile): Member { Member(Some(Mode(file.executable)), file.content) }

  predicate LegalPath(path: Bytes) { path != [] && 0 !in path }

  lemma {:induction false} UpToNulStops(s: Bytes, rest: Bytes)
    requires 0 !in s && (rest == [] || rest[0] == 0)
    ensures UpToNul(s + rest) == s
  {
    if s == [] {
      assert s + rest == rest;
    } else {
      assert (s + rest)[1..] == s[1..] + rest;
      UpToNulStops(s[1..], rest);
    }
  }

  lemma {:induction false} OctalPrefixWhole(s: Bytes)
    requires forall b :: b in s ==> IsOctal(b)
    ensures OctalPrefix(s) == s
  {
    if s != [] { OctalPrefixWhole(s[1..]); }
  }

  lemma {:induction false} OctalValuePrints(value: nat)
    ensures OctalValue(Octal(value)) == value
  {
    var s := Octal(value);
    if value >= 8 {
      OctalValuePrints(value / 8);
      assert s[..|s| - 1] == Octal(value / 8);
    } else {
      assert s[..0] == [] && OctalValue([]) == 0;
      assert OctalValue(s) == OctalValue(s[..0]) * 8 + value;
    }
  }

  lemma {:induction false} LeadingZeros(n: nat, s: Bytes)
    requires forall b :: b in s ==> IsOctal(b)
    ensures forall b :: b in seq(n, _ => ZERO_DIGIT) + s ==> IsOctal(b)
    ensures OctalValue(seq(n, _ => ZERO_DIGIT) + s) == OctalValue(s)
    decreases |s|
  {
    var zeros: Bytes := seq(n, _ => ZERO_DIGIT);
    if s == [] {
      assert zeros + s == zeros;
      OnlyZeros(n);
    } else {
      LeadingZeros(n, s[..|s| - 1]);
      assert (zeros + s)[..|zeros + s| - 1] == zeros + s[..|s| - 1];
    }
  }

  lemma {:induction false} OnlyZeros(n: nat)
    ensures OctalValue(seq(n, _ => ZERO_DIGIT)) == 0
  {
    var zeros: Bytes := seq(n, _ => ZERO_DIGIT);
    if n > 0 {
      OnlyZeros(n - 1);
      assert zeros[..n - 1] == seq(n - 1, _ => ZERO_DIGIT);
    }
  }

  /** A field the writer printed is read back as the number it was printed from. */
  lemma OctalFieldReads(value: nat, length: nat)
    requires length > 1 && value < Power8(length - 1)
    ensures ParseInt(UpToNul(OctalField(value, length))) == Some(value)
  {
    var text := PadStart(Octal(value), length - 1);
    OctalLength(value, length - 1);
    OctalValuePrints(value);
    LeadingZeros(length - 1 - |Octal(value)|, Octal(value));
    UpToNulStops(text, [0]);
    OctalPrefixWhole(text);
  }

  lemma SubarrayIsSlice(s: Bytes, start: nat, end: nat)
    requires start < end <= |s|
    ensures Subarray(s, start, end) == s[start..end]
  {
  }

  lemma FrontSlices(path: Bytes, mode: Bytes, owner: Bytes, group: Bytes, size: Bytes, time: Bytes, rest: Bytes)
    requires |path| == 100 && |mode| == |owner| == |group| == 8 && |size| == |time| == 12
    ensures var h := path + mode + owner + group + size + time + rest;
      h[0..100] == path && h[100..108] == mode && h[124..136] == size
  {
  }

  lemma BackSlices(front: Bytes)
    requires |front| == 156
    ensures var h := front + BackFields();
      && |h| == 512 && h[156..157] == [ZERO_DIGIT] && h[257..263] == USTAR + [0] && h[345..500] == Zeros(155)
  {
  }

  /** Every field the reader looks at, as it stands in a written header. */
  lemma HeaderFields(file: ArchiveFile)
    requires Fits(file)
    ensures var h := Header(file);
      && |h| == 512
      && Subarray(h, 0, 100) == file.path + Zeros(100 - |file.path|)
      && Subarray(h, 100, 108) == OctalField(Mode(file.executable), 8)
      && Subarray(h, 124, 136) == OctalField(|file.content|, 12)
      && Subarray(h, 156, 157) == [ZERO_DIGIT]
      && Subarray(h, 257, 263) == USTAR + [0]
      && Subarray(h, 345, 500) == Zeros(155)
  {
    FrontLength(file);
    ChecksumFits(file);
    hide OctalField, ChecksumField, BackFields, Checksum, Power8, Subarray, Mode;
    var h, path := Header(file), file.path + Zeros(100 - |file.path|);
    var mode, zero := OctalField(Mode(file.executable), 8), OctalField(0, 8);
    var size, time := OctalField(|file.content|, 12), OctalField(0, 12);
    var rest := ChecksumField(Checksum(file)) + BackFields();
    assert h == path + mode + zero + zero + size + time + rest;
    FrontSlices(path, mode, zero, zero, size, time, rest);
    hide Header, FrontFields;
    BackSlices(path + mode + zero + zero + size + time + ChecksumField(Checksum(file)));
    assert h == (path + mode + zero + zero + size + time + ChecksumField(Checksum(file))) + BackFields();
    SubarrayIsSlice(h, 0, 100);
    SubarrayIsSlice(h, 100, 108);
    SubarrayIsSlice(h, 124, 136);
    SubarrayIsSlice(h, 156, 157);
    SubarrayIsSlice(h, 257, 263);
    SubarrayIsSlice(h, 345, 500);
  }

  lemma PaddedPathReads(path: Bytes)
    requires |path| <= 100 && 0 !in path
    ensures UpToNul(path + Zeros(100 - |path|)) == path
  {
    UpToNulStops(path, Zeros(100 - |path|));
  }

  lemma ConstantsRead()
    ensures UpToNul(USTAR + [0]) == USTAR && UpToNul([ZERO_DIGIT]) == [ZERO_DIGIT] && UpToNul(Zeros(155)) == []
  {
    UpToNulStops(USTAR, [0]);
    UpToNulStops([ZERO_DIGIT], []);
    assert [ZERO_DIGIT] + [] == [ZERO_DIGIT];
  }

  lemma PartNotZero(h: Bytes, start: nat, end: nat)
    requires Subarray(h, start, end) == [ZERO_DIGIT]
    ensures !AllZero(h)
  {
    assert Subarray(h, start, end)[0] in h;
  }

  /** A written header is read back as the file's path, mode and size. */
  lemma HeaderReads(file: ArchiveFile)
    requires Fits(file) && LegalPath(file.path)
    ensures var h := Header(file);
      && |h| == 512 && !AllZero(h) && WriterShaped(h) && PathOf(h) == file.path
      && OctalAt(h, 124, 12) == Some(|file.content|) && OctalAt(h, 100, 8) == Some(Mode(file.executable))
  {
    hide Header, Subarray, UpToNul, ParseInt, OctalField, Power8, Zeros, AllZero;
    HeaderFields(file);
    SmallOctal();
    OctalFieldReads(|file.content|, 12);
    OctalFieldReads(Mode(file.executable), 8);
    PaddedPathReads(file.path);
    ConstantsRead();
    PartNotZero(Header(file), 156, 157);
  }

  lemma BlockIsPadded(size: nat)
    ensures BlockLength(size) == size + Padding(size)
  {
  }

  lemma Assoc(a: Bytes, b: Bytes, c: Bytes)
    ensures a + (b + c) == a + b + c
  {
  }

  lemma BlockSlices(front: Bytes, header: Bytes, content: Bytes, padding: Bytes, rest: Bytes)
    ensures var s := front + (header + content + padding) + rest;
      && s[|front|..|front| + |header|] == header
      && s[|front| + |header|..|front| + |header| + |content|] == content
  {
    var s := front + (header + content + padding) + rest;
    assert s == front + header + content + padding + rest;
  }

  lemma EntryLength(file: ArchiveFile)
    requires Fits(file)
    ensures |Entry(file)| == 512 + |file.content| + Padding(|file.content|)
  {
    ChecksumFits(file);
    hide Header, Power8, Padding;
  }

  lemma EntryParts(archive: Bytes, front: Bytes, file: ArchiveFile, rest: Bytes)
    requires Fits(file) && archive == front + Entry(file) + rest
    ensures |front| + 512 + |file.content| <= |archive|
    ensures HeaderAt(archive, |front|) == Header(file)
    ensures Subarray(archive, |front| + 512, |front| + 512 + |file.content|) == file.content
    ensures |front| + 512 + BlockLength(|file.content|) == |front + Entry(file)|
  {
    ChecksumFits(file);
    BlockIsPadded(|file.content|);
    hide Header, Power8, Subarray, BlockLength, Padding, Zeros;
    BlockSlices(front, Header(file), file.content, Zeros(Padding(|file.content|)), rest);
    EntryLength(file);
    hide Entry;
    SubarrayIsSlice(archive, |front|, |front| + 512);
    if file.content != [] {
      SubarrayIsSlice(archive, |front| + 512, |front| + 512 + |file.content|);
    } else {
      EmptySubarray(archive, |front| + 512);
    }
  }

  lemma EmptySubarray(s: Bytes, at: nat)
    ensures Subarray(s, at, at) == []
  {
  }

  /** Reading one written entry records its file, or refuses its path when that was named before. */
  lemma EntryReads(archive: Bytes, front: Bytes, file: ArchiveFile, rest: Bytes, members: Members)
    requires Fits(file) && LegalPath(file.path) && archive == front + Entry(file) + rest
    ensures Read(archive, |front|, members) ==
      if file.path in members then Failure(Repeats(file.path))
      else Read(archive, |front + Entry(file)|, members[file.path := MemberOf(file)])
  {
    hide Header, WriterShaped, PathOf, OctalAt, Subarray, AllZero, BlockLength, HeaderAt, Zeros, Entry, Power8;
    EntryParts(archive, front, file, rest);
    HeaderReads(file);
  }

  /** What reading the files' entries in turn must give. */
  function Collect(files: seq<ArchiveFile>): Result<Members, ReadError> {
    if files == [] then Success(map[]) else
    var last := files[|files| - 1];
    match Collect(files[..|files| - 1])
    case Failure(e) => Failure(e)
    case Success(m) => if last.path in m then Failure(Repeats(last.path)) else Success(m[last.path := MemberOf(last)])
  }

  lemma {:induction false} WrittenEntriesRead(files: seq<ArchiveFile>, rest: Bytes)
    requires forall f :: f in files ==> Fits(f) && LegalPath(f.path)
    ensures Read(Entries(files) + rest, 0, map[]) ==
      match Collect(files)
      case Failure(e) => Failure(e)
      case Success(m) => Read(Entries(files) + rest, |Entries(files)|, m)
  {
    if files != [] {
      var front, last := files[..|files| - 1], files[|files| - 1];
      assert last in files;
      EntriesEnd(files);
      hide Read, Entry, Entries, Fits, LegalPath, MemberOf;
      WrittenEntriesRead(front, Entry(last) + rest);
      Assoc(Entries(front), Entry(last), rest);
      if Collect(front).Success? {
        EntryReads(Entries(files) + rest, Entries(front), last, rest, Collect(front).value);
      }
    }
  }

  lemma EntriesEnd(files: seq<ArchiveFile>)
    requires files != [] && forall f :: f in files ==> Fits(f)
    ensures files[|files| - 1] in files
    ensures Entries(files) == Entries(files[..|files| - 1]) + Entry(files[|files| - 1])
  {
    hide Entry, Power8;
  }

  lemma EndOfArchiveReads(front: Bytes, members: Members)
    ensures Read(front + Zeros(1024), |front|, members) == Success(members)
  {
    SubarrayIsSlice(front + Zeros(1024), |front|, |front| + 512);
  }

  /** The map from each path to its mode and content. */
  function Expected(files: seq<ArchiveFile>): Members {
    if files == [] then map[] else Expected(files[..|files| - 1])[files[|files| - 1].path := MemberOf(files[|files| - 1])]
  }

  predicate DistinctPaths(files: seq<ArchiveFile>) {
    forall i, j :: 0 <= i < j < |files| ==> files[i].path != files[j].path
  }

  lemma {:induction false} ExpectedKeys(files: seq<ArchiveFile>)
    ensures forall path :: path in Expected(files) <==> exists f :: f in files && f.path == path
  {
    if files != [] {
      var front, last := files[..|files| - 1], files[|files| - 1];
      ExpectedKeys(front);
      assert files == front + [last];
    }
  }

  lemma {:induction false} CollectDistinct(files: seq<ArchiveFile>)
    ensures Collect(files).Success? <==> DistinctPaths(files)
    ensures Collect(files).Success? ==> Collect(files).value == Expected(files)
  {
    if files != [] {
      var front, last := files[..|files| - 1], files[|files| - 1];
      CollectDistinct(front);
      ExpectedKeys(front);
      assert files == front + [last];
      if Collect(front).Success? && last.path in Collect(front).value {
        var f :| f in front && f.path == last.path;
        var i :| 0 <= i < |front| && front[i] == f;
        assert files[i].path == files[|files| - 1].path;
      } else if DistinctPaths(front) {
        forall i, j | 0 <= i < j < |files|
          ensures files[i].path != files[j].path
        {
          assert i < |front| && files[i] in front;
        }
      }
    }
  }

  /** What the reader returns has only nonempty, NUL-free paths, whatever the archive. */
  lemma {:induction false} ReadPathsLegal(archive: Bytes, offset: int, members: Members)
    requires forall path :: path in members ==> LegalPath(path)
    ensures var r := Read(archive, offset, members); r.Success? ==> forall path :: path in r.value ==> LegalPath(path)
    decreases Paths(archive) - members.Keys
  {
    hide Text, HeaderAt, OctalAt, AllZero, BlockLength, Subarray, LegalPath, Paths, PathOf;
    var header := HeaderAt(archive, offset);
    if offset + 512 <= |archive| && !AllZero(header) && WriterShaped(header) && PathOf(header) !in members {
      var path, size := PathOf(header), OctalAt(header, 124, 12).value;
      if offset + 512 + size <= |archive| {
        var member := Member(OctalAt(header, 100, 8), Subarray(archive, offset + 512, offset + 512 + size));
        PathListed(archive, offset, members, member);
        PathIsLegal(header);
        ReadPathsLegal(archive, offset + 512 + BlockLength(size), members[path := member]);
      }
    }
  }

  lemma PathIsLegal(header: Bytes)
    requires WriterShaped(header)
    ensures LegalPath(PathOf(header))
  {
  }

  /** Reading any written archive with legal paths collects its files, and refuses only a repeated path. */
  lemma WrittenArchiveReads(files: seq<ArchiveFile>)
    requires forall f :: f in files ==> Fits(f) && LegalPath(f.path)
    ensures Read(Archive(files), 0, map[]) == Collect(files)
  {
    hide Read, Entries;
    WrittenEntriesRead(files, Zeros(1024));
    if Collect(files).Success? { EndOfArchiveReads(Entries(files), Collect(files).value); }
  }

  /**
   Archive round trip: whatever the contents, reading a written archive gives exactly the map from path to
   mode and content if and only if every path is nonempty and NUL-free and no two files share one.
   */
  lemma ArchiveRoundTrip(files: seq<ArchiveFile>)
    requires forall f :: f in files ==> Fits(f)
    ensures Read(Archive(files), 0, map[]) == Success(Expected(files)) <==>
      (forall f :: f in files ==> LegalPath(f.path)) && DistinctPaths(files)
  {
    hide Read, Archive;
    ExpectedKeys(files);
    CollectDistinct(files);
    if forall f :: f in files ==> LegalPath(f.path) {
      WrittenArchiveReads(files);
    } else {
      var f :| f in files && !LegalPath(f.path);
      ReadPathsLegal(Archive(files), 0, map[]);
      assert f.path in Expected(files);
    }
  }

  /** The stored checksum reads back as the sum of the header's bytes with its own field taken as spaces. */
  lemma ChecksumReads(file: ArchiveFile)
    requires Fits(file)
    ensures ParseInt(UpToNul(Subarray(Header(file), 148, 156))) == Some(Sum(Patch(Header(file), 148, Spaces(8))))
  {
    StoredChecksum(file);
    ChecksumFits(file);
    SubarrayIsSlice(Header(file), 148, 156);
    ChecksumFieldReads(Checksum(file));
  }

  lemma ChecksumFieldReads(checksum: nat)
    requires checksum < Power8(6)
    ensures ParseInt(UpToNul(ChecksumField(checksum))) == Some(checksum)
  {
    var text := PadStart(Octal(checksum), 6);
    OctalLength(checksum, 6);
    OctalValuePrints(checksum);
    LeadingZeros(6 - |Octal(checksum)|, Octal(checksum));
    UpToNulStops(text, [0, SPACE]);
    OctalPrefixWhole(text);
  }
}
