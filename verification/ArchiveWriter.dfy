/**
 The release archive writer: scripts/build-release.ts, `writeText`, `writeOctal`, `tarEntry` and
 `createTarArchive`, lines 548-583. Entries are in the "ustar Interchange Format" of the pax utility in
 POSIX.1-2017.

 A path is the byte string of its UTF-8 encoding.
 */
module ArchiveWriter {
  import opened Wrappers

  type Byte = b: int | 0 <= b < 256
  type Bytes = seq<Byte>

  datatype ArchiveFile = ArchiveFile(path: Bytes, content: Bytes, executable: bool)

  datatype WriteError = TooLong(value: Bytes)

  const ZERO_DIGIT: Byte := 48
  const SPACE: Byte := 32
  const USTAR: Bytes := [117, 115, 116, 97, 114]

  function Zeros(n: nat): Bytes { seq(n, _ => 0) }

  function Power8(n: nat): nat { if n == 0 then 1 else 8 * Power8(n - 1) }

  /** `value.toString(8)` */
  function Octal(value: nat): (s: Bytes)
    ensures s != [] && forall b :: b in s ==> ZERO_DIGIT <= b < ZERO_DIGIT + 8
  {
    if value < 8 then [ZERO_DIGIT + value] else Octal(value / 8) + [ZERO_DIGIT + value % 8]
  }

  /** `text.padStart(length, "0")` */
  function PadStart(text: Bytes, length: nat): Bytes {
    if |text| >= length then text else seq(length - |text|, _ => ZERO_DIGIT) + text
  }

  function OctalField(value: nat, length: nat): Bytes
    requires length > 0
  {
    PadStart(Octal(value), length - 1) + [0]
  }

  lemma {:induction false} OctalLength(value: nat, digits: nat)
    requires digits > 0
    ensures |Octal(value)| <= digits <==> value < Power8(digits)
  {
    if value >= 8 {
      if digits == 1 {
        assert Power8(1) == 8 * Power8(0);
      } else {
        OctalLength(value / 8, digits - 1);
      }
    } else {
      assert Power8(digits) == 8 * Power8(digits - 1);
      Power8Positive(digits - 1);
    }
  }

  lemma {:induction false} Power8Positive(n: nat)
    ensures Power8(n) >= 1
  {
    if n > 0 { Power8Positive(n - 1); }
  }

  function Patch(target: Bytes, offset: nat, value: Bytes): Bytes
    requires offset + |value| <= |target|
  {
    target[..offset] + value + target[offset + |value|..]
  }

  method WriteText(target: array<Byte>, offset: nat, length: nat, value: Bytes) returns (written: bool)
    requires offset + length <= target.Length
    modifies target
    ensures written <==> |value| <= length
    ensures target[..] == if written then Patch(old(target[..]), offset, value) else old(target[..])
  {
    if |value| > length {
      return false;
    }
    forall i | 0 <= i < |value| {
      target[offset + i] := value[i];
    }
    return true;
  }

  method WriteOctal(target: array<Byte>, offset: nat, length: nat, value: nat) returns (written: bool)
    requires length > 1 && offset + length <= target.Length
    modifies target
    ensures written <==> value < Power8(length - 1)
    ensures written ==> |OctalField(value, length)| == length
    ensures target[..] == if written then Patch(old(target[..]), offset, OctalField(value, length)) else old(target[..])
  {
    OctalLength(value, length - 1);
    written := WriteText(target, offset, length, OctalField(value, length));
  }

  function Mode(executable: bool): nat { if executable then 493 else 420 }

  /** Name, mode, owner, group, size and modification time: the fields ahead of the checksum. */
  function FrontFields(file: ArchiveFile): Bytes
    requires |file.path| <= 100
  {
    file.path + Zeros(100 - |file.path|) + OctalField(Mode(file.executable), 8) + OctalField(0, 8) + OctalField(0, 8)
    + OctalField(|file.content|, 12) + OctalField(0, 12)
  }

  /** Type flag, link name, magic, version and the unused rest: the fields after the checksum. */
  function BackFields(): Bytes {
    [ZERO_DIGIT] + Zeros(100) + (USTAR + [0]) + [ZERO_DIGIT, ZERO_DIGIT] + Zeros(247)
  }

  function Spaces(n: nat): Bytes { seq(n, _ => SPACE) }

  function Sum(s: Bytes): nat { if s == [] then 0 else Sum(s[..|s| - 1]) + s[|s| - 1] }

  function Checksum(file: ArchiveFile): nat
    requires |file.path| <= 100
  {
    Sum(FrontFields(file) + Spaces(8) + BackFields())
  }

  function ChecksumField(checksum: nat): Bytes { PadStart(Octal(checksum), 6) + [0, SPACE] }

  function Header(file: ArchiveFile): Bytes
    requires |file.path| <= 100
  {
    FrontFields(file) + ChecksumField(Checksum(file)) + BackFields()
  }

  function Padding(size: nat): nat { (512 - size % 512) % 512 }

  function Entry(file: ArchiveFile): Bytes
    requires |file.path| <= 100
  {
    Header(file) + file.content + Zeros(Padding(|file.content|))
  }

  /** What `tarEntry` can write at all: any other path or size makes it throw. */
  predicate Fits(file: ArchiveFile) { |file.path| <= 100 && |file.content| < Power8(11) }

  lemma FrontLength(file: ArchiveFile)
    requires Fits(file)
    ensures |FrontFields(file)| == 148
    ensures |OctalField(Mode(file.executable), 8)| == 8 && |OctalField(0, 8)| == 8
    ensures |OctalField(|file.content|, 12)| == 12 && |OctalField(0, 12)| == 12
  {
    OctalLength(|file.content|, 11);
    SmallOctal();
  }

  lemma SmallOctal()
    ensures |OctalField(493, 8)| == 8 && |OctalField(420, 8)| == 8 && |OctalField(0, 8)| == 8 && |OctalField(0, 12)| == 12
    ensures 420 < Power8(7) && 493 < Power8(7) && 0 < Power8(7) && 0 < Power8(11)
  {
    assert Power8(7) == 2097152;
    Power8Positive(11);
    OctalLength(493, 7);
    OctalLength(420, 7);
    OctalLength(0, 7);
    OctalLength(0, 11);
  }

  lemma {:induction false} SumBound(s: Bytes)
    ensures Sum(s) <= 255 * |s|
  {
    if s != [] { SumBound(s[..|s| - 1]); }
  }

  lemma {:induction false} SumAppend(a: Bytes, b: Bytes)
    ensures Sum(a + b) == Sum(a) + Sum(b)
  {
    if b == [] {
      assert a + b == a;
    } else {
      SumAppend(a, b[..|b| - 1]);
      assert (a + b)[..|a + b| - 1] == a + b[..|b| - 1];
    }
  }

  /** The checksum always fits its six octal digits, so the field is eight bytes and the header is one block. */
  lemma ChecksumFits(file: ArchiveFile)
    requires Fits(file)
    ensures Checksum(file) < Power8(6) && |ChecksumField(Checksum(file))| == 8 && |Header(file)| == 512
  {
    FrontLength(file);
    SumBound(FrontFields(file) + Spaces(8) + BackFields());
    assert Power8(6) == 262144;
    OctalLength(Checksum(file), 6);
  }

  /** Writing at the end of what is written so far, with zeros behind it. */
  lemma PatchAppends(front: Bytes, room: nat, value: Bytes)
    requires |value| <= room
    ensures Patch(front + Zeros(room), |front|, value) == front + value + Zeros(room - |value|)
  {
  }

  /** One field written at the end of what is written so far. */
  method AppendOctal(header: array<Byte>, ghost front: Bytes, offset: nat, length: nat, value: nat) returns (written: bool)
    requires length > 1 && offset + length <= header.Length == 512
    requires |front| == offset && header[..] == front + Zeros(512 - offset)
    modifies header
    ensures written <==> value < Power8(length - 1)
    ensures written ==> |OctalField(value, length)| == length
    ensures written ==> header[..] == front + OctalField(value, length) + Zeros(512 - offset - length)
  {
    hide Power8, Octal, PadStart, OctalField, Patch;
    written := WriteOctal(header, offset, length, value);
    if written { PatchAppends(front, 512 - offset, OctalField(value, length)); }
  }

  method WriteFront(header: array<Byte>, file: ArchiveFile) returns (written: bool)
    requires header.Length == 512 && header[..] == Zeros(512)
    modifies header
    ensures written <==> Fits(file)
    ensures written ==> |FrontFields(file)| == 148 && header[..] == FrontFields(file) + Zeros(364)
  {
    hide Power8, Octal, PadStart, OctalField;
    SmallOctal();
    var ok := WriteText(header, 0, 100, file.path);
    if !ok { return false; }
    ghost var done := file.path + Zeros(100 - |file.path|);
    assert header[..] == done + Zeros(412);
    hide Patch, Zeros;
    ok := AppendOctal(header, done, 100, 8, Mode(file.executable));
    done := done + OctalField(Mode(file.executable), 8);
    ok := AppendOctal(header, done, 108, 8, 0);
    done := done + OctalField(0, 8);
    ok := AppendOctal(header, done, 116, 8, 0);
    done := done + OctalField(0, 8);
    ok := AppendOctal(header, done, 124, 12, |file.content|);
    if !ok { return false; }
    done := done + OctalField(|file.content|, 12);
    ok := AppendOctal(header, done, 136, 12, 0);
    return true;
  }

  method SumBytes(header: array<Byte>) returns (checksum: nat)
    ensures checksum == Sum(header[..])
  {
    checksum := 0;
    for i := 0 to header.Length
      invariant checksum == Sum(header[..i])
    {
      assert header[..i + 1][..i] == header[..i];
      checksum := checksum + header[i];
    }
    assert header[..header.Length] == header[..];
  }

  /** One entry; the error is the first field that does not fit. */
  method TarEntry(file: ArchiveFile) returns (r: Result<Bytes, WriteError>)
    ensures r.Success? <==> Fits(file)
    ensures r.Success? ==> r.value == Entry(file)
  {
    var header := new Byte[512](_ => 0);
    assert header[..] == Zeros(512);
    var ok := WriteFront(header, file);
    if !ok {
      return Failure(TooLong(if |file.path| > 100 then file.path else OctalField(|file.content|, 12)));
    }
    ghost var front := FrontFields(file);
    FillBack(header, front);
    var checksum := SumBytes(header);
    ChecksumFits(file);
    hide FrontFields, BackFields, Octal, Power8, Sum, PadStart, Checksum;
    ok := WriteText(header, 148, 8, ChecksumField(checksum));
    PatchReplaces(front, Spaces(8), BackFields(), ChecksumField(checksum));
    return Success(header[..] + file.content + Zeros(Padding(|file.content|)));
  }

  lemma PatchReplaces(front: Bytes, old_: Bytes, back: Bytes, value: Bytes)
    requires |old_| == |value|
    ensures Patch(front + old_ + back, |front|, value) == front + value + back
  {
  }

  method FillSpaces(header: array<Byte>, ghost front: Bytes)
    requires header.Length == 512 && |front| == 148 && header[..] == front + Zeros(364)
    modifies header
    ensures header[..] == front + Spaces(8) + Zeros(356)
  {
    forall i | 148 <= i < 156 { header[i] := SPACE; }
  }

  /** The checksum field as spaces, the type flag, the magic and the version. */
  method FillBack(header: array<Byte>, ghost front: Bytes)
    requires header.Length == 512 && |front| == 148 && header[..] == front + Zeros(364)
    modifies header
    ensures header[..] == front + Spaces(8) + BackFields()
  {
    FillSpaces(header, front);
    header[156] := ZERO_DIGIT;
    ghost var done := front + Spaces(8) + [ZERO_DIGIT] + Zeros(100);
    TypeFlagPut(front);
    assert header[..] == (front + Spaces(8) + Zeros(356))[156 := ZERO_DIGIT];
    hide Patch, Spaces, Zeros, BackFields;
    var ok := WriteText(header, 257, 6, USTAR + [0]);
    PatchAppends(done, 255, USTAR + [0]);
    ok := WriteText(header, 263, 2, [ZERO_DIGIT, ZERO_DIGIT]);
    PatchAppends(done + (USTAR + [0]), 249, [ZERO_DIGIT, ZERO_DIGIT]);
    BackJoins(front);
  }

  lemma TypeFlagPut(front: Bytes)
    requires |front| == 148
    ensures (front + Spaces(8) + Zeros(356))[156 := ZERO_DIGIT] == front + Spaces(8) + [ZERO_DIGIT] + Zeros(100) + Zeros(255)
    ensures |front + Spaces(8) + [ZERO_DIGIT] + Zeros(100)| == 257 && |USTAR + [0]| == 6
  {
  }

  lemma BackJoins(front: Bytes)
    ensures front + Spaces(8) + [ZERO_DIGIT] + Zeros(100) + (USTAR + [0]) + [ZERO_DIGIT, ZERO_DIGIT] + Zeros(247)
         == front + Spaces(8) + BackFields()
  {
  }

  function Entries(files: seq<ArchiveFile>): Bytes
    requires forall f :: f in files ==> Fits(f)
  {
    if files == [] then [] else
    var last := files[|files| - 1];
    assert last in files && Fits(last);
    Entries(files[..|files| - 1]) + Entry(last)
  }

  function Archive(files: seq<ArchiveFile>): Bytes
    requires forall f :: f in files ==> Fits(f)
  {
    Entries(files) + Zeros(1024)
  }

  /** The archive, one entry per file and then the end-of-archive blocks, unless some file does not fit. */
  method CreateTarArchive(files: seq<ArchiveFile>) returns (r: Result<Bytes, WriteError>)
    ensures r.Success? <==> forall f :: f in files ==> Fits(f)
    ensures r.Success? ==> r.value == Archive(files)
  {
    hide Entry, Fits;
    var bytes: Bytes := [];
    for i := 0 to |files|
      invariant forall f :: f in files[..i] ==> Fits(f)
      invariant bytes == Entries(files[..i])
    {
      var entry := TarEntry(files[i]);
      if entry.Failure? {
        assert files[i] in files;
        return entry;
      }
      assert files[..i + 1][..i] == files[..i];
      bytes := bytes + entry.value;
    }
    assert files[..|files|] == files;
    return Success(bytes + Zeros(1024));
  }

  /** The stored checksum is the sum of the header's bytes with its own field read as spaces. */
  lemma StoredChecksum(file: ArchiveFile)
    requires Fits(file)
    ensures |Header(file)| == 512
    ensures Header(file)[148..156] == ChecksumField(Checksum(file))
    ensures Sum(Patch(Header(file), 148, Spaces(8))) == Checksum(file)
  {
    FrontLength(file);
    ChecksumFits(file);
    assert Patch(Header(file), 148, Spaces(8)) == FrontFields(file) + Spaces(8) + BackFields();
  }
}
