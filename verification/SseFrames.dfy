/**
 Server-sent event framing over arbitrary chunk boundaries: scripts/endurance-metrics.ts, `SseFrames`,
 lines 134-158. Text is what the byte decoder gives, a sequence of Unicode scalar values; the bound counts it in UTF-16
 code units, as the source does. The frame syntax is that of section 9.2 of the WHATWG HTML standard, as far as the
 class reads it.
 */
module SseFrames {
  import opened Characters
  import opened Wrappers

  const BOUND: nat := 1_048_576

  datatype Frame = Frame(event: string, data: string)

  /** What draining the pending text gives: all its frames, or a refusal, and the text left over. */
  datatype Outcome = Overflow(rest: string) | Taken(frames: seq<Frame>, rest: string)

  /** The length of a text in UTF-16 code units. */
  function Units(s: string): nat {
    if s == "" then 0 else Units(s[..|s| - 1]) + (if s[|s| - 1] > '\U{FFFF}' then 2 else 1)
  }

  lemma {:induction false} UnitsOfJoin(a: string, b: string)
    ensures Units(a + b) == Units(a) + Units(b)
  {
    if b == "" {
      assert a + b == a;
    } else {
      UnitsOfJoin(a, b[..|b| - 1]);
      assert (a + b)[..|a + b| - 1] == a + b[..|b| - 1];
    }
  }

  lemma {:induction false} UnitsOfPlain(s: string)
    requires forall i :: 0 <= i < |s| ==> s[i] <= '\U{FFFF}'
    ensures Units(s) == |s|
  {
    if s != "" { UnitsOfPlain(s[..|s| - 1]); }
  }

  // Separators: two line ends in a row, each with or without a carriage return.

  function NewlineAt(s: string, i: nat): (n: nat)
    ensures n <= 2 && (n > 0 ==> i + n <= |s|)
  {
    if i < |s| && s[i] == '\n' then 1 else if i + 1 < |s| && s[i] == '\r' && s[i + 1] == '\n' then 2 else 0
  }

  function SeparatorAt(s: string, i: nat): (n: nat)
    ensures n <= 4 && (n > 0 ==> 2 <= n && i + n <= |s|)
  {
    var first := NewlineAt(s, i);
    var second := NewlineAt(s, i + first);
    if first == 0 || second == 0 then 0 else first + second
  }

  /** The leftmost separator from i on. */
  function FindSeparator(s: string, i: nat): (r: Option<nat>)
    ensures r.Some? ==> SeparatorAt(s, r.value) > 0
    decreases |s| - i
  {
    if SeparatorAt(s, i) > 0 then Some(i) else if i >= |s| then None else FindSeparator(s, i + 1)
  }

  lemma FindsFirst(s: string, i: nat)
    ensures var r := FindSeparator(s, i);
      && (r.Some? ==> i <= r.value)
      && (forall j :: i <= j && (r.Some? ==> j < r.value) ==> SeparatorAt(s, j) == 0)
    decreases |s| - i
  {
    if SeparatorAt(s, i) == 0 && i < |s| { FindsFirst(s, i + 1); }
  }

  /** A text cut at its leftmost separator, which is dropped. */
  datatype Cut = Cut(block: string, tail: string)

  function NextBlock(text: string): (r: Option<Cut>)
    ensures r.Some? ==> |r.value.block| + 2 + |r.value.tail| <= |text|
  {
    match FindSeparator(text, 0)
    case None => None
    case Some(i) => Some(Cut(text[..i], text[i + SeparatorAt(text, i)..]))
  }

  function FindNewline(s: string, i: nat): (r: Option<nat>)
    ensures r.Some? ==> i <= r.value && NewlineAt(s, r.value) > 0
    ensures forall j :: i <= j && (r.Some? ==> j < r.value) ==> NewlineAt(s, j) == 0
    decreases |s| - i
  {
    if NewlineAt(s, i) > 0 then Some(i) else if i >= |s| then None else FindNewline(s, i + 1)
  }

  // One block of lines.

  function Lines(block: string): (lines: seq<string>)
    ensures lines != []
    decreases |block|
  {
    match FindNewline(block, 0)
    case None => [block]
    case Some(i) => [block[..i]] + Lines(block[i + NewlineAt(block, i)..])
  }

  function TrimStart(s: string): (r: string)
    ensures r != [] ==> !IsSpace(r[0])
  {
    if s != [] && IsSpace(s[0]) then TrimStart(s[1..]) else s
  }

  function DropSpace(s: string): string { if s != [] && s[0] == ' ' then s[1..] else s }

  const EVENT := "event:"
  const DATA := "data:"

  lemma NotBoth(line: string)
    ensures !(EVENT <= line && DATA <= line)
  {
    if EVENT <= line { assert line[0] == EVENT[0]; }
  }

  /** The last event line wins; without one the event is a message. */
  function EventOf(lines: seq<string>): string {
    if lines == [] then "message"
    else if EVENT <= lines[|lines| - 1] then TrimStart(lines[|lines| - 1][|EVENT|..])
    else EventOf(lines[..|lines| - 1])
  }

  function DataOf(lines: seq<string>): seq<string> {
    if lines == [] then []
    else DataOf(lines[..|lines| - 1])
         + (if DATA <= lines[|lines| - 1] then [DropSpace(lines[|lines| - 1][|DATA|..])] else [])
  }

  function Join(lines: seq<string>): string {
    if lines == [] then "" else if |lines| == 1 then lines[0] else lines[0] + "\n" + Join(lines[1..])
  }

  /** The frame of a block, if it has any data line. */
  function FrameOf(block: string): seq<Frame> {
    var lines := Lines(block);
    if DataOf(lines) == [] then [] else [Frame(EventOf(lines), Join(DataOf(lines)))]
  }

  function Prepend(frames: seq<Frame>, o: Outcome): Outcome {
    if o.Taken? then Taken(frames + o.frames, o.rest) else o
  }

  /** All complete frames of a text, in order; a block or a remainder over the bound is refused. */
  function Drain(text: string): Outcome
    decreases |text|
  {
    match NextBlock(text)
    case None => if Units(text) > BOUND then Overflow(text) else Taken([], text)
    case Some(cut) =>
      if Units(cut.block) > BOUND then Overflow(text) else Prepend(FrameOf(cut.block), Drain(cut.tail))
  }

  lemma PrependTwice(f: seq<Frame>, g: seq<Frame>, o: Outcome)
    ensures Prepend(f, Prepend(g, o)) == Prepend(f + g, o)
  {
    if o.Taken? { assert f + (g + o.frames) == (f + g) + o.frames; }
  }

  lemma PrependNothing(o: Outcome)
    ensures Prepend([], o) == o
  {
  }

  lemma PrependKeeps(f: seq<Frame>, o: Outcome)
    ensures Prepend(f, o).rest == o.rest && (Prepend(f, o).Taken? <==> o.Taken?)
    ensures o.Taken? ==> Prepend(f, o).frames == f + o.frames
  {
  }

  class SseFrames {
    var pending: string

    constructor ()
      ensures pending == ""
    {
      pending := "";
    }

    static method ParseBlock(block: string) returns (frames: seq<Frame>)
      ensures frames == FrameOf(block)
    {
      var lines := Lines(block);
      var event, data := "message", [];
      for i := 0 to |lines|
        invariant event == EventOf(lines[..i]) && data == DataOf(lines[..i])
      {
        hide TrimStart, DropSpace, Lines;
        var line := lines[i];
        assert lines[..i + 1][..i] == lines[..i];
        NotBoth(line);
        if EVENT <= line {
          event := TrimStart(line[|EVENT|..]);
        } else if DATA <= line {
          data := data + [DropSpace(line[|DATA|..])];
        }
      }
      assert lines[..|lines|] == lines;
      frames := if data == [] then [] else [Frame(event, Join(data))];
    }

    /** One chunk of decoded text. A refusal keeps the text it stopped at. */
    method Push(text: string) returns (result: Option<seq<Frame>>)
      modifies this
      ensures pending == Drain(old(pending) + text).rest
      ensures result == (var o := Drain(old(pending) + text); if o.Taken? then Some(o.frames) else None)
    {
      hide NextBlock, FrameOf, Prepend;
      pending := pending + text;
      var frames := [];
      ghost var whole := pending;
      var next := NextBlock(pending);
      PrependNothing(Drain(whole));
      while next.Some?
        invariant next == NextBlock(pending)
        invariant Drain(whole) == Prepend(frames, Drain(pending))
        decreases |pending|
      {
        var cut := next.value;
        if Units(cut.block) > BOUND {
          PrependKeeps(frames, Drain(pending));
          return None;
        }
        var frame := ParseBlock(cut.block);
        PrependTwice(frames, frame, Drain(cut.tail));
        pending := cut.tail;
        frames := frames + frame;
        next := NextBlock(pending);
      }
      PrependKeeps(frames, Drain(pending));
      if Units(pending) > BOUND { return None; }
      assert frames + [] == frames;
      return Some(frames);
    }
  }

  // More text never moves a separator that is already there.

  lemma SeparatorStays(a: string, b: string, i: nat)
    requires SeparatorAt(a, i) > 0 && forall j :: 0 <= j < i ==> SeparatorAt(a, j) == 0
    ensures SeparatorAt(a + b, i) == SeparatorAt(a, i)
    ensures forall j :: 0 <= j < i ==> SeparatorAt(a + b, j) == 0
  {
    forall j | 0 <= j < i ensures SeparatorAt(a + b, j) == 0 { assert SeparatorAt(a, j) == 0; }
  }

  lemma {:induction false} FindIs(s: string, from: nat, i: nat)
    requires from <= i && SeparatorAt(s, i) > 0 && forall j :: from <= j < i ==> SeparatorAt(s, j) == 0
    ensures FindSeparator(s, from) == Some(i)
    decreases i - from
  {
    if from < i { FindIs(s, from + 1, i); }
  }

  /** The first block of a text is the first block of every longer text, with the same text after it. */
  lemma FirstStays(a: string, b: string)
    requires NextBlock(a).Some?
    ensures NextBlock(a + b) == Some(Cut(NextBlock(a).value.block, NextBlock(a).value.tail + b))
  {
    var i := FindSeparator(a, 0).value;
    FindsFirst(a, 0);
    SeparatorStays(a, b, i);
    FindIs(a + b, 0, i);
    hide FindSeparator, SeparatorAt;
    assert (a + b)[..i] == a[..i] && (a + b)[i + SeparatorAt(a, i)..] == a[i + SeparatorAt(a, i)..] + b;
  }

  /** Draining a longer text goes on from where draining its start stopped. */
  lemma {:induction false} DrainExtends(a: string, b: string)
    requires Drain(a).Taken?
    ensures Drain(a + b) == Prepend(Drain(a).frames, Drain(Drain(a).rest + b))
    decreases |a|
  {
    hide FrameOf, NextBlock, Prepend;
    var next := NextBlock(a);
    if next.Some? {
      var frame, tail := FrameOf(next.value.block), next.value.tail;
      PrependKeeps(frame, Drain(tail));
      FirstStays(a, b);
      DrainExtends(tail, b);
      PrependTwice(frame, Drain(tail).frames, Drain(Drain(tail).rest + b));
    } else {
      PrependNothing(Drain(a + b));
    }
  }

  // A run of pushes.

  function PushAll(pending: string, chunks: seq<string>): Outcome
    decreases |chunks|
  {
    if chunks == [] then Taken([], pending) else
    match Drain(pending + chunks[0])
    case Overflow(rest) => Overflow(rest)
    case Taken(frames, rest) => Prepend(frames, PushAll(rest, chunks[1..]))
  }

  function Whole(chunks: seq<string>): string { if chunks == [] then "" else chunks[0] + Whole(chunks[1..]) }

  /** The text after the last separator, whatever its size. */
  function Rest(text: string): string
    decreases |text|
  {
    match NextBlock(text)
    case None => text
    case Some(cut) => Rest(cut.tail)
  }

  lemma {:induction false} DrainLeavesRest(text: string)
    requires Drain(text).Taken?
    ensures Drain(text).rest == Rest(text)
    decreases |text|
  {
    hide FrameOf, NextBlock;
    if NextBlock(text).Some? { DrainLeavesRest(NextBlock(text).value.tail); }
  }

  lemma {:induction false} RestExtends(a: string, b: string)
    ensures Rest(a + b) == Rest(Rest(a) + b)
    decreases |a|
  {
    hide NextBlock;
    if NextBlock(a).Some? {
      FirstStays(a, b);
      RestExtends(NextBlock(a).value.tail, b);
    }
  }

  /** Where a whole text is accepted, so is each start of it whose remainder fits. */
  lemma {:induction false} StartAccepted(a: string, b: string)
    requires Drain(a + b).Taken? && Units(Rest(a)) <= BOUND
    ensures Drain(a).Taken?
    decreases |a|
  {
    hide FrameOf, NextBlock;
    if NextBlock(a).Some? {
      FirstStays(a, b);
      StartAccepted(NextBlock(a).value.tail, b);
    }
  }

  predicate RemaindersFit(pending: string, chunks: seq<string>) {
    forall k :: 1 <= k <= |chunks| ==> Units(Rest(pending + Whole(chunks[..k]))) <= BOUND
  }

  lemma Associates(a: string, b: string, c: string)
    ensures a + (b + c) == (a + b) + c
  {
  }

  lemma WholePrefix(pending: string, chunks: seq<string>, k: nat)
    requires 1 <= k <= |chunks|
    ensures pending + Whole(chunks[..k]) == (pending + chunks[0]) + Whole(chunks[1..][..k - 1])
  {
    assert chunks[..k][1..] == chunks[1..][..k - 1];
    Associates(pending, chunks[0], Whole(chunks[1..][..k - 1]));
  }

  lemma WholeStep(pending: string, chunks: seq<string>)
    requires chunks != []
    ensures pending + Whole(chunks) == (pending + chunks[0]) + Whole(chunks[1..])
    ensures forall k :: 1 <= k <= |chunks| ==>
      pending + Whole(chunks[..k]) == (pending + chunks[0]) + Whole(chunks[1..][..k - 1])
  {
    Associates(pending, chunks[0], Whole(chunks[1..]));
    hide Whole;
    forall k | 1 <= k <= |chunks|
      ensures pending + Whole(chunks[..k]) == (pending + chunks[0]) + Whole(chunks[1..][..k - 1])
    {
      WholePrefix(pending, chunks, k);
    }
  }

  lemma EmptyWhole(start: string, chunks: seq<string>)
    ensures start + Whole(chunks[..0]) == start && start + Whole([]) == start
  {
  }

  lemma RemaindersStep(pending: string, chunks: seq<string>)
    requires chunks != []
    ensures RemaindersFit(pending, chunks) <==>
      Units(Rest(pending + chunks[0])) <= BOUND && RemaindersFit(Rest(pending + chunks[0]), chunks[1..])
  {
    hide Rest, Whole;
    var start, tail := pending + chunks[0], chunks[1..];
    WholeStep(pending, chunks);
    EmptyWhole(start, tail);
    forall k | 0 <= k <= |tail| ensures Rest(start + Whole(tail[..k])) == Rest(Rest(start) + Whole(tail[..k])) {
      RestExtends(start, Whole(tail[..k]));
    }
    if RemaindersFit(pending, chunks) {
      assert pending + Whole(chunks[..1]) == start + Whole(tail[..0]);
      forall k | 1 <= k <= |tail| ensures Units(Rest(Rest(start) + Whole(tail[..k]))) <= BOUND {
        assert pending + Whole(chunks[..k + 1]) == start + Whole(tail[..k]);
      }
    }
    if Units(Rest(start)) <= BOUND && RemaindersFit(Rest(start), tail) {
      forall k | 1 <= k <= |chunks| ensures Units(Rest(pending + Whole(chunks[..k]))) <= BOUND {
        assert pending + Whole(chunks[..k]) == start + Whole(tail[..k - 1]);
      }
    }
  }

  /**
   Chunk independence, exactly: pushes of the chunks succeed if and only if one push of the whole text does and
   the remainder fits at the end of each chunk; and then the frames and what is left pending are the same.
   */
  lemma {:induction false} ChunksAgree(pending: string, chunks: seq<string>)
    requires Drain(pending) == Taken([], pending)
    ensures PushAll(pending, chunks).Taken? <==>
      Drain(pending + Whole(chunks)).Taken? && RemaindersFit(pending, chunks)
    ensures PushAll(pending, chunks).Taken? ==> PushAll(pending, chunks) == Drain(pending + Whole(chunks))
    decreases |chunks|
  {
    hide Rest, FrameOf, NextBlock, Drain, RemaindersFit;
    if chunks == [] {
      assert RemaindersFit(pending, chunks) by { NoRemainders(pending); }
      assert pending + Whole(chunks) == pending;
    } else {
      var start, tail := pending + chunks[0], chunks[1..];
      WholeStep(pending, chunks);
      RemaindersStep(pending, chunks);
      if Drain(start).Taken? {
        RestIsPending(start);
        ChunksAgree(Drain(start).rest, tail);
        FirstChunkTaken(pending, chunks);
      } else {
        FirstChunkRefused(pending, chunks);
      }
    }
  }

  lemma NoRemainders(pending: string)
    ensures RemaindersFit(pending, [])
  {
  }

  lemma FirstChunkTaken(pending: string, chunks: seq<string>)
    requires chunks != []
    requires Drain(pending + chunks[0]).Taken?
    ensures var done, tail := Drain(pending + chunks[0]), chunks[1..];
      && done.rest == Rest(pending + chunks[0]) && Units(done.rest) <= BOUND
      && PushAll(pending, chunks) == Prepend(done.frames, PushAll(done.rest, tail))
      && Drain(pending + Whole(chunks)) == Prepend(done.frames, Drain(done.rest + Whole(tail)))
  {
    var start, tail := pending + chunks[0], chunks[1..];
    WholeStep(pending, chunks);
    hide Whole, NextBlock, Prepend, Rest, Drain;
    RestIsPending(start);
    DrainLeavesRest(start);
    DrainExtends(start, Whole(tail));
  }

  lemma FirstChunkRefused(pending: string, chunks: seq<string>)
    requires chunks != []
    requires Drain(pending + chunks[0]).Overflow?
    ensures PushAll(pending, chunks).Overflow?
    ensures !(Drain(pending + Whole(chunks)).Taken? && Units(Rest(pending + chunks[0])) <= BOUND)
  {
    var start, tail := pending + chunks[0], chunks[1..];
    WholeStep(pending, chunks);
    hide Whole, Drain, Rest;
    if Drain(start + Whole(tail)).Taken? && Units(Rest(start)) <= BOUND { StartAccepted(start, Whole(tail)); }
  }

  /** What a push leaves holds no separator, so it would be left again. */
  lemma {:induction false} RestIsPending(text: string)
    requires Drain(text).Taken?
    ensures Drain(Drain(text).rest) == Taken([], Drain(text).rest) && Units(Drain(text).rest) <= BOUND
    decreases |text|
  {
    hide FrameOf, NextBlock;
    if NextBlock(text).Some? { RestIsPending(NextBlock(text).value.tail); }
  }

  /** Where the whole is accepted, no chunk boundary leaves more than three units over the bound. */
  lemma {:induction false} RemainderSlack(a: string, b: string)
    requires Drain(a + b).Taken?
    ensures Units(Rest(a)) <= BOUND + 3
    decreases |a|
  {
    hide FrameOf, NextBlock;
    if NextBlock(a).Some? {
      FirstStays(a, b);
      RemainderSlack(NextBlock(a).value.tail, b);
    } else {
      UnitsOfJoin(a, b);
      if NextBlock(a + b).Some? { SeparatorBeyond(a, b); }
    }
  }

  /** A text without a separator goes at most three line-end characters beyond the first block of a longer one. */
  lemma SeparatorBeyond(a: string, b: string)
    requires NextBlock(a).None? && NextBlock(a + b).Some?
    ensures Units(a) <= Units(NextBlock(a + b).value.block) + 3
  {
    hide Units, NextBlock;
    var block := NextBlock(a + b).value.block;
    BlockBeyond(a, b);
    if |a| <= |block| {
      UnitsOfJoin(a, block[|a|..]);
    } else {
      UnitsOfJoin(block, a[|block|..]);
      UnitsOfPlain(a[|block|..]);
    }
  }

  lemma BlockBeyond(a: string, b: string)
    requires NextBlock(a).None? && NextBlock(a + b).Some?
    ensures var block := NextBlock(a + b).value.block;
      if |a| <= |block| then block == a + block[|a|..]
      else |a| <= |block| + 3 && a == block + a[|block|..] && forall k :: 0 <= k < |a| - |block| ==> IsLineEnd(a[|block|..][k])
  {
    var i := FindSeparator(a + b, 0).value;
    FindsFirst(a, 0);
    SeparatorRunsOver(a, b, i);
    hide FindSeparator, SeparatorAt, IsLineEnd;
    Cuts(a, b, i);
    if i < |a| {
      forall k | 0 <= k < |a| - i ensures IsLineEnd(a[i..][k]) { assert a[i..][k] == (a + b)[i + k]; }
    }
  }

  lemma SeparatorRunsOver(a: string, b: string, i: nat)
    requires SeparatorAt(a, i) == 0 && SeparatorAt(a + b, i) > 0
    ensures |a| < i + SeparatorAt(a + b, i)
    ensures forall k :: i <= k < i + SeparatorAt(a + b, i) ==> IsLineEnd((a + b)[k])
  {
  }

  lemma Cuts(a: string, b: string, i: nat)
    requires i <= |a + b|
    ensures if |a| <= i then (a + b)[..i] == a + (a + b)[..i][|a|..] else (a + b)[..i] == a[..i] && a == a[..i] + a[i..]
  {
  }

  /** A block at the bound whose separator is split across two chunks is refused, though the whole is accepted. */
  lemma SplitSeparatorRefused()
    ensures var block := seq(BOUND, _ => 'a');
      && Drain("" + Whole([block + "\n", "\n"])).Taken?
      && PushAll("", [block + "\n", "\n"]).Overflow?
  {
    var block := seq(BOUND, _ => 'a');
    AtBoundAccepted(block);
    HalfRefused(block);
    hide Drain, NextBlock;
    WholeOfTwo(block + "\n", "\n");
    assert (block + "\n") + "\n" == block + "\n\n";
    assert "" + (block + "\n") == block + "\n";
  }

  lemma WholeOfTwo(a: string, b: string)
    ensures "" + Whole([a, b]) == a + b
  {
    assert [a, b][1..] == [b] && [b][1..] == [];
    assert Whole([b]) == b + Whole([]);
  }

  lemma AtBoundAccepted(block: string)
    requires |block| == BOUND && forall i :: 0 <= i < |block| ==> block[i] == 'a'
    ensures Drain(block + "\n\n").Taken?
  {
    UnitsOfPlain(block);
    hide Units;
    var whole := block + "\n\n";
    FindIs(whole, 0, BOUND);
    hide FindSeparator, FrameOf;
    assert whole[..BOUND] == block && whole[BOUND + SeparatorAt(whole, BOUND)..] == "";
    NothingLeft();
  }

  lemma NothingLeft()
    ensures Drain("") == Taken([], "")
  {
    assert Units("") == 0;
  }

  lemma HalfRefused(block: string)
    requires |block| == BOUND && forall i :: 0 <= i < |block| ==> block[i] == 'a'
    ensures Drain(block + "\n").Overflow?
  {
    UnitsOfPlain(block + "\n");
    hide Units;
    FindsFirst(block + "\n", 0);
    hide FindSeparator;
  }

  // What the gateway writes, apps/gateway/src/http.ts, line 182, is read back.

  function BlockText(f: Frame): string { "event: " + f.event + "\n" + "data: " + f.data }

  function Written(frames: seq<Frame>): string {
    if frames == [] then "" else BlockText(frames[0]) + "\n\n" + Written(frames[1..])
  }

  /** One line of text: no line feed, and no carriage return that a line end would take with it. */
  predicate OneLine(s: string) {
    (forall i :: 0 <= i < |s| ==> s[i] != '\n') && (s != "" ==> s[|s| - 1] != '\r')
  }

  /** What a type and a JSON text always are: single lines, the type without leading white space. */
  predicate Legible(f: Frame) { OneLine(f.event) && OneLine(f.data) && (f.event != "" ==> !IsSpace(f.event[0])) }

  predicate WithinBound(f: Frame) { Units(BlockText(f)) <= BOUND }

  lemma FirstNewline(a: string, b: string)
    requires OneLine(a)
    ensures FindNewline(a, 0).None?
    ensures FindNewline(a + "\n" + b, 0) == Some(|a|) && NewlineAt(a + "\n" + b, |a|) == 1
  {
    FindNewlineIs(a + "\n" + b, 0, |a|);
    NoNewline(a, 0);
  }

  lemma {:induction false} FindNewlineIs(s: string, from: nat, i: nat)
    requires from <= i && NewlineAt(s, i) > 0 && forall j :: from <= j < i ==> NewlineAt(s, j) == 0
    ensures FindNewline(s, from) == Some(i)
    decreases i - from
  {
    if from < i { FindNewlineIs(s, from + 1, i); }
  }

  lemma {:induction false} NoNewline(s: string, from: nat)
    requires forall j :: from <= j ==> NewlineAt(s, j) == 0
    ensures FindNewline(s, from).None?
    decreases |s| - from
  {
    if from < |s| { NoNewline(s, from + 1); }
  }

  lemma LinesOfBlock(a: string, b: string)
    requires OneLine(a) && OneLine(b)
    ensures Lines(a + "\n" + b) == [a, b]
  {
    var block := a + "\n" + b;
    FirstNewline(a, b);
    FirstNewline(b, "");
    hide FindNewline, OneLine;
    assert block[..|a|] == a && block[|a| + 1..] == b;
    assert Lines(b) == [b];
  }

  lemma EventLine(e: string)
    requires e != "" ==> !IsSpace(e[0])
    ensures var a := "event: " + e; EVENT <= a && !(DATA <= a) && TrimStart(a[|EVENT|..]) == e
  {
    var a := "event: " + e;
    assert a[|EVENT|..] == " " + e;
    assert IsSpace(' ') && (" " + e)[1..] == e;
    NotBoth(a);
  }

  lemma DataLine(d: string)
    ensures var b := "data: " + d; DATA <= b && !(EVENT <= b) && DropSpace(b[|DATA|..]) == d
  {
    var b := "data: " + d;
    assert b[|DATA|..] == " " + d;
    assert (" " + d)[1..] == d;
    NotBoth(b);
  }

  lemma TwoLines(a: string, b: string)
    requires EVENT <= a && !(DATA <= a) && DATA <= b && !(EVENT <= b)
    ensures EventOf([a, b]) == TrimStart(a[|EVENT|..]) && DataOf([a, b]) == [DropSpace(b[|DATA|..])]
  {
    hide TrimStart, DropSpace;
    var lines := [a, b];
    assert lines[..1] == [a] && [a][..0] == [];
    assert EventOf([a]) == TrimStart(a[|EVENT|..]) && DataOf([a]) == [];
  }

  lemma BlockReadBack(f: Frame)
    requires Legible(f)
    ensures FrameOf(BlockText(f)) == [f]
  {
    var a, b := "event: " + f.event, "data: " + f.data;
    assert BlockText(f) == a + "\n" + b;
    assert OneLine(a) && OneLine(b);
    hide OneLine, BlockText, Lines, EventOf, DataOf, Join, TrimStart, DropSpace;
    LinesOfBlock(a, b);
    EventAndData(f);
    JoinOne(f.data);
  }

  lemma EventAndData(f: Frame)
    requires f.event != "" ==> !IsSpace(f.event[0])
    ensures var lines := ["event: " + f.event, "data: " + f.data]; EventOf(lines) == f.event && DataOf(lines) == [f.data]
  {
    hide EventOf, DataOf, TrimStart, DropSpace, IsSpace;
    EventLine(f.event);
    DataLine(f.data);
    TwoLines("event: " + f.event, "data: " + f.data);
  }

  lemma JoinOne(line: string)
    ensures Join([line]) == line
  {
  }

  lemma BlockEnds(f: Frame, tail: string)
    requires Legible(f)
    ensures NextBlock(BlockText(f) + "\n\n" + tail) == Some(Cut(BlockText(f), tail))
  {
    var a, b := "event: " + f.event, "data: " + f.data;
    var text := a + "\n" + b + "\n\n" + tail;
    var n := |a| + 1 + |b|;
    assert text == BlockText(f) + "\n\n" + tail && |BlockText(f)| == n;
    NewlinesOf(a, b, tail);
    FindIs(text, 0, n);
    assert text[..n] == BlockText(f) && text[n + 2..] == tail;
  }

  lemma NewlinesOf(a: string, b: string, tail: string)
    requires OneLine(a) && OneLine(b) && b != "" && b[0] !in {'\r', '\n'}
    ensures var text := a + "\n" + b + "\n\n" + tail; var n := |a| + 1 + |b|;
      SeparatorAt(text, n) == 2 && forall j :: 0 <= j < n ==> SeparatorAt(text, j) == 0
  {
    var text := a + "\n" + b + "\n\n" + tail;
    var n := |a| + 1 + |b|;
    assert forall j :: 0 <= j < |a| ==> text[j] == a[j];
    assert forall j :: 0 <= j < |b| ==> text[|a| + 1 + j] == b[j];
    assert text[|a|] == '\n' && text[n] == '\n' && text[n + 1] == '\n';
    forall j | 0 <= j < n ensures SeparatorAt(text, j) == 0 {
      if |a| < j { assert text[j] == b[j - |a| - 1]; }
      if |a| < j + 1 < n { assert text[j + 1] == b[j - |a|]; }
    }
  }

  lemma FirstReadBack(f: Frame, after: string)
    requires Legible(f)
    ensures var text := BlockText(f) + "\n\n" + after;
      if WithinBound(f) then Drain(text) == Prepend([f], Drain(after)) else Drain(text).Overflow?
  {
    BlockEnds(f, after);
    BlockReadBack(f);
    hide FrameOf, NextBlock, Prepend, Legible, BlockText, Units;
  }

  /**
   What is written is read back in order, with whatever follows, exactly if every frame is within the bound, and is
   refused otherwise; by ChunksAgree also in chunks.
   */
  lemma {:induction false} WrittenReadBack(frames: seq<Frame>, tail: string)
    requires forall i :: 0 <= i < |frames| ==> Legible(frames[i])
    ensures var o := Drain(Written(frames) + tail);
      if forall i :: 0 <= i < |frames| ==> WithinBound(frames[i]) then o == Prepend(frames, Drain(tail)) else o.Overflow?
  {
    hide Legible, WithinBound, Drain, Prepend, BlockText;
    if frames == [] {
      assert Written(frames) + tail == tail;
      PrependNothing(Drain(tail));
    } else {
      var f, rest, after := frames[0], frames[1..], Written(frames[1..]) + tail;
      assert Written(frames) + tail == BlockText(f) + "\n\n" + after;
      FirstReadBack(f, after);
      WrittenReadBack(rest, tail);
      PrependTwice([f], rest, Drain(tail));
      PrependKeeps([f], Drain(after));
      assert [f] + rest == frames;
      if forall i :: 0 <= i < |frames| ==> WithinBound(frames[i]) {
        assert forall i :: 0 <= i < |rest| ==> WithinBound(rest[i]) by {
          forall i | 0 <= i < |rest| ensures WithinBound(rest[i]) { assert rest[i] == frames[i + 1]; }
        }
      } else {
        var i :| 0 <= i < |frames| && !WithinBound(frames[i]);
        if i > 0 { assert !WithinBound(rest[i - 1]); }
      }
    }
  }
}
