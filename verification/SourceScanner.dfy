/**
 The scanner as it runs: scripts/check-repository.ts, `sourceTokens`, lines 100-191. One object holds the place
 and the line; each method is held to the function that says what it scans.
 */
module SourceScanner {
  import opened Characters
  import opened SourceTokens

  lemma PrependTwice(a: seq<Token>, b: seq<Token>, r: Scan)
    ensures Prepend(a, Prepend(b, r)) == Prepend(a + b, r)
  {
    assert a + (b + r.tokens) == (a + b) + r.tokens;
  }

  lemma PrependNothing(r: Scan)
    ensures Prepend([], r) == r
  {
  }

  // The cases of code, one at a time.

  lemma TriviaCase(s: string, i: nat, wide: set<char>, c: Context, interpolation: bool)
    requires i < |s| && TriviaEnd(s, i) > i
    ensures Code(s, i, wide, c, interpolation) == Code(s, TriviaEnd(s, i), wide, c, interpolation)
  {
  }

  lemma CodeEnds(s: string, i: nat, wide: set<char>, c: Context, interpolation: bool)
    requires i >= |s|
    ensures Code(s, i, wide, c, interpolation) == Scan([], i, false)
  {
  }

  lemma StepCase(s: string, i: nat, wide: set<char>, c: Context, interpolation: bool, emitted: seq<Token>)
    requires i < |s| && TriviaEnd(s, i) == i
    ensures var step := StepAt(s, i, wide, c.regexAllowed);
      Prepend(emitted, Code(s, i, wide, c, interpolation)) ==
        if step.value == "}" && c.depth == 0 && interpolation then Scan(emitted + step.tokens, step.end, true)
        else Prepend(emitted + step.tokens, Code(s, step.end, wide, Advanced(c, step.value), interpolation))
  {
    hide StepAt, TriviaEnd, Advanced;
    var step := StepAt(s, i, wide, c.regexAllowed);
    PrependTwice(emitted, step.tokens, Code(s, step.end, wide, Advanced(c, step.value), interpolation));
  }

  class Scanner {
    const source: string
    const wide: set<char>
    var offset: nat
    var line: nat
    var tokens: seq<Token>

    /** The line is kept up to date with the place. */
    ghost predicate Valid()
      reads this
    {
      line == LineAt(source, offset)
    }

    constructor (source: string, wide: set<char>)
      ensures Valid() && this.source == source && this.wide == wide && offset == 0 && tokens == []
    {
      this.source, this.wide, this.offset, this.line, this.tokens := source, wide, 0, 1, [];
    }

    /** The next character, or nothing beyond the end; the place moves in both cases. */
    method Advance() returns (c: string)
      requires Valid()
      modifies this`offset, this`line
      ensures Valid() && offset == old(offset) + 1
      ensures c == if old(offset) < |source| then [source[old(offset)]] else ""
    {
      c := if offset < |source| then [source[offset]] else "";
      offset := offset + 1;
      if c == "\n" || (c == "\r" && (offset >= |source| || source[offset] != '\n')) || c == "\U{2028}" || c == "\U{2029}" {
        line := line + 1;
      }
    }

    method Quoted(quote: char)
      requires Valid() && offset < |source| && source[offset] == quote && quote != '\\'
      modifies this`offset, this`line
      ensures Valid() && offset == StringEnd(source, old(offset) + 1, quote)
    {
      var c := Advance();
      while offset < |source|
        invariant Valid() && StringEnd(source, offset, quote) == StringEnd(source, old(offset) + 1, quote)
        decreases |source| - offset
      {
        c := Advance();
        if c == "\\" { c := Advance(); } else if c == [quote] { break; }
      }
    }

    /** White space or one comment. */
    method SkipTrivia() returns (skipped: bool)
      requires Valid() && offset < |source|
      modifies this`offset, this`line
      ensures Valid() && offset == TriviaEnd(source, old(offset)) && (skipped <==> offset > old(offset))
    {
      var c;
      if IsSpace(source[offset]) {
        c := Advance();
        return true;
      }
      if source[offset] == '/' && offset + 1 < |source| && source[offset + 1] == '/' {
        assert LineCommentEnd(source, offset) == LineCommentEnd(source, offset + 1);
        while offset < |source| && !IsLineEnd(source[offset])
          invariant Valid() && LineCommentEnd(source, offset) == LineCommentEnd(source, old(offset))
          decreases |source| - offset
        {
          c := Advance();
        }
        return true;
      }
      if source[offset] == '/' && offset + 1 < |source| && source[offset + 1] == '*' {
        c := Advance();
        c := Advance();
        while offset < |source| && !(source[offset] == '*' && offset + 1 < |source| && source[offset + 1] == '/')
          invariant Valid() && BlockCommentEnd(source, offset) == BlockCommentEnd(source, old(offset) + 2)
          decreases |source| - offset
        {
          c := Advance();
        }
        c := Advance();
        c := Advance();
        return true;
      }
      return false;
    }

    method Regex()
      requires Valid() && offset < |source|
      modifies this`offset, this`line
      ensures Valid() && offset == FlagsEnd(source, RegexBodyEnd(source, old(offset) + 1, false))
    {
      var c := Advance();
      var inClass := false;
      while offset < |source|
        invariant Valid()
        invariant RegexBodyEnd(source, offset, inClass) == RegexBodyEnd(source, old(offset) + 1, false)
        decreases |source| - offset
      {
        c := Advance();
        if c == "\\" {
          c := Advance();
        } else if c == "[" {
          inClass := true;
        } else if c == "]" {
          inClass := false;
        } else if c == "/" && !inClass {
          break;
        } else if IsLineEnd(c[0]) {
          break;
        }
      }
      while offset < |source| && IsFlag(source[offset])
        invariant Valid()
        invariant FlagsEnd(source, offset) == FlagsEnd(source, RegexBodyEnd(source, old(offset) + 1, false))
        decreases |source| - offset
      {
        c := Advance();
      }
    }

    /** One token that is neither trivia nor a template. */
    method TakeLexeme(regexAllowed: bool) returns (value: string)
      requires Valid() && offset < |source|
      modifies this`offset, this`line
      ensures Valid() && Lexeme(value, offset) == LexemeAt(source, old(offset), wide, regexAllowed)
    {
      var c;
      if source[offset] == '\'' || source[offset] == '"' {
        Quoted(source[offset]);
        value := LITERAL;
      } else if source[offset] == '/' && regexAllowed {
        Regex();
        value := LITERAL;
      } else if IsWord(source[offset], wide) {
        var start := offset;
        c := Advance();
        while offset < |source| && IsWord(source[offset], wide)
          invariant Valid() && WordEnd(source, offset, wide) == WordEnd(source, start + 1, wide)
          decreases |source| - offset
        {
          c := Advance();
        }
        value := source[start..offset];
      } else {
        value := Advance();
        assert source[old(offset)..old(offset) + 1] == value;
        if offset < |source| {
          assert source[old(offset)..old(offset) + 2] == value + [source[offset]];
          if value + [source[offset]] in OPERATORS {
            c := Advance();
            value := value + c;
          }
        }
      }
    }

    /** A template after its opening mark. */
    method TakeTemplate()
      requires Valid()
      modifies this
      ensures Valid() && offset == Template(source, old(offset), wide).offset
      ensures tokens == old(tokens) + Template(source, old(offset), wide).tokens
      decreases Left(source, offset), 2
    {
      hide LineAt;
      ghost var whole, emitted := Template(source, offset, wide), [];
      PrependNothing(whole);
      while offset < |source|
        invariant Valid() && offset >= old(offset) && tokens == old(tokens) + emitted
        invariant whole == Prepend(emitted, Template(source, offset, wide))
        decreases |source| - offset
      {
        ghost var before, i := emitted, offset;
        var c := Advance();
        if c == "\\" {
          c := Advance();
        } else if c == "`" {
          assert emitted + [] == emitted;
          return;
        } else if c == "$" && offset < |source| && source[offset] == '{' {
          c := Advance();
          ghost var inner := Code(source, offset, wide, START, true);
          ghost var open := Token("{", line);
          tokens := tokens + [Token("{", line)];
          TakeCode(true);
          assert tokens == old(tokens) + (before + ([open] + inner.tokens));
          emitted := before + ([open] + inner.tokens);
          PrependTwice(before, [open] + inner.tokens, Template(source, offset, wide));
        }
      }
      assert emitted + [] == emitted;
    }

    /** One step of code. */
    method TakeStep(regexAllowed: bool) returns (value: string)
      requires Valid() && offset < |source|
      modifies this
      ensures Valid()
      ensures var step := StepAt(source, old(offset), wide, regexAllowed);
        value == step.value && offset == step.end && tokens == old(tokens) + step.tokens
      decreases Left(source, offset), 0
    {
      var tokenLine := line;
      if source[offset] == '`' {
        var mark := Advance();
        tokens := tokens + [Token(LITERAL, tokenLine)];
        TakeTemplate();
        value := LITERAL;
      } else {
        value := TakeLexeme(regexAllowed);
      }
      tokens := tokens + [Token(value, tokenLine)];
    }

    /** Code, up to the brace that closes it in an interpolation, and else to the end of the source. */
    method TakeCode(interpolation: bool)
      requires Valid()
      modifies this
      ensures Valid() && offset == Code(source, old(offset), wide, START, interpolation).offset
      ensures tokens == old(tokens) + Code(source, old(offset), wide, START, interpolation).tokens
      decreases Left(source, offset), 1
    {
      hide Code, LineAt, TriviaEnd, StepAt, IsControl, PrecedesRegex;
      var depth, previous, regexAllowed, controlParens := 0, "", true, [];
      ghost var c, whole, emitted := START, Code(source, offset, wide, START, interpolation), [];
      PrependNothing(whole);
      while offset < |source|
        invariant Valid() && offset >= old(offset) && tokens == old(tokens) + emitted
        invariant c == Context(depth, previous, regexAllowed, controlParens)
        invariant whole == Prepend(emitted, Code(source, offset, wide, c, interpolation))
        decreases |source| - offset
      {
        ghost var i := offset;
        var skipped := SkipTrivia();
        if skipped {
          TriviaCase(source, i, wide, c, interpolation);
          continue;
        }
        StepCase(source, i, wide, c, interpolation, emitted);
        var value := TakeStep(regexAllowed);
        emitted := emitted + StepAt(source, i, wide, regexAllowed).tokens;
        c := Advanced(c, value);
        if value == "{" { depth := depth + 1; }
        if value == "}" {
          depth := depth - 1;
          if depth == -1 && interpolation { return; }
        }
        if value == "(" { controlParens := controlParens + [IsControl(previous)]; }
        if value == ")" {
          regexAllowed := controlParens != [] && controlParens[|controlParens| - 1];
          if controlParens != [] { controlParens := controlParens[..|controlParens| - 1]; }
        } else {
          regexAllowed := PrecedesRegex(value);
        }
        previous := value;
      }
      CodeEnds(source, offset, wide, c, interpolation);
      assert emitted + [] == emitted;
    }
  }

  /** Scanning ends on every source. */
  method ScanSource(source: string, wide: set<char>) returns (tokens: seq<Token>)
    ensures tokens == Tokens(source, wide)
  {
    var scanner := new Scanner(source, wide);
    scanner.TakeCode(false);
    tokens := scanner.tokens;
  }
}
