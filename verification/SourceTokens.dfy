/**
 The source scanner of scripts/check-repository.ts, `sourceTokens`, lines 100-191. Source is a sequence of Unicode
 scalar values; one beyond the Basic Multilingual Plane is a single token here and two, one for each surrogate, there.
 It never continues an identifier; which other characters beyond ASCII do is a parameter.
 */
module SourceTokens {
  import opened Characters

  datatype Token = Token(value: string, line: nat)

  /** What scanning from some point gives: tokens, where it stopped, and whether its own closing mark was met. */
  datatype Scan = Scan(tokens: seq<Token>, offset: nat, closed: bool)

  /** What decides the meaning of the next character. */
  datatype Context = Context(depth: int, previous: string, regexAllowed: bool, parens: seq<bool>)

  const LITERAL := "<literal>"
  const START := Context(0, "", true, [])

  // Lines.

  /** A line ends at a terminator; a carriage return before a line feed does not count. */
  predicate EndsLine(s: string, i: nat)
    requires i < |s|
  {
    IsLineEnd(s[i]) && !(s[i] == '\r' && i + 1 < |s| && s[i + 1] == '\n')
  }

  /** One more than the lines ended before a position, which may be beyond the end. */
  function LineAt(s: string, k: nat): (line: nat)
    ensures line >= 1
  {
    if k == 0 then 1 else LineAt(s, k - 1) + (if k <= |s| && EndsLine(s, k - 1) then 1 else 0)
  }

  // The stretches of source that are not code.

  /** Past a quoted string whose opening quote is behind: after its first unescaped quote. */
  function StringEnd(s: string, i: nat, quote: char): (end: nat)
    ensures end >= i
    decreases |s| - i
  {
    if i >= |s| then i
    else if s[i] == '\\' then StringEnd(s, i + 2, quote)
    else if s[i] == quote then i + 1
    else StringEnd(s, i + 1, quote)
  }

  function LineCommentEnd(s: string, i: nat): (end: nat)
    ensures end >= i && (i <= |s| ==> end <= |s|)
    decreases |s| - i
  {
    if i >= |s| || IsLineEnd(s[i]) then i else LineCommentEnd(s, i + 1)
  }

  /** Past a block comment; an open one ends two characters beyond the source. */
  function BlockCommentEnd(s: string, i: nat): (end: nat)
    ensures end >= i
    decreases |s| - i
  {
    if i >= |s| || (s[i] == '*' && i + 1 < |s| && s[i + 1] == '/') then i + 2 else BlockCommentEnd(s, i + 1)
  }

  function RegexBodyEnd(s: string, i: nat, inClass: bool): (end: nat)
    ensures end >= i
    decreases |s| - i
  {
    if i >= |s| then i
    else if s[i] == '\\' then RegexBodyEnd(s, i + 2, inClass)
    else if s[i] == '[' then RegexBodyEnd(s, i + 1, true)
    else if s[i] == ']' then RegexBodyEnd(s, i + 1, false)
    else if (s[i] == '/' && !inClass) || IsLineEnd(s[i]) then i + 1
    else RegexBodyEnd(s, i + 1, inClass)
  }

  /** `[a-z]` without regard to case, which by Unicode folding has two members beyond ASCII. */
  predicate IsFlag(c: char) { IsLetter(c) || c in {'\U{17F}', '\U{212A}'} }

  function FlagsEnd(s: string, i: nat): (end: nat)
    ensures end >= i
    decreases |s| - i
  {
    if i < |s| && IsFlag(s[i]) then FlagsEnd(s, i + 1) else i
  }

  predicate IsWord(c: char, wide: set<char>) {
    IsLetter(c) || IsDigit(c) || c in {'$', '_'} || ('\U{7F}' < c <= '\U{FFFF}' && c in wide)
  }

  function WordEnd(s: string, i: nat, wide: set<char>): (end: nat)
    ensures end >= i && (i <= |s| ==> end <= |s|)
    decreases |s| - i
  {
    if i < |s| && IsWord(s[i], wide) then WordEnd(s, i + 1, wide) else i
  }

  const OPERATORS := ["=>", "?.", "++", "--", "&&", "||", "??"]

  /** The end of white space or a comment at a position, or the position itself. */
  function TriviaEnd(s: string, i: nat): (end: nat)
    requires i < |s|
    ensures end >= i
  {
    if IsSpace(s[i]) then i + 1
    else if s[i] == '/' && i + 1 < |s| && s[i + 1] == '/' then LineCommentEnd(s, i)
    else if s[i] == '/' && i + 1 < |s| && s[i + 1] == '*' then BlockCommentEnd(s, i + 2)
    else i
  }

  datatype Lexeme = Lexeme(value: string, end: nat)

  /** The token at a position that is neither trivia nor a template. */
  function LexemeAt(s: string, i: nat, wide: set<char>, regexAllowed: bool): (r: Lexeme)
    requires i < |s|
    ensures r.end > i
    ensures r.value == LITERAL || (r.end <= |s| && r.value == s[i..r.end])
  {
    if s[i] == '\'' || s[i] == '"' then Lexeme(LITERAL, StringEnd(s, i + 1, s[i]))
    else if s[i] == '/' && regexAllowed then Lexeme(LITERAL, FlagsEnd(s, RegexBodyEnd(s, i + 1, false)))
    else if IsWord(s[i], wide) then Lexeme(s[i..WordEnd(s, i + 1, wide)], WordEnd(s, i + 1, wide))
    else if i + 2 <= |s| && s[i..i + 2] in OPERATORS then Lexeme(s[i..i + 2], i + 2)
    else Lexeme(s[i..i + 1], i + 1)
  }

  predicate IsControl(value: string) { value in ["if", "while", "for", "with", "switch", "catch"] }

  predicate PrecedesRegex(value: string) {
    || value in ["(", "{", "[", ",", ":", ";", "=", "!", "?", "&", "|", "+", "*", "%", "~", "^", "<", ">", "-"]
    || value in ["=>", "&&", "||", "??", "return", "throw", "case", "delete", "void", "typeof", "yield", "await"]
    || value in ["in", "of", "else", "do", "instanceof", "new"]
  }

  /** After a closing parenthesis a regular expression may follow only where it closes a control header. */
  function Advanced(c: Context, value: string): Context {
    var parens := if value == "(" then c.parens + [IsControl(c.previous)] else c.parens;
    Context(
      c.depth + Delta(value), value,
      if value == ")" then parens != [] && parens[|parens| - 1] else PrecedesRegex(value),
      if value == ")" && parens != [] then parens[..|parens| - 1] else parens)
  }

  function Delta(value: string): int { if value == "{" then 1 else if value == "}" then -1 else 0 }

  function Prepend(tokens: seq<Token>, scan: Scan): Scan { Scan(tokens + scan.tokens, scan.offset, scan.closed) }

  function Left(s: string, i: nat): nat { if i < |s| then |s| - i else 0 }

  /** One step of code: the tokens it yields, the value that decides what follows, and where it ends. */
  datatype Step = Step(value: string, tokens: seq<Token>, end: nat)

  function StepAt(s: string, i: nat, wide: set<char>, regexAllowed: bool): (r: Step)
    requires i < |s|
    ensures r.end > i
    decreases Left(s, i), 0
  {
    if s[i] == '`' then
      var token, body := Token(LITERAL, LineAt(s, i)), Template(s, i + 1, wide);
      Step(LITERAL, [token] + body.tokens + [token], body.offset)
    else
      var lexeme := LexemeAt(s, i, wide, regexAllowed);
      Step(lexeme.value, [Token(lexeme.value, LineAt(s, i))], lexeme.end)
  }

  /** Code from a position on; in an interpolation, up to the brace that closes it. */
  function Code(s: string, i: nat, wide: set<char>, c: Context, interpolation: bool): (r: Scan)
    ensures r.offset >= i
    ensures r.closed ==> interpolation && r.offset > i
    ensures !r.closed ==> r.offset >= |s|
    decreases Left(s, i), 1
  {
    if i >= |s| then Scan([], i, false)
    else if TriviaEnd(s, i) > i then Code(s, TriviaEnd(s, i), wide, c, interpolation)
    else
      var step := StepAt(s, i, wide, c.regexAllowed);
      if step.value == "}" && c.depth == 0 && interpolation then Scan(step.tokens, step.end, true)
      else Prepend(step.tokens, Code(s, step.end, wide, Advanced(c, step.value), interpolation))
  }

  /** A template from after its opening mark on: the tokens of its interpolations. */
  function Template(s: string, i: nat, wide: set<char>): (r: Scan)
    ensures r.offset >= i
    ensures !r.closed ==> r.offset >= |s|
    decreases Left(s, i), 2
  {
    if i >= |s| then Scan([], i, false)
    else if s[i] == '\\' then Template(s, i + 2, wide)
    else if s[i] == '`' then Scan([], i + 1, true)
    else if s[i] == '$' && i + 1 < |s| && s[i + 1] == '{' then
      var inner := Code(s, i + 2, wide, START, true);
      Prepend([Token("{", LineAt(s, i + 2))] + inner.tokens, Template(s, inner.offset, wide))
    else Template(s, i + 1, wide)
  }

  function Tokens(s: string, wide: set<char>): seq<Token> { Code(s, 0, wide, START, false).tokens }

  // Braces.

  /** Opened minus closed braces among the tokens of a range. */
  function Balance(tokens: seq<Token>, from: nat, to: nat): int
    requires from <= to <= |tokens|
  {
    if from == to then 0 else Balance(tokens, from, to - 1) + Delta(tokens[to - 1].value)
  }

  /** No prefix, from a depth on, closes more than is open; the last token may. */
  predicate NeverBelow(tokens: seq<Token>, depth: int) {
    forall k :: 0 <= k < |tokens| ==> depth + Balance(tokens, 0, k) >= 0
  }

  predicate Balanced(tokens: seq<Token>) { NeverBelow(tokens, 0) && Balance(tokens, 0, |tokens|) == 0 }

  lemma {:induction false} BalanceOfPrefix(a: seq<Token>, b: seq<Token>, k: nat)
    requires k <= |a|
    ensures Balance(a + b, 0, k) == Balance(a, 0, k)
  {
    if k > 0 { BalanceOfPrefix(a, b, k - 1); }
  }

  lemma {:induction false} BalanceOfJoin(a: seq<Token>, b: seq<Token>, k: nat)
    requires k <= |b|
    ensures Balance(a + b, 0, |a| + k) == Balance(a, 0, |a|) + Balance(b, 0, k)
  {
    if k == 0 { BalanceOfPrefix(a, b, |a|); } else { BalanceOfJoin(a, b, k - 1); }
  }

  lemma JoinNeverBelow(a: seq<Token>, b: seq<Token>, depth: int)
    requires NeverBelow(a, depth) && NeverBelow(b, depth + Balance(a, 0, |a|))
    ensures NeverBelow(a + b, depth)
    ensures Balance(a + b, 0, |a + b|) == Balance(a, 0, |a|) + Balance(b, 0, |b|)
  {
    hide Balance;
    BalanceOfJoin(a, b, |b|);
    forall k | 0 <= k < |a + b| ensures depth + Balance(a + b, 0, k) >= 0 {
      if k < |a| { BalanceOfPrefix(a, b, k); } else { BalanceOfJoin(a, b, k - |a|); }
    }
  }

  lemma OneToken(t: Token, depth: int)
    ensures Balance([t], 0, 1) == Delta(t.value) && (depth >= 0 ==> NeverBelow([t], depth))
  {
    assert Balance([t], 0, 0) == 0;
  }

  /** A step changes the balance as its value says, unless it is a template that runs to the end of the source. */
  lemma StepBalance(s: string, i: nat, wide: set<char>, regexAllowed: bool)
    requires i < |s|
    ensures var r := StepAt(s, i, wide, regexAllowed); var total := Balance(r.tokens, 0, |r.tokens|);
      && NeverBelow(r.tokens, 0)
      && (total == Delta(r.value) || (r.value == LITERAL && r.end >= |s| && total >= 0))
    decreases Left(s, i), 0
  {
    hide Balance, NeverBelow, LexemeAt, LineAt;
    if s[i] == '`' {
      TemplateBalance(s, i + 1, wide);
      Around(Token(LITERAL, LineAt(s, i)), Template(s, i + 1, wide).tokens);
    } else {
      OneToken(Token(LexemeAt(s, i, wide, regexAllowed).value, LineAt(s, i)), 0);
    }
  }

  /** From a depth that is not below zero on, an interpolation closes exactly when the balance falls below it. */
  lemma {:induction false} CodeBalance(s: string, i: nat, wide: set<char>, c: Context)
    requires c.depth >= 0
    ensures var r := Code(s, i, wide, c, true); var total := c.depth + Balance(r.tokens, 0, |r.tokens|);
      NeverBelow(r.tokens, c.depth) && (if r.closed then total == -1 else total >= 0)
    decreases Left(s, i), 1
  {
    hide Balance, NeverBelow, StepAt, TriviaEnd;
    if i >= |s| {
      Nothing(c.depth);
    } else if TriviaEnd(s, i) > i {
      CodeBalance(s, TriviaEnd(s, i), wide, c);
    } else {
      var step := StepAt(s, i, wide, c.regexAllowed);
      StepBalance(s, i, wide, c.regexAllowed);
      Deeper(step.tokens, c.depth);
      if !(step.value == "}" && c.depth == 0) {
        var next := Advanced(c, step.value);
        CodeBalance(s, step.end, wide, next);
        var rest := Code(s, step.end, wide, next, true).tokens;
        if Balance(step.tokens, 0, |step.tokens|) == Delta(step.value) {
          JoinNeverBelow(step.tokens, rest, c.depth);
        } else {
          assert step.tokens + [] == step.tokens;
        }
      }
    }
  }

  lemma Deeper(tokens: seq<Token>, depth: int)
    requires NeverBelow(tokens, 0) && depth >= 0
    ensures NeverBelow(tokens, depth)
  {
  }

  lemma Nothing(depth: int)
    ensures NeverBelow([], depth) && Balance([], 0, 0) == 0
  {
  }

  lemma Around(t: Token, tokens: seq<Token>)
    requires t.value == LITERAL && NeverBelow(tokens, 0) && Balance(tokens, 0, |tokens|) >= 0
    ensures var all := [t] + tokens + [t];
      NeverBelow(all, 0) && Balance(all, 0, |all|) == Balance(tokens, 0, |tokens|)
  {
    OneToken(t, 0);
    OneToken(t, Balance(tokens, 0, |tokens|));
    JoinNeverBelow([t], tokens, 0);
    JoinNeverBelow([t] + tokens, [t], 0);
  }

  /** The tokens of a template never close more than they open, and those of a completed one are balanced. */
  lemma {:induction false} TemplateBalance(s: string, i: nat, wide: set<char>)
    ensures var r := Template(s, i, wide);
      NeverBelow(r.tokens, 0) && Balance(r.tokens, 0, |r.tokens|) >= 0 && (r.closed ==> Balanced(r.tokens))
    decreases Left(s, i), 2
  {
    hide Balance, NeverBelow, LineAt;
    if i >= |s| {
      Nothing(0);
    } else if s[i] == '\\' {
      TemplateBalance(s, i + 2, wide);
    } else if s[i] == '`' {
      Nothing(0);
    } else if s[i] == '$' && i + 1 < |s| && s[i + 1] == '{' {
      var open, inner := Token("{", LineAt(s, i + 2)), Code(s, i + 2, wide, START, true);
      var rest := Template(s, inner.offset, wide);
      CodeBalance(s, i + 2, wide, START);
      OpenedBalance(open, inner.tokens);
      TemplateBalance(s, inner.offset, wide);
      if inner.closed { JoinNeverBelow([open] + inner.tokens, rest.tokens, 0); }
      else { assert rest == Scan([], inner.offset, false); assert ([open] + inner.tokens) + [] == [open] + inner.tokens; }
    } else {
      TemplateBalance(s, i + 1, wide);
    }
  }

  lemma OpenedBalance(open: Token, tokens: seq<Token>)
    requires open.value == "{" && NeverBelow(tokens, 0)
    ensures NeverBelow([open] + tokens, 0)
    ensures Balance([open] + tokens, 0, |tokens| + 1) == Balance(tokens, 0, |tokens|) + 1
  {
    OneToken(open, 0);
    assert NeverBelow(tokens, 1);
    JoinNeverBelow([open], tokens, 0);
  }

  // Tokens that are not literals stand in the source, in order, each on the line it reports.

  predicate StandsAt(s: string, p: nat, t: Token) {
    p + |t.value| <= |s| && s[p..p + |t.value|] == t.value && t.line == LineAt(s, p)
  }

  /** Places for the tokens between two positions; literals need none. */
  ghost predicate Placed(s: string, from: nat, to: nat, tokens: seq<Token>, at: seq<nat>) {
    && |at| == |tokens|
    && (forall k :: 0 <= k < |tokens| && tokens[k].value != LITERAL ==>
          StandsAt(s, at[k], tokens[k]) && from <= at[k] && at[k] + |tokens[k].value| <= to)
    && (forall k, l :: 0 <= k < l < |tokens| && tokens[k].value != LITERAL && tokens[l].value != LITERAL ==>
          at[k] + |tokens[k].value| <= at[l])
  }

  lemma JoinPlaced(s: string, i: nat, j: nat, k: nat, a: seq<Token>, b: seq<Token>, at: seq<nat>, bt: seq<nat>)
    requires Placed(s, i, j, a, at) && Placed(s, j, k, b, bt) && i <= j <= k
    ensures Placed(s, i, k, a + b, at + bt)
  {
    hide StandsAt;
  }

  lemma WidePlaced(s: string, i: nat, j: nat, i': nat, j': nat, tokens: seq<Token>, at: seq<nat>)
    requires Placed(s, i, j, tokens, at) && i' <= i && j <= j'
    ensures Placed(s, i', j', tokens, at)
  {
    hide StandsAt;
  }

  lemma LiteralPlaced(s: string, i: nat, j: nat, t: Token)
    requires t.value == LITERAL
    ensures Placed(s, i, j, [t], [0])
  {
  }

  lemma LexemePlaced(s: string, i: nat, wide: set<char>, regexAllowed: bool)
    requires i < |s|
    ensures var lexeme := LexemeAt(s, i, wide, regexAllowed);
      Placed(s, i, lexeme.end, [Token(lexeme.value, LineAt(s, i))], [i])
  {
    hide LineAt;
    var lexeme := LexemeAt(s, i, wide, regexAllowed);
    hide LexemeAt;
    if lexeme.value != LITERAL { assert i + |lexeme.value| == lexeme.end; }
  }

  lemma {:induction false} StepPlaced(s: string, i: nat, wide: set<char>, regexAllowed: bool) returns (at: seq<nat>)
    requires i < |s|
    ensures var step := StepAt(s, i, wide, regexAllowed); Placed(s, i, step.end, step.tokens, at)
    decreases Left(s, i), 0
  {
    hide Placed, LineAt, LexemeAt;
    if s[i] == '`' {
      var token, body := Token(LITERAL, LineAt(s, i)), Template(s, i + 1, wide);
      var inner := TemplatePlaced(s, i + 1, wide);
      LiteralPlaced(s, i, i + 1, token);
      LiteralPlaced(s, body.offset, body.offset, token);
      JoinPlaced(s, i, i + 1, body.offset, [token], body.tokens, [0], inner);
      JoinPlaced(s, i, body.offset, body.offset, [token] + body.tokens, [token], [0] + inner, [0]);
      at := [0] + inner + [0];
    } else {
      LexemePlaced(s, i, wide, regexAllowed);
      at := [i];
    }
  }

  /** Every token of code that is no literal is a piece of the source on its line, and they come in order. */
  lemma {:induction false} CodePlaced(s: string, i: nat, wide: set<char>, c: Context, interpolation: bool) returns (at: seq<nat>)
    ensures var r := Code(s, i, wide, c, interpolation); Placed(s, i, r.offset, r.tokens, at)
    decreases Left(s, i), 1
  {
    hide Placed, StepAt, TriviaEnd, Advanced;
    if i >= |s| {
      at := [];
      NonePlaced(s, i);
    } else if TriviaEnd(s, i) > i {
      at := CodePlaced(s, TriviaEnd(s, i), wide, c, interpolation);
      var r := Code(s, i, wide, c, interpolation);
      WidePlaced(s, TriviaEnd(s, i), r.offset, i, r.offset, r.tokens, at);
    } else {
      var step := StepAt(s, i, wide, c.regexAllowed);
      at := StepPlaced(s, i, wide, c.regexAllowed);
      if !(step.value == "}" && c.depth == 0 && interpolation) {
        var rest := Code(s, step.end, wide, Advanced(c, step.value), interpolation);
        var after := CodePlaced(s, step.end, wide, Advanced(c, step.value), interpolation);
        JoinPlaced(s, i, step.end, rest.offset, step.tokens, rest.tokens, at, after);
        at := at + after;
      }
    }
  }

  lemma NonePlaced(s: string, i: nat)
    ensures Placed(s, i, i, [], [])
  {
  }

  lemma OpenPlaced(s: string, i: nat)
    requires i + 1 < |s| && s[i + 1] == '{'
    ensures Placed(s, i, i + 2, [Token("{", LineAt(s, i + 2))], [i + 1])
  {
    assert LineAt(s, i + 2) == LineAt(s, i + 1);
    hide LineAt;
  }

  lemma {:induction false} TemplatePlaced(s: string, i: nat, wide: set<char>) returns (at: seq<nat>)
    ensures var r := Template(s, i, wide); Placed(s, i, r.offset, r.tokens, at)
    decreases Left(s, i), 2
  {
    hide Placed, LineAt;
    var r := Template(s, i, wide);
    if i >= |s| {
      at := [];
      NonePlaced(s, i);
    } else if s[i] == '\\' {
      at := TemplatePlaced(s, i + 2, wide);
      WidePlaced(s, i + 2, r.offset, i, r.offset, r.tokens, at);
    } else if s[i] == '`' {
      at := [];
      NonePlaced(s, i);
      WidePlaced(s, i, i, i, i + 1, [], []);
    } else if s[i] == '$' && i + 1 < |s| && s[i + 1] == '{' {
      var open, inner := Token("{", LineAt(s, i + 2)), Code(s, i + 2, wide, START, true);
      var rest := Template(s, inner.offset, wide);
      OpenPlaced(s, i);
      var at1 := CodePlaced(s, i + 2, wide, START, true);
      JoinPlaced(s, i, i + 2, inner.offset, [open], inner.tokens, [i + 1], at1);
      var at2 := TemplatePlaced(s, inner.offset, wide);
      JoinPlaced(s, i, inner.offset, rest.offset, [open] + inner.tokens, rest.tokens, [i + 1] + at1, at2);
      at := [i + 1] + at1 + at2;
    } else {
      at := TemplatePlaced(s, i + 1, wide);
      WidePlaced(s, i + 1, r.offset, i, r.offset, r.tokens, at);
    }
  }

  // What a string says is never code.

  /** A text as it is written between quotes. */
  function Escape(text: string, quote: char): string {
    if text == "" then ""
    else (if text[0] == quote || text[0] == '\\' then ['\\', text[0]] else [text[0]]) + Escape(text[1..], quote)
  }

  lemma {:induction false} EscapedEnd(s: string, i: nat, text: string, quote: char)
    requires i <= |s| && quote != '\\' && Escape(text, quote) + [quote] <= s[i..]
    ensures StringEnd(s, i, quote) == i + |Escape(text, quote)| + 1
    decreases |text|
  {
    var written := Escape(text, quote) + [quote];
    assert s[i..][0] == written[0];
    if text != "" {
      var head, tail := Escape(text, quote)[..|Escape(text, quote)| - |Escape(text[1..], quote)|], Escape(text[1..], quote);
      assert written == head + (tail + [quote]);
      assert s[i..][|head|..] == s[i + |head|..];
      assert tail + [quote] <= s[i + |head|..];
      if |head| == 2 { assert s[i..][1] == written[1]; }
      EscapedEnd(s, i + |head|, text[1..], quote);
    }
  }

  /** A quoted text, whatever it says, is one literal, and scanning goes on right after it. */
  lemma QuotedIsOneLiteral(s: string, i: nat, text: string, quote: char, wide: set<char>, c: Context, interpolation: bool)
    requires quote in {'\'', '"'} && i < |s| && s[i..i + 1] == [quote] && Escape(text, quote) + [quote] <= s[i + 1..]
    ensures Code(s, i, wide, c, interpolation) ==
      Prepend([Token(LITERAL, LineAt(s, i))],
              Code(s, i + 2 + |Escape(text, quote)|, wide, Advanced(c, LITERAL), interpolation))
  {
    hide LineAt, Escape, StringEnd, Advanced, Template;
    EscapedEnd(s, i + 1, text, quote);
    assert s[i] == s[i..i + 1][0];
    assert TriviaEnd(s, i) == i;
    hide TriviaEnd;
  }
}
