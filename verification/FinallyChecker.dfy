/**
 The check for throw and return in finally blocks: scripts/check-repository.ts, `checkUnsafeFinally`,
 lines 193-219, over the tokens of a source. Which files it is asked about is not part of the model.
 */
module FinallyChecker {
  import opened SourceTokens
  import SourceScanner

  /** The token that leaves a finally block. */
  type Violation = Token

  // The meaning: a lexical notion of being inside a finally block.

  function Previous(tokens: seq<Token>, k: nat): string
    requires k <= |tokens|
  {
    if k == 0 then "" else tokens[k - 1].value
  }

  /** The brace at j is open before token k: from it on, no point before k has closed more than was opened. */
  predicate OpenAt(tokens: seq<Token>, j: nat, k: nat)
    requires k <= |tokens|
  {
    j < k && tokens[j].value == "{" && NeverClosed(tokens, j + 1, k)
  }

  predicate NeverClosed(tokens: seq<Token>, from: nat, to: nat)
    requires to <= |tokens|
  {
    forall m :: from <= m <= to ==> Balance(tokens, from, m) >= 0
  }

  /** Token k is inside a brace that follows the word finally. */
  predicate InFinally(tokens: seq<Token>, k: nat)
    requires k <= |tokens|
  {
    exists j :: 0 <= j < k && OpenAt(tokens, j, k) && Previous(tokens, j) == "finally"
  }

  /** A throw or return inside a finally block that is neither a member name nor a property name. */
  predicate Unsafe(tokens: seq<Token>, k: nat)
    requires k < |tokens|
  {
    && tokens[k].value in {"throw", "return"} && InFinally(tokens, k)
    && Previous(tokens, k) !in {".", "?."}
    && (k + 1 < |tokens| ==> tokens[k + 1].value != ":")
  }

  /** The unsafe tokens among the first n, in order. */
  function UnsafeTokens(tokens: seq<Token>, n: nat): seq<Violation>
    requires n <= |tokens|
  {
    if n == 0 then [] else UnsafeTokens(tokens, n - 1) + (if Unsafe(tokens, n - 1) then [tokens[n - 1]] else [])
  }

  // The brace stack, and what is on it.

  /** Positions of the open braces before token n, outermost first; a closing brace with none open is ignored. */
  function OpenBraces(tokens: seq<Token>, n: nat): (open: seq<nat>)
    requires n <= |tokens|
    ensures forall p :: 0 <= p < |open| ==> open[p] < n
  {
    if n == 0 then [] else
    var open := OpenBraces(tokens, n - 1);
    if tokens[n - 1].value == "{" then open + [n - 1]
    else if tokens[n - 1].value == "}" && open != [] then open[..|open| - 1]
    else open
  }

  /** Each open brace has as many open braces above it as were opened and not closed since. */
  lemma {:induction false} StackHeights(tokens: seq<Token>, n: nat, p: nat)
    requires n <= |tokens| && p < |OpenBraces(tokens, n)|
    ensures var open := OpenBraces(tokens, n);
      && tokens[open[p]].value == "{" && Balance(tokens, open[p] + 1, n) == |open| - 1 - p
      && NeverClosed(tokens, open[p] + 1, n)
  {
    if n > 0 && p < |OpenBraces(tokens, n - 1)| { StackHeights(tokens, n - 1, p); }
  }

  lemma {:induction false} OpenOnStack(tokens: seq<Token>, j: nat, n: nat) returns (p: nat)
    requires n <= |tokens| && OpenAt(tokens, j, n)
    ensures p < |OpenBraces(tokens, n)| && OpenBraces(tokens, n)[p] == j
  {
    if j < n - 1 {
      StillOpen(tokens, j, n);
      p := OpenOnStack(tokens, j, n - 1);
      StackHeights(tokens, n - 1, p);
      hide OpenAt, NeverClosed, Balance;
    } else {
      p := |OpenBraces(tokens, n)| - 1;
    }
  }

  lemma StillOpen(tokens: seq<Token>, j: nat, n: nat)
    requires n <= |tokens| && OpenAt(tokens, j, n) && j < n - 1
    ensures OpenAt(tokens, j, n - 1) && Balance(tokens, j + 1, n - 1) + Delta(tokens[n - 1].value) >= 0
  {
    assert Balance(tokens, j + 1, n) >= 0;
  }

  /** The stack holds exactly the open braces. */
  lemma StackIsExact(tokens: seq<Token>, j: nat, n: nat)
    requires n <= |tokens|
    ensures j in OpenBraces(tokens, n) <==> OpenAt(tokens, j, n)
  {
    if OpenAt(tokens, j, n) { var p := OpenOnStack(tokens, j, n); }
    if j in OpenBraces(tokens, n) {
      var open := OpenBraces(tokens, n);
      var p :| 0 <= p < |open| && open[p] == j;
      StackHeights(tokens, n, p);
    }
  }

  function Trues(flags: seq<bool>): nat {
    if flags == [] then 0 else Trues(flags[..|flags| - 1]) + (if flags[|flags| - 1] then 1 else 0)
  }

  lemma {:induction false} TruesIsZero(flags: seq<bool>)
    ensures Trues(flags) > 0 <==> true in flags
  {
    if flags != [] {
      TruesIsZero(flags[..|flags| - 1]);
      assert flags == flags[..|flags| - 1] + [flags[|flags| - 1]];
    }
  }

  /** One flag for each open brace: whether the word finally opened it. */
  ghost predicate Flags(tokens: seq<Token>, n: nat, braces: seq<bool>)
    requires n <= |tokens|
  {
    var open := OpenBraces(tokens, n);
    |braces| == |open| && forall p :: 0 <= p < |open| ==> braces[p] == (Previous(tokens, open[p]) == "finally")
  }

  lemma FlagsShowFinally(tokens: seq<Token>, n: nat, braces: seq<bool>)
    requires n <= |tokens| && Flags(tokens, n, braces)
    ensures Trues(braces) > 0 <==> InFinally(tokens, n)
  {
    hide OpenAt, OpenBraces, Previous;
    var open := OpenBraces(tokens, n);
    TruesIsZero(braces);
    if true in braces {
      var p :| 0 <= p < |braces| && braces[p];
      StackIsExact(tokens, open[p], n);
    }
    if InFinally(tokens, n) {
      var j :| 0 <= j < n && OpenAt(tokens, j, n) && Previous(tokens, j) == "finally";
      StackIsExact(tokens, j, n);
      var p :| 0 <= p < |open| && open[p] == j;
      assert braces[p];
    }
  }

  lemma FlagsStep(tokens: seq<Token>, n: nat, braces: seq<bool>)
    requires n < |tokens| && Flags(tokens, n, braces)
    ensures var value := tokens[n].value;
      && (value == "{" ==> Flags(tokens, n + 1, braces + [Previous(tokens, n) == "finally"]))
      && (value == "}" && braces != [] ==> Flags(tokens, n + 1, braces[..|braces| - 1]))
      && (value == "}" && braces == [] ==> Flags(tokens, n + 1, []))
      && (value != "{" && value != "}" ==> Flags(tokens, n + 1, braces))
  {
  }

  /** What the loop knows after n tokens: all violations but one that the next token may still clear. */
  ghost predicate Reported(tokens: seq<Token>, n: nat, violations: seq<Violation>, candidate: seq<Violation>)
    requires n <= |tokens|
  {
    if n > 0 && Pending(tokens, n - 1)
    then candidate == [tokens[n - 1]] && violations == UnsafeTokens(tokens, n - 1)
    else candidate == [] && violations == UnsafeTokens(tokens, n)
  }

  /** Unsafe as far as the tokens up to k tell. */
  predicate Pending(tokens: seq<Token>, k: nat)
    requires k < |tokens|
  {
    tokens[k].value in {"throw", "return"} && InFinally(tokens, k) && Previous(tokens, k) !in {".", "?."}
  }

  lemma ReportedStep(tokens: seq<Token>, n: nat, violations: seq<Violation>, candidate: seq<Violation>)
    requires n < |tokens| && Reported(tokens, n, violations, candidate)
    ensures var next := if candidate != [] && tokens[n].value != ":" then violations + candidate else violations;
      next == UnsafeTokens(tokens, n) && Reported(tokens, n + 1, next, if Pending(tokens, n) then [tokens[n]] else [])
  {
    hide InFinally, Previous;
  }

  lemma ReportedEnd(tokens: seq<Token>, violations: seq<Violation>, candidate: seq<Violation>)
    requires Reported(tokens, |tokens|, violations, candidate)
    ensures violations + candidate == UnsafeTokens(tokens, |tokens|)
  {
    hide InFinally, Previous;
  }

  /** The check reports exactly the unsafe tokens, in source order. */
  method CheckTokens(tokens: seq<Token>) returns (violations: seq<Violation>)
    ensures violations == UnsafeTokens(tokens, |tokens|)
  {
    hide Flags, Reported, InFinally, UnsafeTokens;
    violations := [];
    var braces: seq<bool> := [];
    var finallyDepth := 0;
    var previous := "";
    var candidate: seq<Violation> := [];
    assert Flags(tokens, 0, []) && Reported(tokens, 0, [], []) by { Beginning(tokens); }
    for n := 0 to |tokens|
      invariant previous == Previous(tokens, n)
      invariant Flags(tokens, n, braces) && finallyDepth == Trues(braces)
      invariant Reported(tokens, n, violations, candidate)
    {
      var token := tokens[n];
      FlagsShowFinally(tokens, n, braces);
      FlagsStep(tokens, n, braces);
      ReportedStep(tokens, n, violations, candidate);
      if candidate != [] && token.value != ":" { violations := violations + candidate; }
      candidate := [];
      if token.value == "{" {
        var isFinally := previous == "finally";
        braces := braces + [isFinally];
        if isFinally { finallyDepth := finallyDepth + 1; }
      } else if token.value == "}" {
        if braces != [] {
          var popped := braces[|braces| - 1];
          braces := braces[..|braces| - 1];
          if popped { finallyDepth := finallyDepth - 1; }
        }
      } else if finallyDepth > 0 && (token.value == "throw" || token.value == "return") && previous != "." && previous != "?." {
        candidate := [token];
      }
      previous := token.value;
    }
    ReportedEnd(tokens, violations, candidate);
    if candidate != [] { violations := violations + candidate; }
    else { assert violations + candidate == violations; }
  }

  lemma Beginning(tokens: seq<Token>)
    ensures Flags(tokens, 0, []) && Reported(tokens, 0, [], [])
  {
  }

  /** Every listed token is unsafe, and every unsafe token is listed. */
  lemma {:induction false} UnsafeTokensAreAll(tokens: seq<Token>, n: nat, t: Token)
    requires n <= |tokens|
    ensures t in UnsafeTokens(tokens, n) <==> exists k :: 0 <= k < n && Unsafe(tokens, k) && tokens[k] == t
  {
    hide Unsafe;
    if n > 0 { UnsafeTokensAreAll(tokens, n - 1, t); }
  }

  /** The whole check of one source. */
  method CheckSource(source: string, wide: set<char>) returns (violations: seq<Violation>)
    ensures violations == UnsafeTokens(Tokens(source, wide), |Tokens(source, wide)|)
  {
    var tokens := SourceScanner.ScanSource(source, wide);
    violations := CheckTokens(tokens);
  }

  // Balanced tokens, such as those of a completed template, leave the stack as it was.

  lemma {:induction false} BalancedPrefixKeepsStack(before: seq<Token>, tokens: seq<Token>, k: nat)
    requires k <= |tokens| && forall m :: 0 <= m <= k ==> Balance(tokens, 0, m) >= 0
    ensures var all := before + tokens; var under := OpenBraces(before, |before|); var open := OpenBraces(all, |before| + k);
      under <= open && |open| == |under| + Balance(tokens, 0, k)
  {
    var all := before + tokens;
    if k == 0 {
      StackOfStart(before, tokens, |before|);
    } else {
      BalancedPrefixKeepsStack(before, tokens, k - 1);
      assert all[|before| + k - 1] == tokens[k - 1];
      assert Balance(tokens, 0, k) >= 0;
    }
  }

  lemma {:induction false} StackOfStart(before: seq<Token>, tokens: seq<Token>, n: nat)
    requires n <= |before|
    ensures OpenBraces(before + tokens, n) == OpenBraces(before, n)
  {
    if n > 0 { StackOfStart(before, tokens, n - 1); }
  }

  /** After a completed template the brace stack is what it was before, however deep its interpolations nest. */
  lemma TemplateLeavesStack(before: seq<Token>, s: string, i: nat, wide: set<char>)
    requires Template(s, i, wide).closed
    ensures var tokens := Template(s, i, wide).tokens;
      OpenBraces(before + tokens, |before + tokens|) == OpenBraces(before, |before|)
  {
    var tokens := Template(s, i, wide).tokens;
    TemplateBalance(s, i, wide);
    hide Template;
    assert forall m :: 0 <= m <= |tokens| ==> Balance(tokens, 0, m) >= 0;
    BalancedPrefixKeepsStack(before, tokens, |tokens|);
  }
}
