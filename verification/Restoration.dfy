/**
 Nested restoration errors: scripts/restoration.ts. A safety flag raised anywhere in a tree of
 aggregated errors survives every further aggregation.
 */
module Restoration {
  import opened Wrappers

  /** A thrown error, or an AggregateError over several; either may carry `pixelUnrestored: true`. */
  datatype Error =
    | Plain(flagged: bool, message: string)
    | Aggregate(flagged: bool, message: string, errors: seq<Error>)

  predicate PixelUnrestored(e: Error) {
    e.flagged || (e.Aggregate? && exists i :: 0 <= i < |e.errors| && PixelUnrestored(e.errors[i]))
  }

  predicate EveryError(e: Error, p: Error -> bool) {
    if e.Aggregate? then e.errors != [] && forall i :: 0 <= i < |e.errors| ==> EveryError(e.errors[i], p) else p(e)
  }

  /** The error at the end of a path of positions through nested aggregates. */
  function Nested(e: Error, path: seq<nat>): Option<Error> {
    if path == [] then Some(e)
    else if e.Aggregate? && path[0] < |e.errors| then Nested(e.errors[path[0]], path[1..])
    else None
  }

  lemma NestedStep(e: Error, i: nat, path: seq<nat>)
    requires e.Aggregate? && i < |e.errors|
    ensures Nested(e, [i] + path) == Nested(e.errors[i], path)
  {
    assert ([i] + path)[1..] == path;
  }

  /** The flag is seen exactly when some error carries it, at whatever depth. */
  lemma {:induction false} PixelUnrestoredAtAnyDepth(e: Error)
    ensures PixelUnrestored(e) <==> exists path :: Nested(e, path).Some? && Nested(e, path).value.flagged
  {
    if e.flagged { assert Nested(e, []) == Some(e); }
    if PixelUnrestored(e) && !e.flagged {
      var i: nat :| i < |e.errors| && PixelUnrestored(e.errors[i]);
      PixelUnrestoredAtAnyDepth(e.errors[i]);
      var path: seq<nat> :| Nested(e.errors[i], path).Some? && Nested(e.errors[i], path).value.flagged;
      NestedStep(e, i, path);
    }
    forall path | Nested(e, path).Some? && Nested(e, path).value.flagged
      ensures PixelUnrestored(e)
    {
      NestedFlagSeen(e, path);
    }
  }

  lemma {:induction false} NestedFlagSeen(e: Error, path: seq<nat>)
    requires Nested(e, path).Some? && Nested(e, path).value.flagged
    ensures PixelUnrestored(e)
  {
    if path != [] { NestedFlagSeen(e.errors[path[0]], path[1..]); }
  }

  predicate NodeOk(e: Error, p: Error -> bool) { if e.Aggregate? then e.errors != [] else p(e) }

  /** Every collected error satisfies p exactly when each leaf does and no aggregate is empty, at whatever depth. */
  lemma EveryErrorAtAnyDepth(e: Error, p: Error -> bool)
    ensures EveryError(e, p) <==>
      forall path :: Nested(e, path).Some? ==> NodeOk(Nested(e, path).value, p)
  {
    hide EveryError, Nested, NodeOk;
    if EveryError(e, p) {
      forall path | Nested(e, path).Some?
        ensures NodeOk(Nested(e, path).value, p)
      {
        NestedSatisfies(e, path, p);
      }
    } else {
      var path := FailingPath(e, p);
    }
  }

  lemma {:induction false} FailingPath(e: Error, p: Error -> bool) returns (path: seq<nat>)
    requires !EveryError(e, p)
    ensures Nested(e, path).Some? && !NodeOk(Nested(e, path).value, p)
  {
    if e.Aggregate? && e.errors != [] {
      var i: nat :| i < |e.errors| && !EveryError(e.errors[i], p);
      path := FailingPath(e.errors[i], p);
      NestedStep(e, i, path);
      path := [i] + path;
    } else {
      path := [];
    }
  }

  lemma {:induction false} NestedSatisfies(e: Error, path: seq<nat>, p: Error -> bool)
    requires EveryError(e, p) && Nested(e, path).Some?
    ensures NodeOk(Nested(e, path).value, p)
  {
    if path != [] { NestedSatisfies(e.errors[path[0]], path[1..], p); }
  }

  /** The errors of the steps that threw, in step order. */
  function Failures(steps: seq<Option<Error>>): seq<Error> {
    if steps == [] then []
    else
      var last := steps[|steps| - 1];
      Failures(steps[..|steps| - 1]) + (if last.Some? then [last.value] else [])
  }

  /** One call out of `runWithRestoration`. */
  datatype Call = Body | Step(i: nat)

  function StepCalls(n: nat): seq<Call> { if n == 0 then [] else StepCalls(n - 1) + [Step(n - 1)] }

  /** The body and the steps as they are called one by one: what each would end with, and the calls made so far. */
  class Work<T(!new)> {
    const body: Result<T, Error>
    const steps: seq<Option<Error>>
    ghost var calls: seq<Call>

    constructor (body: Result<T, Error>, steps: seq<Option<Error>>)
      ensures this.body == body && this.steps == steps && calls == []
    {
      this.body, this.steps, this.calls := body, steps, [];
    }

    method CallBody() returns (r: Result<T, Error>)
      modifies this
      ensures r == body && calls == old(calls) + [Body]
    {
      calls := calls + [Body];
      r := body;
    }

    method CallStep(i: nat) returns (error: Option<Error>)
      requires i < |steps|
      modifies this
      ensures error == steps[i] && calls == old(calls) + [Step(i)]
    {
      calls := calls + [Step(i)];
      error := steps[i];
    }
  }

  /**
   The body is called once, and then every step in order, whatever the body and the steps before it did. The body's
   end comes back unchanged unless a step threw; then one aggregate holds its error and all of theirs.
   */
  method RunWithRestoration<T(!new)>(name: string, work: Work<T>, noun: string) returns (r: Result<T, Error>)
    modifies work
    ensures work.calls == old(work.calls) + [Body] + StepCalls(|work.steps|)
    ensures r.Success? <==> work.body.Success? && Failures(work.steps) == []
    ensures r.Success? ==> r == work.body
    ensures work.body.Failure? && Failures(work.steps) == [] ==> r == work.body
    ensures Failures(work.steps) != [] ==>
      r.Failure? && r.error.Aggregate? && !r.error.flagged
      && r.error.errors == (if work.body.Failure? then [work.body.error] else []) + Failures(work.steps)
  {
    var body := work.CallBody();
    var failures: seq<Error> := [];
    for i := 0 to |work.steps|
      invariant work.calls == old(work.calls) + [Body] + StepCalls(i) && failures == Failures(work.steps[..i])
    {
      assert work.steps[..i + 1][..i] == work.steps[..i];
      var error := work.CallStep(i);
      if error.Some? { failures := failures + [error.value]; }
    }
    assert work.steps[..|work.steps|] == work.steps;
    if failures != [] {
      if body.Failure? { return Failure(Aggregate(false, name + " and " + noun + " failed", [body.error] + failures)); }
      return Failure(Aggregate(false, name + " " + noun + " failed", failures));
    }
    r := body;
  }

  lemma {:induction false} FailuresAre(steps: seq<Option<Error>>, e: Error)
    ensures e in Failures(steps) <==> Some(e) in steps
  {
    if steps != [] {
      var front, last := steps[..|steps| - 1], steps[|steps| - 1];
      FailuresAre(front, e);
      assert steps == front + [last];
    }
  }

  /** Whatever owner collects the failures, its error warns about the device exactly when the body's or a step's error did. */
  lemma RestorationKeepsTheFlag(body: Option<Error>, steps: seq<Option<Error>>, message: string)
    ensures PixelUnrestored(Aggregate(false, message, (if body.Some? then [body.value] else []) + Failures(steps))) <==>
      || (body.Some? && PixelUnrestored(body.value))
      || exists e :: Some(e) in steps && PixelUnrestored(e)
  {
    var all := (if body.Some? then [body.value] else []) + Failures(steps);
    var outer := Aggregate(false, message, all);
    forall e
      ensures e in Failures(steps) <==> Some(e) in steps
    {
      FailuresAre(steps, e);
    }
    if PixelUnrestored(outer) {
      var i :| 0 <= i < |all| && PixelUnrestored(all[i]);
      assert all[i] in all;
      assert (body.Some? && all[i] == body.value) || all[i] in Failures(steps);
    }
    if body.Some? && PixelUnrestored(body.value) { assert PixelUnrestored(all[0]); }
    if e :| Some(e) in steps && PixelUnrestored(e) {
      assert e in all;
      var i :| 0 <= i < |all| && all[i] == e;
    }
  }
}
