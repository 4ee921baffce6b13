/**
 How a lane ends (iw_lanes/lanes.cpp, compiled with ERROR_FULL_STACK): its body returns or raises,
 the finalizers run, and the final status and Lua stack are what the master finds. Scripts are
 parameters: what a body or a finalizer does is part of the input.
 */
module Finalizers {
  import opened Basics

  datatype Value = Nil | CancelError | Trace | FinalizerTable | EmptyTable | Any(n: nat)

  datatype Outcome = Returns(values: seq<Value>) | Raises(error: Value)

  datatype Finalizer = Finalizer(id: nat, outcome: Outcome)

  datatype Call = Call(id: nat, args: seq<Value>)

  datatype Status = Done | ErrorSt | Cancelled

  // ----- what should happen -----

  /** The finalizer that ends the run: of those that fail, the one registered last. */
  function LastFailing(fs: seq<Finalizer>): (k: Option<nat>)
    ensures k.Some? ==>
              && k.value < |fs| && fs[k.value].outcome.Raises?
              && forall j | k.value < j < |fs| :: fs[j].outcome.Returns?
    ensures k.None? ==> forall j | 0 <= j < |fs| :: fs[j].outcome.Returns?
  {
    if fs == [] then None
    else if fs[|fs| - 1].outcome.Raises? then Some(|fs| - 1)
    else LastFailing(fs[..|fs| - 1])
  }

  /** Calls of the finalizers down to position 'n', the last one registered first. */
  function CallsDownTo(fs: seq<Finalizer>, n: nat, args: seq<Value>): seq<Call>
    requires n <= |fs|
  {
    seq(|fs| - n, i requires 0 <= i < |fs| - n => Call(fs[|fs| - 1 - i].id, args))
  }

  /** The calls made: up to and including the first failure. */
  function CallsMade(fs: seq<Finalizer>, args: seq<Value>): seq<Call> {
    CallsDownTo(fs, if LastFailing(fs).Some? then LastFailing(fs).value else 0, args)
  }

  /** What a finalizer is called with. The index of the error is taken one too high, so after an error
      it gets the stack trace and the table of finalizers. */
  function ArgsPassed(body: Outcome): seq<Value> {
    if body.Returns? then [] else [TraceOf(body.error), FinalizerTable]
  }

  /** finalizer_func( [err, stack_tbl] ) */
  function ArgsDocumented(body: Outcome): seq<Value> {
    if body.Returns? then [] else [body.error, TraceOf(body.error)]
  }

  /** No stack trace is taken for a cancelled lane. */
  function TraceOf(error: Value): Value {
    if error.CancelError? then Nil else Trace
  }

  /** The error a lane ends with: that of a finalizer overrules that of the body. */
  function FinalError(body: Outcome, fs: seq<Finalizer>): Option<Value> {
    match LastFailing(fs)
    case Some(k) => Some(fs[k].outcome.error)
    case None => if body.Raises? then Some(body.error) else None
  }

  function StatusOf(error: Option<Value>): Status {
    match error
    case None => Done
    case Some(e) => if e.CancelError? then Cancelled else ErrorSt
  }

  /** DONE exactly if the body and every finalizer succeed. */
  lemma DoneIffAllSucceed(body: Outcome, fs: seq<Finalizer>)
    ensures StatusOf(FinalError(body, fs)).Done? <==> body.Returns? && forall f | f in fs :: f.outcome.Returns?
  {
  }

  /** The documented arguments arrive exactly when there are none. */
  lemma ArgsAsDocumented(body: Outcome)
    ensures ArgsPassed(body) == ArgsDocumented(body) <==> body.Returns?
  {
  }

  /** A finalizer is called if and only if all those registered after it succeed, and once. */
  lemma CalledIffLaterSucceed(fs: seq<Finalizer>, args: seq<Value>, k: nat)
    requires k < |fs|
    ensures |fs| - 1 - k < |CallsMade(fs, args)| <==> forall j | k < j < |fs| :: fs[j].outcome.Returns?
    ensures |fs| - 1 - k < |CallsMade(fs, args)| ==> CallsMade(fs, args)[|fs| - 1 - k] == Call(fs[k].id, args)
  {
  }

  lemma NoCalls(args: seq<Value>)
    ensures CallsMade([], args) == []
  {
  }

  lemma NoCallsYet(fs: seq<Finalizer>, args: seq<Value>)
    ensures CallsDownTo(fs, |fs|, args) == []
  {
  }

  lemma OneMoreCall(fs: seq<Finalizer>, n: nat, args: seq<Value>)
    requires n < |fs|
    ensures CallsDownTo(fs, n, args) == CallsDownTo(fs, n + 1, args) + [Call(fs[n].id, args)]
  {
  }

  // ----- what the code does -----

  class LaneState {
    var stack: seq<Value>
    var finalizers: Option<seq<Finalizer>>
    var calls: seq<Call>

    constructor ()
      ensures stack == [] && finalizers == None && calls == []
    {
      stack, finalizers, calls := [], None, [];
    }

    function Registered(): seq<Finalizer>
      reads this
    {
      if finalizers.Some? then finalizers.value else []
    }

    /** set_finalizer */
    method SetFinalizer(f: Finalizer)
      modifies this`finalizers
      ensures finalizers.Some? && Registered() == old(Registered()) + [f]
    {
      if finalizers.None? {
        finalizers := Some([]);
      }
      finalizers := Some(finalizers.value + [f]);
    }

    /** lua_pcall of a finalizer: its results are dropped, its error is pushed. */
    method PCall(f: Finalizer, args: seq<Value>) returns (failed: bool)
      modifies this`stack, this`calls
      ensures failed == f.outcome.Raises? && calls == old(calls) + [Call(f.id, args)]
      ensures stack == if failed then old(stack) + [f.outcome.error] else old(stack)
    {
      calls := calls + [Call(f.id, args)];
      failed := f.outcome.Raises?;
      if failed {
        stack := stack + [f.outcome.error];
      }
    }

    /** After an error the stack holds the error value and, above it, the stack trace. */
    method RunFinalizers(ghost body: Outcome, failed: bool) returns (failed2: bool)
      requires failed == body.Raises? && stack == if failed then [body.error, TraceOf(body.error)] else body.values
      modifies this`stack, this`calls
      ensures failed2 == LastFailing(Registered()).Some?
      ensures calls == old(calls) + CallsMade(Registered(), ArgsPassed(body))
      ensures stack == if failed2 then old(stack) + [Registered()[LastFailing(Registered()).value].outcome.error]
                       else old(stack)
    {
      hide CallsDownTo;
      failed2 := false;
      if finalizers.None? {
        NoCalls(ArgsPassed(body));
        return;
      }
      var fs := finalizers.value;
      stack := stack + [FinalizerTable];
      var tblIndex := |stack|;
      var errorIndex := if failed then tblIndex - 1 else 0;
      var n := |fs|;
      NoCallsYet(fs, ArgsPassed(body));
      while n > 0
        invariant 0 <= n <= |fs| && !failed2
        invariant stack == old(stack) + [FinalizerTable]
        invariant forall j | n <= j < |fs| :: fs[j].outcome.Returns?
        invariant calls == old(calls) + CallsDownTo(fs, n, ArgsPassed(body))
      {
        var args := [];
        if errorIndex != 0 {
          // Lua indices count from 1
          args := [stack[errorIndex - 1], stack[errorIndex]];
        }
        assert args == ArgsPassed(body);
        OneMoreCall(fs, n - 1, args);
        failed2 := PCall(fs[n - 1], args);
        if failed2 {
          break;
        }
        n := n - 1;
      }
      stack := stack[..tblIndex - 1] + stack[tblIndex..];
      assert stack == old(stack) + if failed2 then [fs[n - 1].outcome.error] else [];
    }

    /** The end of lane_main: the finalizers, then the results or the error for the master. */
    method Finish(body: Outcome) returns (st: Status)
      requires stack == []
      modifies this`stack, this`calls
      ensures calls == old(calls) + CallsMade(Registered(), ArgsPassed(body))
      ensures st == StatusOf(FinalError(body, Registered()))
      ensures stack ==
                if LastFailing(Registered()).Some? then [FinalError(body, Registered()).value, EmptyTable]
                else if body.Raises? then [body.error, TraceOf(body.error)]
                else body.values
    {
      var failed := body.Raises?;
      stack := if failed then [body.error, TraceOf(body.error)] else body.values;
      var failed2 := RunFinalizers(body, failed);
      if failed2 {
        failed := true;
        stack := [stack[|stack| - 1]] + stack[..|stack| - 1];
        stack := stack[..1];
        stack := stack + [EmptyTable];
      }
      st := if !failed then Done else if stack[0].CancelError? then Cancelled else ErrorSt;
    }
  }
}
