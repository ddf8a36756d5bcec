/** The hook registry: two ordered lists of hooks, appended to one at a
    time and dispatched to in registration order. */
module Aop {
  import opened Values

  /** What an `AOP` object holds at one moment. */
  datatype Registry = Registry(befores: seq<HookId>, afters: seq<HookId>)

  /** Every hook of `hooks`, in order, called with the same payload. */
  function Calls(hooks: seq<HookId>, payload: Payload): seq<Event> {
    seq(|hooks|, i requires 0 <= i < |hooks| => HookCalled(hooks[i], payload))
  }

  /** Every event of `Calls(hooks, payload)` is a hook call with `payload`. */
  lemma CallsCarry(hooks: seq<HookId>, payload: Payload)
    ensures forall ev :: ev in Calls(hooks, payload) ==> ev == HookCalled(ev.hook, payload)
  {
    forall ev | ev in Calls(hooks, payload)
      ensures ev == HookCalled(ev.hook, payload)
    {
      var i :| 0 <= i < |hooks| && Calls(hooks, payload)[i] == ev;
    }
  }

  /** No hook of `hooks` throws on `payload`. */
  predicate Quiet(hooks: seq<HookId>, payload: Payload, behave: HookBehaviour) {
    forall i :: 0 <= i < |hooks| ==> behave(hooks[i], payload).None?
  }

  /** The dispatch of `executeBefores` and `executeAfters` (lib/aop.js:17-23):
      the hooks run in order until one throws; its exception ends the dispatch and propagates. */
  function Dispatch(hooks: seq<HookId>, payload: Payload, behave: HookBehaviour): (r: Traced<Option<Value>>)
    ensures |r.trace| <= |hooks|
    ensures r.trace == Calls(hooks[..|r.trace|], payload)
    ensures r.outcome.None? ==> |r.trace| == |hooks|
    decreases |hooks|
  {
    if hooks == [] then Traced([], None)
    else
      var first := HookCalled(hooks[0], payload);
      match behave(hooks[0], payload)
      case Some(e) => Traced([first], Some(e))
      case None =>
        var rest := Dispatch(hooks[1..], payload, behave);
        assert hooks[..1 + |rest.trace|][1..] == hooks[1..][..|rest.trace|];
        Traced([first] + rest.trace, rest.outcome)
  }

  /** Dispatching to `a + b` with no hook throwing calls `a`'s hooks, then `b`'s. */
  lemma CallsAppend(a: seq<HookId>, b: seq<HookId>, payload: Payload)
    ensures Calls(a + b, payload) == Calls(a, payload) + Calls(b, payload)
  {
  }

  /** What registering `fn` throws, if anything: only a function passes
      (lib/aop.js:6, 12). */
  function CheckFunction(fn: Value): Option<Value> {
    if fn.Fn? then None else Some(MatchError)
  }

  /** A hook list after registering `fn`: appended when it is a function,
      unchanged when registration threw. */
  function Registered(hooks: seq<HookId>, fn: Value): seq<HookId> {
    if fn.Fn? then hooks + [fn.id] else hooks
  }

  /** One dispatch followed by another, the second skipped if the first threw. */
  function Then(first: Traced<Option<Value>>, second: Traced<Option<Value>>): Traced<Option<Value>> {
    if first.outcome.Some? then first else Traced(first.trace + second.trace, second.outcome)
  }

  /** Dispatching to `a` and then to `b` is dispatching to `a + b`. This is
      what makes global-then-instance dispatch one ordered dispatch. */
  lemma {:induction false} DispatchAppend(a: seq<HookId>, b: seq<HookId>, payload: Payload, behave: HookBehaviour)
    ensures Dispatch(a + b, payload, behave) == Then(Dispatch(a, payload, behave), Dispatch(b, payload, behave))
    decreases |a|
  {
    if a == [] {
      assert a + b == b;
    } else {
      assert (a + b)[0] == a[0];
      assert (a + b)[1..] == a[1..] + b;
      if behave(a[0], payload).None? {
        DispatchAppend(a[1..], b, payload, behave);
        var first := HookCalled(a[0], payload);
        var ra, rb := Dispatch(a[1..], payload, behave), Dispatch(b, payload, behave);
        if ra.outcome.None? {
          assert [first] + (ra.trace + rb.trace) == ([first] + ra.trace) + rb.trace;
        }
      }
    }
  }

  /** A dispatch completes normally exactly when no hook throws, and then it
      has called every hook once, in registration order, with the same payload. */
  lemma {:induction false} DispatchQuiet(hooks: seq<HookId>, payload: Payload, behave: HookBehaviour)
    ensures Dispatch(hooks, payload, behave).outcome.None? <==> Quiet(hooks, payload, behave)
    ensures Quiet(hooks, payload, behave) ==> Dispatch(hooks, payload, behave) == Traced(Calls(hooks, payload), None)
    decreases |hooks|
  {
    if hooks != [] {
      DispatchQuiet(hooks[1..], payload, behave);
      if behave(hooks[0], payload).None? {
        assert Quiet(hooks, payload, behave) <==> Quiet(hooks[1..], payload, behave) by {
          if Quiet(hooks[1..], payload, behave) {
            forall i | 0 <= i < |hooks| ensures behave(hooks[i], payload).None? {
              if i > 0 { assert hooks[i] == hooks[1..][i - 1]; }
            }
          }
        }
      }
    }
    var r := Dispatch(hooks, payload, behave);
    if r.outcome.None? {
      assert hooks[..|r.trace|] == hooks;
    }
  }

  /** The first hook that throws is the last one called: the hooks after it
      do not run, and its exception is the one that propagates. */
  lemma DispatchStops(hooks: seq<HookId>, payload: Payload, behave: HookBehaviour, k: nat)
    requires k < |hooks|
    requires Quiet(hooks[..k], payload, behave)
    requires behave(hooks[k], payload).Some?
    ensures Dispatch(hooks, payload, behave) == Traced(Calls(hooks[..k + 1], payload), behave(hooks[k], payload))
  {
    var prefix, rest := hooks[..k], hooks[k + 1..];
    assert hooks == prefix + ([hooks[k]] + rest);
    DispatchAppend(prefix, [hooks[k]] + rest, payload, behave);
    DispatchQuiet(prefix, payload, behave);
    assert Calls(prefix, payload) + [HookCalled(hooks[k], payload)] == Calls(hooks[..k + 1], payload);
  }

  /** Some hook throws, so there is a first one, `k`: the dispatch calls the
      hooks up to and including it and ends with its exception. */
  lemma {:induction false} FirstThrow(hooks: seq<HookId>, payload: Payload, behave: HookBehaviour) returns (k: nat)
    requires !Quiet(hooks, payload, behave)
    ensures k < |hooks| && Quiet(hooks[..k], payload, behave) && behave(hooks[k], payload).Some?
    ensures Dispatch(hooks, payload, behave) == Traced(Calls(hooks[..k + 1], payload), behave(hooks[k], payload))
    decreases |hooks|
  {
    if behave(hooks[0], payload).Some? {
      k := 0;
    } else {
      assert !Quiet(hooks[1..], payload, behave) by {
        var i :| 0 <= i < |hooks| && behave(hooks[i], payload).Some?;
        assert hooks[1..][i - 1] == hooks[i];
      }
      var j := FirstThrow(hooks[1..], payload, behave);
      k := j + 1;
      forall i | 0 <= i < k ensures behave(hooks[..k][i], payload).None? {
        if i > 0 { assert hooks[..k][i] == hooks[1..][..j][i - 1]; }
      }
      assert hooks[k] == hooks[1..][j];
    }
    DispatchStops(hooks, payload, behave, k);
  }

  /** The registry of lib/aop.js. */
  class AOP {
    var befores: seq<HookId>
    var afters: seq<HookId>

    function State(): Registry
      reads this
    {
      Registry(befores, afters)
    }

    constructor ()
      ensures befores == [] && afters == []
    {
      befores := [];
      afters := [];
    }

    /** `addBefore` (lib/aop.js:5-9): a function is appended to the
        before-list; anything else is refused with `Match.Error`. */
    method AddBefore(fn: Value) returns (thrown: Option<Value>)
      modifies this
      ensures thrown == CheckFunction(fn)
      ensures befores == Registered(old(befores), fn)
      ensures afters == old(afters)
    {
      if !fn.Fn? {
        return Some(MatchError);
      }
      befores := befores + [fn.id];
      thrown := None;
    }

    /** `addAfter` (lib/aop.js:11-15): the same for the after-list. */
    method AddAfter(fn: Value) returns (thrown: Option<Value>)
      modifies this
      ensures thrown == CheckFunction(fn)
      ensures afters == Registered(old(afters), fn)
      ensures befores == old(befores)
    {
      if !fn.Fn? {
        return Some(MatchError);
      }
      afters := afters + [fn.id];
      thrown := None;
    }

    method ExecuteBefores(payload: Payload, behave: HookBehaviour) returns (r: Traced<Option<Value>>)
      ensures r == Dispatch(befores, payload, behave)
    {
      r := CallEach(befores, payload, behave);
    }

    method ExecuteAfters(payload: Payload, behave: HookBehaviour) returns (r: Traced<Option<Value>>)
      ensures r == Dispatch(afters, payload, behave)
    {
      r := CallEach(afters, payload, behave);
    }
  }

  /** One more hook called after a prefix of hooks that all returned. */
  lemma DispatchStep(hooks: seq<HookId>, payload: Payload, behave: HookBehaviour, i: nat)
    requires i < |hooks|
    requires Dispatch(hooks[..i], payload, behave).outcome.None?
    ensures Dispatch(hooks[..i + 1], payload, behave)
            == Traced(Dispatch(hooks[..i], payload, behave).trace + [HookCalled(hooks[i], payload)],
                      behave(hooks[i], payload))
  {
    DispatchAppend(hooks[..i], [hooks[i]], payload, behave);
    assert hooks[..i] + [hooks[i]] == hooks[..i + 1];
  }

  /** Once a prefix of the hooks has thrown, the rest make no difference. */
  lemma DispatchPrefixThrew(hooks: seq<HookId>, payload: Payload, behave: HookBehaviour, i: nat)
    requires i <= |hooks|
    requires Dispatch(hooks[..i], payload, behave).outcome.Some?
    ensures Dispatch(hooks, payload, behave) == Dispatch(hooks[..i], payload, behave)
  {
    DispatchAppend(hooks[..i], hooks[i..], payload, behave);
    assert hooks[..i] + hooks[i..] == hooks;
  }

  /** The `forEach` loop of `executeBefores` and `executeAfters`: each hook
      in turn, an exception ending the loop. */
  method CallEach(hooks: seq<HookId>, payload: Payload, behave: HookBehaviour) returns (r: Traced<Option<Value>>)
    ensures r == Dispatch(hooks, payload, behave)
  {
    var trace := [];
    var i := 0;
    while i < |hooks|
      invariant 0 <= i <= |hooks|
      invariant Dispatch(hooks[..i], payload, behave) == Traced(trace, None)
    {
      var thrown := behave(hooks[i], payload);
      DispatchStep(hooks, payload, behave, i);
      trace := trace + [HookCalled(hooks[i], payload)];
      if thrown.Some? {
        DispatchPrefixThrew(hooks, payload, behave, i + 1);
        return Traced(trace, thrown);
      }
      i := i + 1;
    }
    assert hooks[..i] == hooks;
    r := Traced(trace, None);
  }

  /** The scenario of __tests__/aop.test.js: two hooks added with
      `addBefore` to a new registry are both called, in the order added, by
      `executeBefores`. */
  method DispatchesEveryBefore(payload: Payload) returns (r: Traced<Option<Value>>)
    ensures r == Traced([HookCalled(1, payload), HookCalled(2, payload)], None)
  {
    var aop := new AOP();
    var t1 := aop.AddBefore(Fn(1));
    var t2 := aop.AddBefore(Fn(2));
    r := aop.ExecuteBefores(payload, (h, p) => None);
    DispatchQuiet([1, 2], payload, (h, p) => None);
  }
}
