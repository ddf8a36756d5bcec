/** `mutate` of lib/mutate.js: the older caller side, over the one global
    `mutateAOP` registry. Its after-hooks are given the config's `params`
    pattern, not the params of the call. */
module Mutate {
  import opened Values
  import opened Aop

  /** What `mutate(config, callParams = {})` does, given the transport's reply. */
  function MutateCall(registry: Registry, arg: ConfigArg, callParams: Value, reply: Outcome,
                      behave: HookBehaviour): Traced<Settlement>
  {
    match CheckMutatorConfig(arg)
    case Err(e) => Traced([], Raised(e))
    case Ok(config) =>
      var params := OrEmpty(callParams);
      var b := Dispatch(registry.befores, Before(None, config, params), behave);
      if b.outcome.Some? then Traced(b.trace, Raised(b.outcome.value))
      else
        var sent := b.trace + [TransportCalled(config.name, params, Undefined)];
        var a := Dispatch(registry.afters, After(None, config, config.params, reply.result, reply.error), behave);
        if a.outcome.Some? then Traced(sent + a.trace, Unsettled(a.outcome.value))
        else Traced(sent + a.trace, Settle(reply))
  }

  method Mutate(mutateAOP: AOP, arg: ConfigArg, callParams: Value, reply: Outcome, behave: HookBehaviour)
    returns (r: Traced<Settlement>)
    ensures r == MutateCall(mutateAOP.State(), arg, callParams, reply, behave)
  {
    var checked := CheckMutatorConfig(arg);
    if checked.Err? {
      return Traced([], Raised(checked.error));
    }
    var config := checked.value;
    var params := OrEmpty(callParams);
    var b := mutateAOP.ExecuteBefores(Before(None, config, params), behave);
    if b.outcome.Some? {
      return Traced(b.trace, Raised(b.outcome.value));
    }
    var trace := b.trace + [TransportCalled(config.name, params, Undefined)];
    var a := mutateAOP.ExecuteAfters(After(None, config, config.params, reply.result, reply.error), behave);
    if a.outcome.Some? {
      return Traced(trace + a.trace, Unsettled(a.outcome.value));
    }
    r := Traced(trace + a.trace, Settle(reply));
  }

  /** A config that does not match the pattern makes `mutate` throw before
      any hook runs and before the transport is called. */
  lemma ConfigRejectedFirst(registry: Registry, arg: ConfigArg, callParams: Value, reply: Outcome, behave: HookBehaviour)
    requires !(arg.ConfigObject? && MatchesMutatorPattern(arg.config))
    ensures MutateCall(registry, arg, callParams, reply, behave) == Traced([], Raised(MatchError))
  {
  }

  /** `mutate` with no hook throwing: every before-hook once with the call's
      params, then the transport with those params, then every after-hook
      once, on success and failure alike; then the promise rejects with a
      truthy error and otherwise resolves with the result. */
  lemma MutateOrder(registry: Registry, config: Config, callParams: Value, reply: Outcome, behave: HookBehaviour)
    requires MatchesMutatorPattern(config)
    requires Quiet(registry.befores, Before(None, config, OrEmpty(callParams)), behave)
    requires Quiet(registry.afters, After(None, config, config.params, reply.result, reply.error), behave)
    ensures MutateCall(registry, ConfigObject(config), callParams, reply, behave)
            == Traced(Calls(registry.befores, Before(None, config, OrEmpty(callParams)))
                      + [TransportCalled(config.name, OrEmpty(callParams), Undefined)]
                      + Calls(registry.afters, After(None, config, config.params, reply.result, reply.error)),
                      if Truthy(reply.error) then Rejected(reply.error) else Resolved(reply.result))
  {
    DispatchQuiet(registry.befores, Before(None, config, OrEmpty(callParams)), behave);
    DispatchQuiet(registry.afters, After(None, config, config.params, reply.result, reply.error), behave);
  }

  /** A before-hook that throws makes `mutate` itself throw its exception: the
      hooks after it do not run and the transport is never called. */
  lemma BeforeHookThrowStopsMutate(registry: Registry, config: Config, callParams: Value, reply: Outcome,
                                   behave: HookBehaviour)
    requires MatchesMutatorPattern(config)
    requires !Quiet(registry.befores, Before(None, config, OrEmpty(callParams)), behave)
    ensures var r := MutateCall(registry, ConfigObject(config), callParams, reply, behave);
            var before := Before(None, config, OrEmpty(callParams));
            && (exists k :: 0 <= k < |registry.befores| && Quiet(registry.befores[..k], before, behave)
                   && behave(registry.befores[k], before).Some?
                   && r == Traced(Calls(registry.befores[..k + 1], before), Raised(behave(registry.befores[k], before).value)))
            && forall ev :: ev in r.trace ==> !ev.TransportCalled?
  {
    var before := Before(None, config, OrEmpty(callParams));
    var k := FirstThrow(registry.befores, before, behave);
    CallsCarry(registry.befores[..k + 1], before);
  }

  /** An after-hook that throws escapes the transport callback: the call went
      out, the after-hooks ran up to the throwing one, and the promise is
      neither resolved nor rejected. */
  lemma AfterHookThrowLeavesMutateUnsettled(registry: Registry, config: Config, callParams: Value, reply: Outcome,
                                            behave: HookBehaviour)
    requires MatchesMutatorPattern(config)
    requires Quiet(registry.befores, Before(None, config, OrEmpty(callParams)), behave)
    requires !Quiet(registry.afters, After(None, config, config.params, reply.result, reply.error), behave)
    ensures var r := MutateCall(registry, ConfigObject(config), callParams, reply, behave);
            var before := Before(None, config, OrEmpty(callParams));
            var after := After(None, config, config.params, reply.result, reply.error);
            exists k :: 0 <= k < |registry.afters| && Quiet(registry.afters[..k], after, behave)
              && behave(registry.afters[k], after).Some?
              && r == Traced(Calls(registry.befores, before) + [TransportCalled(config.name, OrEmpty(callParams), Undefined)]
                               + Calls(registry.afters[..k + 1], after),
                             Unsettled(behave(registry.afters[k], after).value))
  {
    DispatchQuiet(registry.befores, Before(None, config, OrEmpty(callParams)), behave);
    var k := FirstThrow(registry.afters, After(None, config, config.params, reply.result, reply.error), behave);
  }

  /** The after-hooks are told the config's `params` pattern, while the
      before-hooks and the transport get the params of the call; the two
      differ whenever the call's params are not the pattern itself. */
  lemma AfterHooksSeeConfigParams(registry: Registry, config: Config, callParams: Value, reply: Outcome,
                                  behave: HookBehaviour)
    requires MatchesMutatorPattern(config)
    requires Quiet(registry.befores, Before(None, config, OrEmpty(callParams)), behave)
    requires Quiet(registry.afters, After(None, config, config.params, reply.result, reply.error), behave)
    ensures var r := MutateCall(registry, ConfigObject(config), callParams, reply, behave);
            && TransportCalled(config.name, OrEmpty(callParams), Undefined) in r.trace
            && forall ev :: ev in r.trace && ev.HookCalled? ==>
                 ev.payload.params == (if ev.payload.Before? then OrEmpty(callParams) else config.params)
  {
    MutateOrder(registry, config, callParams, reply, behave);
    var before := Before(None, config, OrEmpty(callParams));
    var after := After(None, config, config.params, reply.result, reply.error);
    CallsCarry(registry.befores, before);
    CallsCarry(registry.afters, after);
    assert (Calls(registry.befores, before) + [TransportCalled(config.name, OrEmpty(callParams), Undefined)])[|registry.befores|]
           == TransportCalled(config.name, OrEmpty(callParams), Undefined);
  }

  /** A concrete case: `mutate({name: "post"}, {title})` tells the after-hooks
      `params: undefined` although the transport was called with `{title}`. */
  lemma AfterHooksMissTheCallParams(title: nat)
    ensures var config := Config(Str("post"), Undefined, Undefined, false);
            var reply := Outcome(Undefined, Str("ok"));
            MutateCall(Registry([], [7]), ConfigObject(config), Obj(title), reply, (h, p) => None)
            == Traced([TransportCalled(Str("post"), Obj(title), Undefined),
                       HookCalled(7, After(None, config, Undefined, Str("ok"), Undefined))],
                      Resolved(Str("ok")))
  {
    var config := Config(Str("post"), Undefined, Undefined, false);
    MutateOrder(Registry([], [7]), config, Obj(title), Outcome(Undefined, Str("ok")), (h, p) => None);
  }
}
