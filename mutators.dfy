/** `createMutator` of lib/mutations.js: the older callee side, over the one
    global `mutationAOP` registry. Unlike the `Mutation` class's handler, it
    runs the before-hooks first and checks the params after them. */
module Mutators {
  import opened Values
  import opened Aop
  import MutationClass

  /** The params check of the older handler (lib/mutations.js:22-24): it runs
      only when the config has a truthy `params` pattern, and then either
      passes or throws `Match.Error`. */
  function PatternCheck(config: Config, params: Value, env: Env): (r: Traced<Option<Value>>)
    ensures |r.trace| <= 1 && forall ev :: ev in r.trace ==> ev == ParamsChecked(params, config.params)
    ensures (exists ev :: ev in r.trace && ev.ParamsChecked?) <==> Truthy(config.params)
    ensures r.outcome.Some? <==> Truthy(config.params) && !env.matches(params, config.params)
    ensures r.outcome.Some? ==> r.outcome.value == MatchError
  {
    if Truthy(config.params) then
      var c := CheckParams(params, config.params, env);
      assert c.trace[0] in c.trace;
      c
    else Traced([], None)
  }

  /** What the handler that `createMutator(config, body)` registers does when
      the transport calls it with `rawParams`. */
  function MutatorExecution(registry: Registry, config: Config, context: Context, rawParams: Value,
                            body: Body, env: Env): Traced<Completion>
  {
    var params := OrEmpty(rawParams);
    var b := Dispatch(registry.befores, Before(Some(context), config, params), env.hook);
    if b.outcome.Some? then Traced(b.trace, Threw(b.outcome.value))
    else
      var c := PatternCheck(config, params, env);
      if c.outcome.Some? then Traced(b.trace + c.trace, Threw(c.outcome.value))
      else
        var captured := Capture(body(context, params));
        var ran := b.trace + c.trace + [BodyCalled(context, params)];
        var a := Dispatch(registry.afters, After(Some(context), config, params, captured.result, captured.error), env.hook);
        if a.outcome.Some? then Traced(ran + a.trace, Threw(a.outcome.value))
        else Traced(ran + a.trace, Rethrow(captured))
  }

  /** Every config that `createMutator` or `mutate` accepts, the `Mutation`
      class accepts too, and keeps unchanged. */
  lemma MutatorConfigSuitsTheClass(arg: ConfigArg)
    ensures CheckMutatorConfig(arg).Ok? ==> MutationClass.CheckDefaultConfig(arg) == CheckMutatorConfig(arg)
  {
  }

  /** The converse does not hold: a config with a `validate` function is a
      valid `Mutation` config, but the older functions' pattern has no
      `validate` key, so they refuse it. */
  lemma ValidateOnlyInClass()
    ensures var arg := ConfigObject(Config(Str("x"), Undefined, Fn(1), false));
            && MutationClass.CheckDefaultConfig(arg) == Ok(arg.config)
            && CheckMutatorConfig(arg) == Err(MatchError)
  {
  }

  /** The handler body of lib/mutations.js. */
  method Handle(mutationAOP: AOP, config: Config, context: Context, rawParams: Value, body: Body, env: Env)
    returns (r: Traced<Completion>)
    ensures r == MutatorExecution(mutationAOP.State(), config, context, rawParams, body, env)
  {
    var params := OrEmpty(rawParams);
    var before := Before(Some(context), config, params);
    var b := mutationAOP.ExecuteBefores(before, env.hook);
    if b.outcome.Some? {
      return Traced(b.trace, Threw(b.outcome.value));
    }
    var c := PatternCheck(config, params, env);
    if c.outcome.Some? {
      return Traced(b.trace + c.trace, Threw(c.outcome.value));
    }
    var error, result := Undefined, Undefined;
    match body(context, params) {
      case Returned(value) => result := value;
      case Threw(e) => error := e;
    }
    var trace := b.trace + c.trace + [BodyCalled(context, params)];
    var a := mutationAOP.ExecuteAfters(After(Some(context), config, params, result, error), env.hook);
    if a.outcome.Some? {
      return Traced(trace + a.trace, Threw(a.outcome.value));
    }
    if Truthy(error) {
      return Traced(trace + a.trace, Threw(error));
    }
    r := Traced(trace + a.trace, Returned(result));
  }

  /** A params check that fails does so after every before-hook has run, and
      then neither the body nor any after-hook runs. */
  lemma CheckFailsAfterBeforeHooks(registry: Registry, config: Config, context: Context, rawParams: Value,
                                   body: Body, env: Env)
    requires Truthy(config.params) && !env.matches(OrEmpty(rawParams), config.params)
    requires Quiet(registry.befores, Before(Some(context), config, OrEmpty(rawParams)), env.hook)
    ensures var params := OrEmpty(rawParams);
            MutatorExecution(registry, config, context, rawParams, body, env)
            == Traced(Calls(registry.befores, Before(Some(context), config, params))
                      + [ParamsChecked(params, config.params)], Threw(MatchError))
  {
    DispatchQuiet(registry.befores, Before(Some(context), config, OrEmpty(rawParams)), env.hook);
  }

  /** With the check passing (or no `params` pattern, so no check) and no hook
      throwing: every before-hook once, the check, the body called with the
      context and the params, every after-hook once with the captured result
      and error; then the captured outcome is rethrown or returned. */
  lemma MutatorOrder(registry: Registry, config: Config, context: Context, rawParams: Value, body: Body, env: Env)
    requires Truthy(config.params) ==> env.matches(OrEmpty(rawParams), config.params)
    requires Quiet(registry.befores, Before(Some(context), config, OrEmpty(rawParams)), env.hook)
    requires var params := OrEmpty(rawParams);
             var captured := Capture(body(context, params));
             Quiet(registry.afters, After(Some(context), config, params, captured.result, captured.error), env.hook)
    ensures var params := OrEmpty(rawParams);
            var captured := Capture(body(context, params));
            MutatorExecution(registry, config, context, rawParams, body, env)
            == Traced(Calls(registry.befores, Before(Some(context), config, params))
                      + (if Truthy(config.params) then [ParamsChecked(params, config.params)] else [])
                      + [BodyCalled(context, params)]
                      + Calls(registry.afters, After(Some(context), config, params, captured.result, captured.error)),
                      Rethrow(captured))
  {
    var params := OrEmpty(rawParams);
    var captured := Capture(body(context, params));
    DispatchQuiet(registry.befores, Before(Some(context), config, params), env.hook);
    DispatchQuiet(registry.afters, After(Some(context), config, params, captured.result, captured.error), env.hook);
  }

  /** The two handlers order validation differently. For a config with a
      `params` pattern and no `validate`, and params that fail the check, the
      `Mutation` class's handler throws before any hook runs, while this
      handler has already run every before-hook. */
  lemma CheckOrderDiffers(global: Registry, local: Registry, registry: Registry, config: Config,
                          context: Context, rawParams: Value, body: Body, env: Env)
    requires !Truthy(config.validate) && Truthy(config.params)
    requires !env.matches(OrEmpty(rawParams), config.params)
    requires Quiet(registry.befores, Before(Some(context), config, OrEmpty(rawParams)), env.hook)
    ensures var checked := ParamsChecked(OrEmpty(rawParams), config.params);
            && MutationClass.ExecutionProtocol(global, local, config, context, rawParams, body, env)
               == Traced([checked], Threw(MatchError))
            && MutatorExecution(registry, config, context, rawParams, body, env)
               == Traced(Calls(registry.befores, Before(Some(context), config, OrEmpty(rawParams))) + [checked],
                         Threw(MatchError))
  {
    CheckFailsAfterBeforeHooks(registry, config, context, rawParams, body, env);
  }
}
