/** The `Mutation` class of lib/mutation.class.js: a validated config, hook
    registries shared by every mutation (the class's static ones) and owned
    by one mutation (the instance's), the caller-side `run` and the
    callee-side handler that `setHandler` registers. */
module MutationClass {
  import opened Values
  import opened Aop

  const NameMissing := "You must provide a \"name\" property to your mutation config."

  function ValidateNotFunction(name: string): string {
    "\"validate\" can only be a function in mutation '" + name + "'"
  }

  /** What `checkDefaultConfig` lets through: only `typeof` is looked at,
      so an empty name passes. */
  predicate Accepted(c: Config) {
    c.name.Str? && (Truthy(c.validate) ==> c.validate.Fn?)
  }

  /** `Mutation.checkDefaultConfig(config)`; an `Err` is the value it throws. */
  function CheckDefaultConfig(arg: ConfigArg): (r: Result<Config, Value>)
    ensures r.Ok? <==> arg.ConfigObject? && Accepted(arg.config)
    ensures r.Ok? ==> r.value == arg.config
    ensures arg.NotAnObject? ==> r == Err(MatchError)
    ensures arg.ConfigObject? && !arg.config.name.Str? ==> r == Err(MeteorError("invalid-config", NameMissing))
    ensures arg.ConfigObject? && arg.config.name.Str? && r.Err? ==>
              r == Err(MeteorError("invalid-config", ValidateNotFunction(arg.config.name.s)))
  {
    match arg
    case NotAnObject(_) => Err(MatchError)
    case ConfigObject(c) =>
      if !c.name.Str? then Err(MeteorError("invalid-config", NameMissing))
      else if Truthy(c.validate) && !c.validate.Fn? then Err(MeteorError("invalid-config", ValidateNotFunction(c.name.s)))
      else Ok(c)
  }

  /** The validation step of the handler: a custom `validate` wins over the
      `params` shape, and with neither nothing is checked. */
  function ValidateParams(config: Config, params: Value, env: Env): (r: Traced<Option<Value>>)
    ensures |r.trace| <= 1
    ensures forall ev :: ev in r.trace ==> ev.ValidateCalled? || ev.ParamsChecked?
    ensures Truthy(config.validate) ==> forall ev :: ev in r.trace ==> !ev.ParamsChecked?
    ensures config.validate.Fn? ==>
              r == Traced([ValidateCalled(config.validate.id, params)], env.validate(config.validate.id, params))
    ensures !Truthy(config.validate) && Truthy(config.params) ==> r == CheckParams(params, config.params, env)
    ensures !Truthy(config.validate) && !Truthy(config.params) ==> r == Traced([], None)
  {
    if Truthy(config.validate) then
      if config.validate.Fn? then
        Traced([ValidateCalled(config.validate.id, params)], env.validate(config.validate.id, params))
      else
        Traced([], Some(TypeError))
    else if Truthy(config.params) then
      CheckParams(params, config.params, env)
    else
      Traced([], None)
  }

  /** What `run(callParams, options)` does, given the class's and the
      instance's call registries and the transport's reply. */
  function CallProtocol(global: Registry, local: Registry, config: Config, callParams: Value, options: Value,
                        reply: Outcome, behave: HookBehaviour): Traced<Settlement>
  {
    var params := OrEmpty(callParams);
    var b := Dispatch(global.befores + local.befores, Before(None, config, params), behave);
    if b.outcome.Some? then Traced(b.trace, Raised(b.outcome.value))
    else
      var sent := b.trace + [TransportCalled(config.name, params, OrEmpty(options))];
      var a := Dispatch(global.afters + local.afters, After(None, config, params, reply.result, reply.error), behave);
      if a.outcome.Some? then Traced(sent + a.trace, Unsettled(a.outcome.value))
      else Traced(sent + a.trace, Settle(reply))
  }

  /** What the handler registered by `setHandler(body)` does when the
      transport calls it with `rawParams`. */
  function ExecutionProtocol(global: Registry, local: Registry, config: Config, context: Context, rawParams: Value,
                             body: Body, env: Env): Traced<Completion>
  {
    var params := OrEmpty(rawParams);
    var v := ValidateParams(config, params, env);
    if v.outcome.Some? then Traced(v.trace, Threw(v.outcome.value))
    else
      var b := Dispatch(global.befores + local.befores, Before(Some(context), config, params), env.hook);
      if b.outcome.Some? then Traced(v.trace + b.trace, Threw(b.outcome.value))
      else
        var captured := Capture(body(context, params));
        var ran := v.trace + b.trace + [BodyCalled(context, params)];
        var a := Dispatch(global.afters + local.afters,
                          After(Some(context), config, params, captured.result, captured.error), env.hook);
        if a.outcome.Some? then Traced(ran + a.trace, Threw(a.outcome.value))
        else Traced(ran + a.trace, Rethrow(captured))
  }

  /** `run` with no hook throwing: the class's before-call hooks, then the
      instance's, then the transport with the call's params and options,
      then the class's after-call hooks, then the instance's, each once and
      in registration order; then the promise rejects with a truthy error
      and otherwise resolves with the result, on success and failure alike. */
  lemma RunOrder(global: Registry, local: Registry, config: Config, callParams: Value, options: Value,
                 reply: Outcome, behave: HookBehaviour)
    requires Quiet(global.befores + local.befores, Before(None, config, OrEmpty(callParams)), behave)
    requires Quiet(global.afters + local.afters, After(None, config, OrEmpty(callParams), reply.result, reply.error), behave)
    ensures var params := OrEmpty(callParams);
            var before := Before(None, config, params);
            var after := After(None, config, params, reply.result, reply.error);
            CallProtocol(global, local, config, callParams, options, reply, behave)
            == Traced(Calls(global.befores, before) + Calls(local.befores, before)
                      + [TransportCalled(config.name, params, OrEmpty(options))]
                      + Calls(global.afters, after) + Calls(local.afters, after),
                      if Truthy(reply.error) then Rejected(reply.error) else Resolved(reply.result))
  {
    var params := OrEmpty(callParams);
    var before := Before(None, config, params);
    var after := After(None, config, params, reply.result, reply.error);
    DispatchQuiet(global.befores + local.befores, before, behave);
    DispatchQuiet(global.afters + local.afters, after, behave);
    CallsAppend(global.befores, local.befores, before);
    CallsAppend(global.afters, local.afters, after);
  }

  /** A before-call hook that throws makes `run` itself throw: the transport
      is never called and no after-call hook runs. */
  lemma BeforeCallThrowAborts(global: Registry, local: Registry, config: Config, callParams: Value, options: Value,
                              reply: Outcome, behave: HookBehaviour)
    requires !Quiet(global.befores + local.befores, Before(None, config, OrEmpty(callParams)), behave)
    ensures var r := CallProtocol(global, local, config, callParams, options, reply, behave);
            && var hooks := global.befores + local.befores;
               var before := Before(None, config, OrEmpty(callParams));
               && (exists k :: 0 <= k < |hooks| && Quiet(hooks[..k], before, behave) && behave(hooks[k], before).Some?
                      && r == Traced(Calls(hooks[..k + 1], before), Raised(behave(hooks[k], before).value)))
               && forall ev :: ev in r.trace ==> ev.HookCalled? && ev.payload == before
  {
    var hooks := global.befores + local.befores;
    var before := Before(None, config, OrEmpty(callParams));
    var k := FirstThrow(hooks, before, behave);
    CallsCarry(hooks[..k + 1], before);
  }

  /** An after-call hook that throws escapes the transport callback: the call
      went out, but the promise is neither resolved nor rejected. */
  lemma AfterCallThrowLeavesUnsettled(global: Registry, local: Registry, config: Config, callParams: Value, options: Value,
                                      reply: Outcome, behave: HookBehaviour)
    requires Quiet(global.befores + local.befores, Before(None, config, OrEmpty(callParams)), behave)
    requires !Quiet(global.afters + local.afters, After(None, config, OrEmpty(callParams), reply.result, reply.error), behave)
    ensures var r := CallProtocol(global, local, config, callParams, options, reply, behave);
            && r.outcome.Unsettled?
            && TransportCalled(config.name, OrEmpty(callParams), OrEmpty(options)) in r.trace
  {
    var params := OrEmpty(callParams);
    DispatchQuiet(global.befores + local.befores, Before(None, config, params), behave);
    DispatchQuiet(global.afters + local.afters, After(None, config, params, reply.result, reply.error), behave);
    var b := Dispatch(global.befores + local.befores, Before(None, config, params), behave);
    var a := Dispatch(global.afters + local.afters, After(None, config, params, reply.result, reply.error), behave);
    assert (b.trace + [TransportCalled(config.name, params, OrEmpty(options))] + a.trace)[|b.trace|]
           == TransportCalled(config.name, params, OrEmpty(options));
  }

  /** Once validation has passed, a before-execution hook that throws ends the
      handler with its exception: the hooks after it, the body and the
      after-hooks never run. */
  lemma BeforeExecutionThrowSkipsBody(global: Registry, local: Registry, config: Config, context: Context,
                                      rawParams: Value, body: Body, env: Env)
    requires ValidateParams(config, OrEmpty(rawParams), env).outcome.None?
    requires !Quiet(global.befores + local.befores, Before(Some(context), config, OrEmpty(rawParams)), env.hook)
    ensures var r := ExecutionProtocol(global, local, config, context, rawParams, body, env);
            var hooks := global.befores + local.befores;
            var before := Before(Some(context), config, OrEmpty(rawParams));
            var v := ValidateParams(config, OrEmpty(rawParams), env);
            && (exists k :: 0 <= k < |hooks| && Quiet(hooks[..k], before, env.hook) && env.hook(hooks[k], before).Some?
                   && r == Traced(v.trace + Calls(hooks[..k + 1], before), Threw(env.hook(hooks[k], before).value)))
            && forall ev :: ev in r.trace ==> !ev.BodyCalled?
  {
    var hooks := global.befores + local.befores;
    var before := Before(Some(context), config, OrEmpty(rawParams));
    var k := FirstThrow(hooks, before, env.hook);
    CallsCarry(hooks[..k + 1], before);
  }

  /** An after-execution hook that throws overrides the body: the body ran,
      but the handler throws the hook's exception, whatever the body returned
      or threw. */
  lemma AfterExecutionThrowOverridesBody(global: Registry, local: Registry, config: Config, context: Context,
                                         rawParams: Value, body: Body, env: Env)
    requires ValidateParams(config, OrEmpty(rawParams), env).outcome.None?
    requires Quiet(global.befores + local.befores, Before(Some(context), config, OrEmpty(rawParams)), env.hook)
    requires var captured := Capture(body(context, OrEmpty(rawParams)));
             !Quiet(global.afters + local.afters,
                    After(Some(context), config, OrEmpty(rawParams), captured.result, captured.error), env.hook)
    ensures var r := ExecutionProtocol(global, local, config, context, rawParams, body, env);
            var params := OrEmpty(rawParams);
            var captured := Capture(body(context, params));
            var hooks := global.afters + local.afters;
            var after := After(Some(context), config, params, captured.result, captured.error);
            && BodyCalled(context, params) in r.trace
            && exists k :: 0 <= k < |hooks| && Quiet(hooks[..k], after, env.hook) && env.hook(hooks[k], after).Some?
                 && r.outcome == Threw(env.hook(hooks[k], after).value)
  {
    var params := OrEmpty(rawParams);
    var captured := Capture(body(context, params));
    var before := Before(Some(context), config, params);
    var after := After(Some(context), config, params, captured.result, captured.error);
    DispatchQuiet(global.befores + local.befores, before, env.hook);
    var k := FirstThrow(global.afters + local.afters, after, env.hook);
    var v := ValidateParams(config, params, env);
    var b := Dispatch(global.befores + local.befores, before, env.hook);
    var a := Dispatch(global.afters + local.afters, after, env.hook);
    assert (v.trace + b.trace + [BodyCalled(context, params)] + a.trace)[|v.trace + b.trace|] == BodyCalled(context, params);
  }

  /** A failed validation throws before any hook or the body runs. */
  lemma ValidationFailureRunsNothing(global: Registry, local: Registry, config: Config, context: Context,
                                     rawParams: Value, body: Body, env: Env)
    requires ValidateParams(config, OrEmpty(rawParams), env).outcome.Some?
    ensures var r := ExecutionProtocol(global, local, config, context, rawParams, body, env);
            && r.outcome == Threw(ValidateParams(config, OrEmpty(rawParams), env).outcome.value)
            && forall ev :: ev in r.trace ==> !ev.HookCalled? && !ev.BodyCalled?
  {
  }

  /** The handler with validation passing and no hook throwing: validation,
      the class's before-execution hooks, the instance's, the body, the
      class's after-execution hooks (which see the captured result and
      error), the instance's; then the captured outcome is rethrown or returned. */
  lemma ExecutionOrder(global: Registry, local: Registry, config: Config, context: Context,
                       rawParams: Value, body: Body, env: Env)
    requires ValidateParams(config, OrEmpty(rawParams), env).outcome.None?
    requires Quiet(global.befores + local.befores, Before(Some(context), config, OrEmpty(rawParams)), env.hook)
    requires var params := OrEmpty(rawParams);
             var captured := Capture(body(context, params));
             Quiet(global.afters + local.afters,
                   After(Some(context), config, params, captured.result, captured.error), env.hook)
    ensures var params := OrEmpty(rawParams);
            var captured := Capture(body(context, params));
            var before := Before(Some(context), config, params);
            var after := After(Some(context), config, params, captured.result, captured.error);
            ExecutionProtocol(global, local, config, context, rawParams, body, env)
            == Traced(ValidateParams(config, params, env).trace
                      + Calls(global.befores, before) + Calls(local.befores, before)
                      + [BodyCalled(context, params)]
                      + Calls(global.afters, after) + Calls(local.afters, after),
                      Rethrow(captured))
  {
    var params := OrEmpty(rawParams);
    var captured := Capture(body(context, params));
    var before := Before(Some(context), config, params);
    var after := After(Some(context), config, params, captured.result, captured.error);
    var v := ValidateParams(config, params, env);
    DispatchQuiet(global.befores + local.befores, before, env.hook);
    DispatchQuiet(global.afters + local.afters, after, env.hook);
    var b := Dispatch(global.befores + local.befores, before, env.hook);
    var a := Dispatch(global.afters + local.afters, after, env.hook);
    assert ExecutionProtocol(global, local, config, context, rawParams, body, env)
           == Traced(v.trace + b.trace + [BodyCalled(context, params)] + a.trace, Rethrow(captured));
    CallsAppend(global.befores, local.befores, before);
    CallsAppend(global.afters, local.afters, after);
  }

  /** What the body did reaches the transport unchanged: its result is
      returned and its (truthy) exception rethrown, after the after-execution
      hooks saw it. A falsy thrown value is swallowed, as written. */
  lemma BodyOutcomeReachesTransport(global: Registry, local: Registry, config: Config, context: Context,
                                    rawParams: Value, body: Body, env: Env)
    requires ValidateParams(config, OrEmpty(rawParams), env).outcome.None?
    requires Quiet(global.befores + local.befores, Before(Some(context), config, OrEmpty(rawParams)), env.hook)
    requires var params := OrEmpty(rawParams);
             var captured := Capture(body(context, params));
             Quiet(global.afters + local.afters,
                   After(Some(context), config, params, captured.result, captured.error), env.hook)
    ensures var c := body(context, OrEmpty(rawParams));
            var r := ExecutionProtocol(global, local, config, context, rawParams, body, env);
            && (c.Returned? ==> r.outcome == c)
            && (c.Threw? && Truthy(c.error) ==> r.outcome == c)
            && (c.Threw? && !Truthy(c.error) ==> r.outcome == Returned(Undefined))
  {
    ExecutionOrder(global, local, config, context, rawParams, body, env);
    RethrowCapture(body(context, OrEmpty(rawParams)));
  }

  /** The class itself, with its two static registries. */
  class MutationStatics {
    const callAOP: AOP
    const executionAOP: AOP

    ghost predicate Valid() {
      callAOP != executionAOP
    }

    constructor ()
      ensures Valid() && fresh(callAOP) && fresh(executionAOP)
      ensures callAOP.State() == Registry([], []) && executionAOP.State() == Registry([], [])
    {
      callAOP := new AOP();
      executionAOP := new AOP();
    }

    method AddBeforeCall(fn: Value) returns (thrown: Option<Value>)
      modifies callAOP
      ensures thrown == CheckFunction(fn)
      ensures callAOP.State() == Registry(Registered(old(callAOP.befores), fn), old(callAOP.afters))
    {
      thrown := callAOP.AddBefore(fn);
    }

    method AddAfterCall(fn: Value) returns (thrown: Option<Value>)
      modifies callAOP
      ensures thrown == CheckFunction(fn)
      ensures callAOP.State() == Registry(old(callAOP.befores), Registered(old(callAOP.afters), fn))
    {
      thrown := callAOP.AddAfter(fn);
    }

    method AddBeforeExecution(fn: Value) returns (thrown: Option<Value>)
      modifies executionAOP
      ensures thrown == CheckFunction(fn)
      ensures executionAOP.State() == Registry(Registered(old(executionAOP.befores), fn), old(executionAOP.afters))
    {
      thrown := executionAOP.AddBefore(fn);
    }

    method AddAfterExecution(fn: Value) returns (thrown: Option<Value>)
      modifies executionAOP
      ensures thrown == CheckFunction(fn)
      ensures executionAOP.State() == Registry(old(executionAOP.befores), Registered(old(executionAOP.afters), fn))
    {
      thrown := executionAOP.AddAfter(fn);
    }
  }

  class Mutation {
    const statics: MutationStatics
    const config: Config
    const callAOP: AOP
    const executionAOP: AOP

    /** The config passed the check, and the instance's registries are its
        own: distinct from each other and from the class's. */
    ghost predicate Valid() {
      && statics.Valid()
      && Accepted(config)
      && callAOP != executionAOP
      && callAOP != statics.callAOP && callAOP != statics.executionAOP
      && executionAOP != statics.callAOP && executionAOP != statics.executionAOP
    }

    constructor Init(statics: MutationStatics, config: Config)
      requires statics.Valid() && Accepted(config)
      ensures Valid() && this.statics == statics && this.config == config
      ensures fresh(callAOP) && fresh(executionAOP)
      ensures callAOP.State() == Registry([], []) && executionAOP.State() == Registry([], [])
    {
      this.statics := statics;
      this.config := config;
      callAOP := new AOP();
      executionAOP := new AOP();
    }

    /** `new Mutation(config)`: throws what `checkDefaultConfig` throws,
        otherwise a mutation with fresh, empty registries of its own. */
    static method New(statics: MutationStatics, arg: ConfigArg) returns (r: Result<Mutation, Value>)
      requires statics.Valid()
      ensures CheckDefaultConfig(arg).Err? ==> r == Err(CheckDefaultConfig(arg).error)
      ensures CheckDefaultConfig(arg).Ok? ==>
                && r.Ok? && fresh(r.value) && r.value.Valid()
                && r.value.statics == statics && r.value.config == arg.config
                && fresh(r.value.callAOP) && fresh(r.value.executionAOP)
                && r.value.callAOP.State() == Registry([], [])
                && r.value.executionAOP.State() == Registry([], [])
    {
      var checked := CheckDefaultConfig(arg);
      if checked.Err? {
        return Err(checked.error);
      }
      var m := new Mutation.Init(statics, checked.value);
      r := Ok(m);
    }

    method AddBeforeCall(fn: Value) returns (thrown: Option<Value>)
      requires Valid()
      modifies callAOP
      ensures thrown == CheckFunction(fn)
      ensures callAOP.State() == Registry(Registered(old(callAOP.befores), fn), old(callAOP.afters))
      ensures unchanged(executionAOP, statics.callAOP, statics.executionAOP)
    {
      thrown := callAOP.AddBefore(fn);
    }

    method AddAfterCall(fn: Value) returns (thrown: Option<Value>)
      requires Valid()
      modifies callAOP
      ensures thrown == CheckFunction(fn)
      ensures callAOP.State() == Registry(old(callAOP.befores), Registered(old(callAOP.afters), fn))
      ensures unchanged(executionAOP, statics.callAOP, statics.executionAOP)
    {
      thrown := callAOP.AddAfter(fn);
    }

    method AddBeforeExecution(fn: Value) returns (thrown: Option<Value>)
      requires Valid()
      modifies executionAOP
      ensures thrown == CheckFunction(fn)
      ensures executionAOP.State() == Registry(Registered(old(executionAOP.befores), fn), old(executionAOP.afters))
      ensures unchanged(callAOP, statics.callAOP, statics.executionAOP)
    {
      thrown := executionAOP.AddBefore(fn);
    }

    method AddAfterExecution(fn: Value) returns (thrown: Option<Value>)
      requires Valid()
      modifies executionAOP
      ensures thrown == CheckFunction(fn)
      ensures executionAOP.State() == Registry(old(executionAOP.befores), Registered(old(executionAOP.afters), fn))
      ensures unchanged(callAOP, statics.callAOP, statics.executionAOP)
    {
      thrown := executionAOP.AddAfter(fn);
    }

    /** The caller side, `run` (lib/mutation.class.js:99-127), given the
      transport's reply. */
    method Run(callParams: Value, options: Value, reply: Outcome, behave: HookBehaviour) returns (r: Traced<Settlement>)
      ensures r == CallProtocol(statics.callAOP.State(), callAOP.State(), config, callParams, options, reply, behave)
    {
      var params := OrEmpty(callParams);
      var b := ExecuteBeforesBoth(statics.callAOP, callAOP, Before(None, config, params), behave);
      if b.outcome.Some? {
        return Traced(b.trace, Raised(b.outcome.value));
      }
      var sent := b.trace + [TransportCalled(config.name, params, OrEmpty(options))];
      var a := ExecuteAftersBoth(statics.callAOP, callAOP, After(None, config, params, reply.result, reply.error), behave);
      if a.outcome.Some? {
        return Traced(sent + a.trace, Unsettled(a.outcome.value));
      }
      r := Traced(sent + a.trace, Settle(reply));
    }

    /** The method handler that `setHandler(body)` registers under the
        config's name, called by the transport with `rawParams`. */
    method Handle(context: Context, rawParams: Value, body: Body, env: Env) returns (r: Traced<Completion>)
      ensures r == ExecutionProtocol(statics.executionAOP.State(), executionAOP.State(), config, context, rawParams, body, env)
    {
      var params := OrEmpty(rawParams);
      var v := ValidateParams(config, params, env);
      if v.outcome.Some? {
        return Traced(v.trace, Threw(v.outcome.value));
      }
      var b := ExecuteBeforesBoth(statics.executionAOP, executionAOP, Before(Some(context), config, params), env.hook);
      if b.outcome.Some? {
        return Traced(v.trace + b.trace, Threw(b.outcome.value));
      }
      var error, result := Undefined, Undefined;
      match body(context, params) {
        case Returned(value) => result := value;
        case Threw(e) => error := e;
      }
      var ran := v.trace + b.trace + [BodyCalled(context, params)];
      var a := ExecuteAftersBoth(statics.executionAOP, executionAOP, After(Some(context), config, params, result, error), env.hook);
      if a.outcome.Some? {
        return Traced(ran + a.trace, Threw(a.outcome.value));
      }
      if Truthy(error) {
        return Traced(ran + a.trace, Threw(error));
      }
      r := Traced(ran + a.trace, Returned(result));
    }
  }

  /** The class's before-hooks, then the instance's, the second list skipped
      when the first threw: one dispatch over both lists in that order. */
  method ExecuteBeforesBoth(global: AOP, local: AOP, payload: Payload, behave: HookBehaviour)
    returns (r: Traced<Option<Value>>)
    ensures r == Dispatch(global.befores + local.befores, payload, behave)
  {
    DispatchAppend(global.befores, local.befores, payload, behave);
    r := global.ExecuteBefores(payload, behave);
    if r.outcome.None? {
      var l := local.ExecuteBefores(payload, behave);
      r := Then(r, l);
    }
  }

  /** The class's after-hooks, then the instance's, likewise. */
  method ExecuteAftersBoth(global: AOP, local: AOP, payload: Payload, behave: HookBehaviour)
    returns (r: Traced<Option<Value>>)
    ensures r == Dispatch(global.afters + local.afters, payload, behave)
  {
    DispatchAppend(global.afters, local.afters, payload, behave);
    r := global.ExecuteAfters(payload, behave);
    if r.outcome.None? {
      var l := local.ExecuteAfters(payload, behave);
      r := Then(r, l);
    }
  }

  /** Registering on the class reaches every mutation's `run`, registering on
      one mutation reaches only that mutation's, and a value that is not a
      function registers nothing. Two mutations share the class's
      before-call hook 1; only the first has its own hook 2; the first also
      tries to add `null` as an after-call hook. */
  method ScopesAreSeparate(reply: Outcome) returns (first: Traced<Settlement>, second: Traced<Settlement>,
                                                     refused: Option<Value>)
    ensures var config := Config(Str("post"), Undefined, Undefined, false);
            var before := Before(None, config, EmptyObject);
            var sent := TransportCalled(Str("post"), EmptyObject, EmptyObject);
            && first == Traced([HookCalled(1, before), HookCalled(2, before), sent], Settle(reply))
            && second == Traced([HookCalled(1, before), sent], Settle(reply))
            && refused == Some(MatchError)
  {
    var config := Config(Str("post"), Undefined, Undefined, false);
    var statics := new MutationStatics();
    var created1 := Mutation.New(statics, ConfigObject(config));
    var created2 := Mutation.New(statics, ConfigObject(config));
    var m1, m2 := created1.value, created2.value;
    var t1 := statics.AddBeforeCall(Fn(1));
    var t2 := m1.AddBeforeCall(Fn(2));
    refused := m1.AddAfterCall(Null);
    assert statics.callAOP.State() == Registry([1], []);
    assert m1.callAOP.State() == Registry([2], []);
    assert m2.callAOP.State() == Registry([], []);
    var quiet: HookBehaviour := (h, p) => None;
    DispatchQuiet([1, 2], Before(None, config, EmptyObject), quiet);
    DispatchQuiet([1], Before(None, config, EmptyObject), quiet);
    first := m1.Run(Undefined, Undefined, reply, quiet);
    second := m2.Run(Undefined, Undefined, reply, quiet);
    assert first.trace == Calls([1, 2], Before(None, config, EmptyObject)) + [TransportCalled(Str("post"), EmptyObject, EmptyObject)];
  }
}
