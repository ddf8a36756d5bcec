/** Caller side and callee side together: the transport carries the
    handler's outcome back to the caller's callback. Where the transport is
    spelled out here, it passes the handler's result, or the value it threw,
    through unchanged as the callback's `(error, result)`, which is `Capture`. */
module RoundTrip {
  import opened Values
  import opened Aop
  import MutationClass
  import Mutators
  import Mutate

  /** With no call hook throwing, `run` resolves with what the handler
      returned and rejects with the error the transport reported when the
      handler threw. */
  lemma RunSeesHandlerOutcome(callGlobal: Registry, callLocal: Registry, execGlobal: Registry, execLocal: Registry,
                              config: Config, callParams: Value, options: Value, context: Context,
                              body: Body, env: Env, reply: Outcome)
    requires var c := MutationClass.ExecutionProtocol(execGlobal, execLocal, config, context, OrEmpty(callParams), body, env).outcome;
             && (c.Returned? ==> reply == Outcome(Undefined, c.value))
             && (c.Threw? ==> Truthy(reply.error))
    requires Quiet(callGlobal.befores + callLocal.befores, Before(None, config, OrEmpty(callParams)), env.hook)
    requires Quiet(callGlobal.afters + callLocal.afters,
                   After(None, config, OrEmpty(callParams), reply.result, reply.error), env.hook)
    ensures var c := MutationClass.ExecutionProtocol(execGlobal, execLocal, config, context, OrEmpty(callParams), body, env).outcome;
            MutationClass.CallProtocol(callGlobal, callLocal, config, callParams, options, reply, env.hook).outcome
            == if c.Returned? then Resolved(c.value) else Rejected(reply.error)
  {
    MutationClass.RunOrder(callGlobal, callLocal, config, callParams, options, reply, env.hook);
  }

  /** The first test of __tests__/mutate.test.js, with `mutate` as the caller
      and a `createMutator` handler with no hooks: a body returning "Hello!"
      makes the call resolve with it. */
  lemma HelloResolves(context: Context, env: Env)
    requires forall h, p :: env.hook(h, p).None?
    ensures var config := Config(Str("some_mutation"), Undefined, Undefined, false);
            var body: Body := (ctx, p) => Returned(Str("Hello!"));
            var handled := Mutators.MutatorExecution(Registry([], []), config, context, EmptyObject, body, env);
            && handled.outcome == Returned(Str("Hello!"))
            && Mutate.MutateCall(Registry([], []), ConfigObject(config), Undefined, Capture(handled.outcome), env.hook).outcome
               == Resolved(Str("Hello!"))
  {
    var config := Config(Str("some_mutation"), Undefined, Undefined, false);
    var body: Body := (ctx, p) => Returned(Str("Hello!"));
    Mutators.MutatorOrder(Registry([], []), config, context, EmptyObject, body, env);
    var handled := Mutators.MutatorExecution(Registry([], []), config, context, EmptyObject, body, env);
    Mutate.MutateOrder(Registry([], []), config, Undefined, Capture(handled.outcome), env.hook);
  }

  /** The echo test: with the pattern `{title: String}` (object 1) met only by
      `{title: "DEMO"}` (object 2), a body returning the title makes the call
      with `{title: "DEMO"}` resolve with "DEMO". */
  lemma TitleEchoes(context: Context, env: Env)
    requires forall h, p :: env.hook(h, p).None?
    requires forall v, pattern :: env.matches(v, pattern) <==> v == Obj(2) && pattern == Obj(1)
    ensures var config := Config(Str("some_mutation_with_params"), Obj(1), Undefined, false);
            var body: Body := (ctx, p) => if p == Obj(2) then Returned(Str("DEMO")) else Returned(Undefined);
            var demo := Mutators.MutatorExecution(Registry([], []), config, context, Obj(2), body, env);
            && demo.outcome == Returned(Str("DEMO"))
            && Mutate.MutateCall(Registry([], []), ConfigObject(config), Obj(2), Capture(demo.outcome), env.hook).outcome
               == Resolved(Str("DEMO"))
  {
    var config := Config(Str("some_mutation_with_params"), Obj(1), Undefined, false);
    var body: Body := (ctx, p) => if p == Obj(2) then Returned(Str("DEMO")) else Returned(Undefined);
    Mutators.MutatorOrder(Registry([], []), config, context, Obj(2), body, env);
    var demo := Mutators.MutatorExecution(Registry([], []), config, context, Obj(2), body, env);
    Mutate.MutateOrder(Registry([], []), config, Obj(2), Capture(demo.outcome), env.hook);
  }

  /** The same mutation called without params: `{}` fails the `{title: String}`
      check, so the handler throws before the body and the call rejects. */
  lemma MissingTitleRejects(context: Context, env: Env)
    requires forall h, p :: env.hook(h, p).None?
    requires forall v, pattern :: env.matches(v, pattern) <==> v == Obj(2) && pattern == Obj(1)
    ensures var config := Config(Str("some_mutation_with_params"), Obj(1), Undefined, false);
            var body: Body := (ctx, p) => if p == Obj(2) then Returned(Str("DEMO")) else Returned(Undefined);
            var empty := Mutators.MutatorExecution(Registry([], []), config, context, EmptyObject, body, env);
            && empty == Traced([ParamsChecked(EmptyObject, Obj(1))], Threw(MatchError))
            && Mutate.MutateCall(Registry([], []), ConfigObject(config), Undefined, Capture(empty.outcome), env.hook).outcome
               == Rejected(MatchError)
  {
    var config := Config(Str("some_mutation_with_params"), Obj(1), Undefined, false);
    var body: Body := (ctx, p) => if p == Obj(2) then Returned(Str("DEMO")) else Returned(Undefined);
    Mutators.CheckFailsAfterBeforeHooks(Registry([], []), config, context, EmptyObject, body, env);
    var empty := Mutators.MutatorExecution(Registry([], []), config, context, EmptyObject, body, env);
    Mutate.MutateOrder(Registry([], []), config, Undefined, Capture(empty.outcome), env.hook);
  }

  /** The exception test: a body throwing "Oh no!" makes the call reject,
      after the after-hook has seen the error. */
  lemma ThrowRejects(context: Context, env: Env, watcher: HookId)
    requires forall h, p :: env.hook(h, p).None?
    ensures var config := Config(Str("some_mutation_exception"), Undefined, Undefined, false);
            var body: Body := (ctx, p) => Threw(Str("Oh no!"));
            var handled := Mutators.MutatorExecution(Registry([], [watcher]), config, context, Obj(3), body, env);
            && handled.trace == [BodyCalled(context, Obj(3)),
                                 HookCalled(watcher, After(Some(context), config, Obj(3), Undefined, Str("Oh no!")))]
            && handled.outcome == Threw(Str("Oh no!"))
            && Mutate.MutateCall(Registry([], []), ConfigObject(config), Obj(3), Capture(handled.outcome), env.hook).outcome
               == Rejected(Str("Oh no!"))
  {
    var config := Config(Str("some_mutation_exception"), Undefined, Undefined, false);
    var body: Body := (ctx, p) => Threw(Str("Oh no!"));
    Mutators.MutatorOrder(Registry([], [watcher]), config, context, Obj(3), body, env);
    var handled := Mutators.MutatorExecution(Registry([], [watcher]), config, context, Obj(3), body, env);
    Mutate.MutateOrder(Registry([], []), config, Obj(3), Capture(handled.outcome), env.hook);
  }
}
