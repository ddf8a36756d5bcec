# A Dafny model of the `mutations` hook-dispatch engine

This project models the hook-dispatch engine of the Meteor package
`cultofcoders:mutations`. A mutation is a named remote method. Application
code registers "before" and "after" hooks that run around every call of it.
On the caller side, the hooks run around the transport call. On the callee
side, they run around the method body.

What is modelled:

- **The `AOP` registry** (`lib/aop.js`) is the class `Aop.AOP`. It has two
  ordered lists of hooks, `befores` and `afters`, which are appended to in
  place. A value that is not a function is refused with Meteor's
  `Match.Error`. Dispatch is the method `Aop.CallEach`. It is a loop proved
  against the recursive specification `Aop.Dispatch`: hooks run in
  registration order, each once, all with the same payload. The first hook
  that throws stops the dispatch, and its exception propagates.
- **The `Mutation` class** (`lib/mutation.class.js`) is modelled in
  `MutationClass`:
  - The class's static registries live in `MutationStatics`, the class
    object.
  - Each `Mutation` owns two fresh registries, distinct from the class's.
    `Mutation.New` models the constructor, including its `invalid-config`
    errors.
  - `Run` is the caller side and `Handle` is the handler that `setHandler`
    registers.
  - Each method is proved equal to a specification function
    (`CallProtocol`, `ExecutionProtocol`). The lemmas state the ordering,
    "exactly once" and error-transparency properties about those functions.
- **The older free functions.** `createMutator`'s handler
  (`lib/mutations.js`) is in `Mutators`, and `mutate` (`lib/mutate.js`) is in
  `Mutate`. Each dispatches to one global registry, passed in explicitly.
  Both are modelled as written:
  - the older handler runs the before-hooks *before* the params check;
  - `mutate` gives the after-hooks `config.params` instead of the call's
    params.

How the model represents the pieces:

- JavaScript values are `Values.Value`. `Truthy` follows JavaScript, because
  the code decides with `if (error)` and `config.validate && …`.
- Hooks, validators and bodies are functions identified by id. What they do
  is a parameter: `HookBehaviour` and `Env` for hooks and validation, `Body`
  for the method body.
- Every protocol returns a trace of `Event`s (hooks called, validation,
  transport call, body call) together with its outcome.
- The transport's reply is a parameter: the `(error, result)` pair that
  Meteor hands to the callback.

Some consequences of the code as written, which the lemmas make explicit:

- An empty string is an acceptable mutation name, because only `typeof` is
  checked.
- A handler whose body throws a falsy value (`null`, `0`, `""`, `false`)
  does not rethrow it. It returns `undefined` (`Values.RethrowCapture`).
- An after-call hook that throws inside the transport callback leaves the
  promise of `run` or `mutate` unsettled
  (`MutationClass.AfterCallThrowLeavesUnsettled`).
- A before-call hook that throws makes `run` throw synchronously, before the
  transport is called.
- The `Mutation` class's handler validates the params before its
  before-execution hooks run (lib/mutation.class.js:140-153). The older
  `createMutator` handler runs its before-hooks first and checks the params
  after them (lib/mutations.js:16-24; `Mutators.CheckOrderDiffers`).
- `run` does not check that its params are an object; only `undefined` is
  replaced by `{}` (lib/mutation.class.js:99).
- A body's error is rethrown as the same value, not wrapped in another error
  (lib/mutation.class.js:173-175).
- An after-execution hook that throws replaces the body's outcome with its
  own exception (`MutationClass.AfterExecutionThrowOverridesBody`).
- A config with a `validate` function is valid for the `Mutation` class but
  refused by `createMutator` and `mutate`, whose pattern has no `validate`
  key (`Mutators.ValidateOnlyInClass`).

## Model

| member | source | states |
|---|---|---|
| `Aop.AOP.constructor` | lib/aop.js:1-3 | a fresh registry has empty `befores` and `afters` |
| `Aop.AOP.AddBefore` | lib/aop.js:5-9 | a function is appended at the end of `befores`; a non-function throws `Match.Error` and leaves `befores` as it was; `afters` never changes |
| `Aop.AOP.AddAfter` | lib/aop.js:11-15 | a function is appended at the end of `afters`; a non-function throws `Match.Error` and leaves `afters` as it was; `befores` never changes |
| `Aop.AOP.ExecuteBefores` | lib/aop.js:17-19 | dispatches to `befores` exactly as `Dispatch` specifies; it has no `modifies` clause, so neither list changes |
| `Aop.AOP.ExecuteAfters` | lib/aop.js:21-23 | dispatches to `afters` exactly as `Dispatch` specifies; it never reads or changes `befores` |
| `Aop.CallEach` | lib/aop.js:17-22 | the `forEach` loop yields the same calls and the same propagated exception as `Dispatch` |
| `Aop.DispatchesEveryBefore` | __tests__/aop.test.js:4-20 | two hooks added with `addBefore` to a new registry are both called by `executeBefores`, in the order added, and the dispatch completes |
| `Aop.DispatchStep` | lib/aop.js:17-19 | after a prefix of hooks that all returned, calling the next hook adds exactly that call, and its exception becomes the outcome |
| `Aop.DispatchPrefixThrew` | lib/aop.js:17-19 | once a prefix of the hooks has thrown, the hooks after it change neither the calls made nor the exception |
| `Aop.CallsCarry` | lib/aop.js:17-19 | every event of a dispatch with no exception is a hook call carrying that one payload |
| `Aop.Dispatch` | lib/aop.js:17-22 | the hooks called form a prefix of the list, in registration order, each with the same payload; if no hook throws, every hook is called |
| `Aop.DispatchQuiet` | lib/aop.js:17-22 | a dispatch completes normally exactly when no hook throws; it then calls every hook exactly once, in registration order |
| `Aop.DispatchStops` | lib/aop.js:18 | when hook `k` is the first to throw, hooks `0..k` run, no later hook runs, and hook `k`'s exception propagates |
| `Aop.FirstThrow` | lib/aop.js:18 | when some hook throws there is a first throwing hook `k`; the dispatch calls hooks `0..k` and ends with hook `k`'s exception |
| `Aop.DispatchAppend` | lib/mutation.class.js:103-104 | dispatching to one list and then, if nothing was thrown, to a second is dispatching to their concatenation; so global-then-instance dispatch is one ordered dispatch |
| `Values.RethrowCapture` | lib/mutation.class.js:155-177 | capturing the body's outcome and rethrowing gives back its result or its truthy exception; a falsy exception becomes a return of `undefined` |
| `MutationClass.CheckDefaultConfig` | lib/mutation.class.js:48-63 | a non-object fails `check`; a non-string name fails with `invalid-config` and the name message; an empty name passes; a truthy non-function `validate` fails with `invalid-config` and a message naming the mutation; anything else passes unchanged |
| `MutationClass.ValidateParams` | lib/mutation.class.js:140-144 | a truthy `validate` is called and the `params` shape is never checked; otherwise a truthy `params` shape is checked; with neither, nothing happens |
| `MutationClass.MutationStatics.constructor` | lib/mutation.class.js:6-7 | the class starts with two fresh, distinct, empty registries |
| `MutationClass.MutationStatics.AddBeforeCall` | lib/mutation.class.js:20-22 | registers on the class's call registry only |
| `MutationClass.MutationStatics.AddAfterCall` | lib/mutation.class.js:27-29 | registers on the class's call registry only |
| `MutationClass.MutationStatics.AddBeforeExecution` | lib/mutation.class.js:34-36 | registers on the class's execution registry only |
| `MutationClass.MutationStatics.AddAfterExecution` | lib/mutation.class.js:41-43 | registers on the class's execution registry only |
| `MutationClass.Mutation.Init` | lib/mutation.class.js:12-14 | an accepted config is kept; the instance gets fresh, empty registries, distinct from each other and from the class's |
| `MutationClass.Mutation.New` | lib/mutation.class.js:9-15 | construction throws exactly what `checkDefaultConfig` throws; otherwise it yields a mutation with the config and fresh, empty registries of its own |
| `MutationClass.Mutation.AddBeforeCall` | lib/mutation.class.js:68-70 | registers on the instance's call registry; the class's registries and the instance's execution registry are unchanged |
| `MutationClass.Mutation.AddAfterCall` | lib/mutation.class.js:75-77 | registers on the instance's call registry; everything else is unchanged |
| `MutationClass.Mutation.AddBeforeExecution` | lib/mutation.class.js:82-84 | registers on the instance's execution registry; everything else is unchanged |
| `MutationClass.Mutation.AddAfterExecution` | lib/mutation.class.js:89-91 | registers on the instance's execution registry; everything else is unchanged |
| `MutationClass.Mutation.Run` | lib/mutation.class.js:99-127 | `run` behaves as `CallProtocol` over the class's and the instance's call registries |
| `MutationClass.Mutation.Handle` | lib/mutation.class.js:133-180 | the registered handler behaves as `ExecutionProtocol` over the class's and the instance's execution registries |
| `MutationClass.ExecuteBeforesBoth` | lib/mutation.class.js:152-153 | the class's before-hooks and then the instance's, the second list skipped once the first threw, form one ordered dispatch over both lists |
| `MutationClass.ExecuteAftersBoth` | lib/mutation.class.js:170-171 | the same for the after-hooks, class first |
| `MutationClass.ScopesAreSeparate` | lib/mutation.class.js:99-104 | a before-call hook registered on the class runs in the `run` of every mutation, one registered on a mutation runs only in its own `run`, and a `null` hook is refused with `Match.Error` and registers nothing |
| `MutationClass.RunOrder` | lib/mutation.class.js:99-127 | with no hook throwing: global then instance before-call hooks, then the transport with the call's params and options, then global then instance after-call hooks, each once; then reject on a truthy error, else resolve with the result |
| `MutationClass.BeforeCallThrowAborts` | lib/mutation.class.js:102-104 | when a before-call hook throws, `run` throws the exception of the first hook that threw, after calling exactly the hooks up to it; only before-call hooks ran and the transport was not called |
| `MutationClass.BeforeExecutionThrowSkipsBody` | lib/mutation.class.js:152-157 | after validation passes, the first throwing before-execution hook ends the handler with its exception; the hooks up to it ran, and neither the body nor any after-hook did |
| `MutationClass.AfterExecutionThrowOverridesBody` | lib/mutation.class.js:155-171 | with validation passing and no before-hook throwing, a throwing after-execution hook makes the handler throw the first such hook's exception after the body ran, whatever the body did |
| `MutationClass.AfterCallThrowLeavesUnsettled` | lib/mutation.class.js:109-124 | a throwing after-call hook leaves the promise unsettled after the transport was called |
| `MutationClass.ValidationFailureRunsNothing` | lib/mutation.class.js:140-153 | a failed validation throws its error before any hook or the body runs |
| `MutationClass.ExecutionOrder` | lib/mutation.class.js:139-178 | validation, then global then instance before-execution hooks, the body, then global then instance after-execution hooks seeing the captured result and error, each once; then the captured outcome is rethrown or returned |
| `MutationClass.BodyOutcomeReachesTransport` | lib/mutation.class.js:155-177 | the body's result is returned unchanged and its truthy exception is rethrown unchanged; a falsy exception is swallowed |
| `Mutators.PatternCheck` | lib/mutations.js:22-24 | the trace holds a params check exactly when `config.params` is truthy, and nothing else; it throws, always `Match.Error`, exactly when `config.params` is truthy and the params do not match it |
| `Mutators.MutatorConfigSuitsTheClass` | lib/mutations.js:7-10 | every config that `createMutator` or `mutate` accepts, the `Mutation` class's `checkDefaultConfig` accepts too, unchanged |
| `Mutators.ValidateOnlyInClass` | lib/mutations.js:7-10 | the converse fails: a config with a `validate` function passes `checkDefaultConfig` but is refused with `Match.Error` by the older functions |
| `Mutators.Handle` | lib/mutations.js:14-46 | the handler behaves as `MutatorExecution` over the global `mutationAOP` registry |
| `Mutators.CheckFailsAfterBeforeHooks` | lib/mutations.js:16-24 | a failing params check throws after every before-hook ran; neither the body nor any after-hook runs |
| `Mutators.MutatorOrder` | lib/mutations.js:15-45 | with the check passing and no hook throwing: before-hooks, the check, the body with the context and the params, after-hooks seeing the captured result and error; then rethrow or return |
| `Mutators.CheckOrderDiffers` | lib/mutations.js:16-24 | for the same failing params, the class's handler runs no hook while this handler runs every before-hook |
| `Mutate.Mutate` | lib/mutate.js:6-35 | `mutate` behaves as `MutateCall` over the global `mutateAOP` registry |
| `Mutate.ConfigRejectedFirst` | lib/mutate.js:7-10 | a config that fails the pattern makes `mutate` throw `Match.Error` before any hook or the transport |
| `Mutate.BeforeHookThrowStopsMutate` | lib/mutate.js:12-15 | the first throwing before-hook's exception is what `mutate` throws, after the hooks up to it ran; the transport is not called |
| `Mutate.AfterHookThrowLeavesMutateUnsettled` | lib/mutate.js:20-26 | with the before-hooks quiet, a throwing after-hook comes after the transport call; the after-hooks ran up to the first thrower, and the promise stays unsettled with that hook's exception |
| `Mutate.MutateOrder` | lib/mutate.js:12-33 | with no hook throwing: before-hooks with the call's params, the transport with the same params, after-hooks with `config.params`, each once; then reject on a truthy error, else resolve |
| `Mutate.AfterHooksSeeConfigParams` | lib/mutate.js:17-26 | before-hooks and the transport get the call's params; after-hooks get `config.params` |
| `Mutate.AfterHooksMissTheCallParams` | lib/mutate.js:21-26 | a concrete call with `{title}` whose config has no `params`: the after-hook is told `params: undefined` |
| `RoundTrip.RunSeesHandlerOutcome` | lib/mutation.class.js:109-124 | with no call hook throwing, `run` resolves with what the handler returned, and rejects with the reported error when the handler threw |
| `RoundTrip.HelloResolves` | __tests__/boot.js:23-25 | a body returning "Hello!" makes the call resolve with "Hello!" |
| `RoundTrip.TitleEchoes` | __tests__/mutate.test.js:17-24 | a body echoing `title`, under the pattern `{title: String}`, makes the call with `{title: "DEMO"}` resolve with "DEMO" |
| `RoundTrip.MissingTitleRejects` | __tests__/boot.js:7-12 | the same mutation called with `{}` fails the params check before the body runs, and the call rejects with the match error |
| `RoundTrip.ThrowRejects` | __tests__/boot.js:26-28 | a body throwing "Oh no!" is seen by the after-hook and makes the call reject with it |

## Left out

- The Meteor transport is not modelled. `Meteor.apply` and `Meteor.call` are replaced by the reply they deliver, given as a parameter. The round-trip lemmas assume a transport that passes the handler's result or thrown value through unchanged; Meteor's own error sanitising is not modelled.
- Registration in Meteor's method table (`Meteor.methods` in `setHandler` and `createMutator`) is not modelled, so neither is what happens when two handlers share a name. The handler that would be registered is modelled (`Mutation.Handle`, `Mutators.Handle`), and so is `createMutator`'s config check (`Values.CheckMutatorConfig`).
- Meteor's `check`/`Match` library is an abstract predicate (`Env.matches`) for params patterns. `Object` is read as "a plain object", and a failure is a bare `Match.Error` without its message.
- Promises and callbacks are asynchronous; only the settled outcome is modelled. Every registry a protocol reads is read as it stands when the call begins. Hooks registered while a call waits for its reply are not seen.
- A hook's behaviour is a fixed function of the hook and the payload. The model does not cover hooks that change the payload, register further hooks during a dispatch, or depend on what earlier hooks did.
- Each hook receives exactly one payload. The variadic `...args` and the `this` of `fn.call(null, …)` are not modelled: every caller in the core passes one object.
- Numbers are integers. NaN and fractions are not modelled, including in truthiness.
- The class handler calls the body with one object `{context, params}`; the older handler calls it with two arguments `(context, params)`. Both are recorded as `BodyCalled(context, params)`.
- The repository's tests call `.run()` on the plain config objects of __tests__/boot.js:3-20 (__tests__/mutate.test.js:11, 18 and 27). No code in the repository gives those objects a `run` method: `createMutator` returns nothing and leaves `config` alone, so as written those calls would throw a `TypeError`. The round-trip lemmas (`RoundTrip.HelloResolves`, `RoundTrip.TitleEchoes`, `RoundTrip.MissingTitleRejects`, `RoundTrip.ThrowRejects`) use `mutate(config, params)` as the caller instead.
- lib/debug.js (logging hooks), lib/lib.js (unused), main.js and package.js (re-exports and packaging) are not part of this model.
- lib/mutation.class.js:2 imports `AOP` as a default export, but lib/aop.js:29 exports it only by name. The model assumes the import resolves to the `AOP` class.
