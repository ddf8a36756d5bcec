/** The vocabulary shared by the hook registry and the two invocation
    protocols: the JavaScript values they pass around, mutation configs,
    hook payloads, the events an invocation produces, and the way a
    captured (error, result) pair is settled or rethrown. */
module Values {

  datatype Option<+T> = None | Some(value: T)

  datatype Result<+T, +E> = Ok(value: T) | Err(error: E)

  /** A JavaScript value, as far as the engine can observe it. */
  datatype Value =
    | Undefined
    | Null
    | Bool(b: bool)
    | Num(n: int)
    | Str(s: string)
    | EmptyObject                               // a fresh `{}`
    | Obj(id: nat)                              // any other plain object
    | Fn(id: nat)                               // a function
    | MatchError                                // thrown by Meteor's `check`
    | TypeError                                 // thrown by calling a non-function
    | MeteorError(code: string, reason: string) // `new Meteor.Error(code, reason)`

  /** JavaScript truthiness, as used by `if (error)` and `config.validate && ...`. */
  predicate Truthy(v: Value) {
    match v
    case Undefined => false
    case Null => false
    case Bool(b) => b
    case Num(n) => n != 0
    case Str(s) => s != ""
    case _ => true
  }

  /** What `check(v, Object)` accepts. */
  predicate IsPlainObject(v: Value) {
    v.EmptyObject? || v.Obj?
  }

  /** A parameter with the default `= {}`: only `undefined` is replaced. */
  function OrEmpty(v: Value): Value {
    if v == Undefined then EmptyObject else v
  }

  /** The `this` of a Meteor method invocation; never inspected, only forwarded. */
  datatype Context = Context(id: nat)

  /** A mutation config object. `Undefined` stands for an absent key;
      `hasOtherKeys` records keys other than name, params and validate. */
  datatype Config = Config(name: Value, params: Value, validate: Value, hasOtherKeys: bool)

  /** The argument given where a config is expected. */
  datatype ConfigArg = ConfigObject(config: Config) | NotAnObject(value: Value)

  /** `check(config, { name: String, params: Match.Maybe(Object) })`: an object
      pattern admits no other keys, so a `validate` key is refused too. */
  predicate MatchesMutatorPattern(c: Config) {
    && c.name.Str?
    && (c.params == Undefined || c.params == Null || IsPlainObject(c.params))
    && c.validate == Undefined
    && !c.hasOtherKeys
  }

  /** The config check shared by `createMutator` and `mutate`. */
  function CheckMutatorConfig(arg: ConfigArg): (r: Result<Config, Value>)
    ensures r.Ok? <==> arg.ConfigObject? && MatchesMutatorPattern(arg.config)
    ensures r.Ok? ==> r.value == arg.config
    ensures r.Err? ==> r.error == MatchError
  {
    if arg.ConfigObject? && MatchesMutatorPattern(arg.config) then Ok(arg.config) else Err(MatchError)
  }

  type HookId = nat

  /** The single object every hook receives: `{ [context,] config, params }`
      before, `{ [context,] config, params, result, error }` after. */
  datatype Payload =
    | Before(context: Option<Context>, config: Config, params: Value)
    | After(context: Option<Context>, config: Config, params: Value, result: Value, error: Value)

  /** What a call has done, in order. */
  datatype Event =
    | HookCalled(hook: HookId, payload: Payload)
    | ValidateCalled(validator: nat, params: Value)
    | ParamsChecked(params: Value, pattern: Value)
    | TransportCalled(name: Value, params: Value, options: Value)
    | BodyCalled(context: Context, params: Value)

  /** A run of code together with what it did. */
  datatype Traced<+T> = Traced(trace: seq<Event>, outcome: T)

  /** How a function call ended: it returned a value or threw one. */
  datatype Completion = Returned(value: Value) | Threw(error: Value)

  /** An `(error, result)` pair: what a transport callback receives, and what
      `let error, result; try { result = ... } catch (e) { error = e }` leaves. */
  datatype Outcome = Outcome(error: Value, result: Value)

  /** What the caller of `run` or `mutate` ends up with. */
  datatype Settlement =
    | Raised(error: Value)     // thrown synchronously, before any promise exists
    | Resolved(value: Value)
    | Rejected(error: Value)
    | Unsettled(error: Value)  // thrown inside the transport callback: the promise never settles

  /** How a hook behaves on a payload: `Some(e)` means it throws `e`. */
  type HookBehaviour = (HookId, Payload) -> Option<Value>

  /** The operation body given to `setHandler` or `createMutator`. */
  type Body = (Context, Value) -> Completion

  /** The code the engine calls but does not own. */
  datatype Env = Env(
    hook: HookBehaviour,
    validate: (nat, Value) -> Option<Value>,   // a custom `validate` function; Some(e) = throws e
    matches: (Value, Value) -> bool)           // Meteor's `check(value, pattern)` succeeds

  /** Meteor's `check` of the params against a pattern (lib/mutations.js:22-24,
      lib/mutation.class.js:142-144): recorded in the trace, and a mismatch
      throws `Match.Error`. */
  function CheckParams(params: Value, pattern: Value, env: Env): (r: Traced<Option<Value>>)
    ensures r.trace == [ParamsChecked(params, pattern)]
    ensures r.outcome.None? <==> env.matches(params, pattern)
    ensures r.outcome.Some? ==> r.outcome.value == MatchError
  {
    Traced([ParamsChecked(params, pattern)], if env.matches(params, pattern) then None else Some(MatchError))
  }

  /** The try/catch around the body (lib/mutations.js:26-31,
      lib/mutation.class.js:155-160): a return fills `result`, a throw fills
      `error`, and the other stays undefined. */
  function Capture(c: Completion): Outcome {
    match c
    case Returned(v) => Outcome(Undefined, v)
    case Threw(e) => Outcome(e, Undefined)
  }

  /** How the handler ends once its after-hooks are done
      (lib/mutations.js:41-45, lib/mutation.class.js:173-177): a truthy
      captured error is thrown again, otherwise the captured result is returned. */
  function Rethrow(o: Outcome): Completion {
    if Truthy(o.error) then Threw(o.error) else Returned(o.result)
  }

  /** How the transport callback settles the caller's promise
      (lib/mutation.class.js:120-124, lib/mutate.js:28-32): a truthy error
      rejects it, otherwise the result resolves it. */
  function Settle(o: Outcome): Settlement {
    if Truthy(o.error) then Rejected(o.error) else Resolved(o.result)
  }

  /** Capturing and rethrowing gives back what the body did, except that a
      falsy thrown value is swallowed and turned into a return of undefined. */
  lemma RethrowCapture(c: Completion)
    ensures c.Returned? ==> Rethrow(Capture(c)) == c
    ensures c.Threw? && Truthy(c.error) ==> Rethrow(Capture(c)) == c
    ensures c.Threw? && !Truthy(c.error) ==> Rethrow(Capture(c)) == Returned(Undefined)
  {
  }
}
