/** The memoize action and its builder, `memoize(options)(fn)(...args)`
    (src/index.js:4, 84-101), and how the middleware recognises it
    (src/index.js:37-38). */
module Actions {
  import opened Wrappers
  import opened Values
  import opened Policy

  /** `ACTION_TYPE`. */
  const ActionType: string := "@redux-memoize/action"

  /** `action.payload`: the function to run and its arguments. */
  datatype Payload = Payload(fn: Op, args: Args)

  /** What reaches the middleware: an object with `type`, `payload` (absent
      when `None`) and `meta` (absent or falsy when `None`), the value `null`,
      or anything that is not an object (a thunk function, a string, ...). */
  datatype Action =
    | Plain(kind: string, payload: Option<Payload>, meta: Option<Meta>)
    | NullAction
    | NonObject(tag: nat)

  /** `typeof action === 'object' && action.type === ACTION_TYPE`, for every
      action on which that test does not throw. */
  predicate IsMemoAction(a: Action)
  {
    a.Plain? && a.kind == ActionType
  }

  /** The argument given to `memoize(options)`. */
  datatype Callee = Function(op: Op) | NotAFunction

  /** The action creator `(...args) => action` that `memoize` returns. */
  datatype ActionCreator = ActionCreator(options: Option<Meta>, fn: Op)

  /** `memoize(options)(fn)`: throws unless `fn` is a function. */
  function Memoize(options: Option<Meta>, fn: Callee): (r: Result<ActionCreator>)
    ensures r.Failure? <==> fn.NotAFunction?
    ensures r.Success? ==> r.value.fn == fn.op && r.value.options == options
  {
    match fn
    case NotAFunction => Failure("Not a function")
    case Function(op) => Success(ActionCreator(options, op))
  }

  /** Calling the action creator with `args`. */
  function CreateAction(c: ActionCreator, args: Args): Action
  {
    Plain(ActionType, Some(Payload(c.fn, args)), c.options)
  }

  /** Every action built by a memoized creator is recognised as a memoize
      action, carries exactly the function and the arguments, carries `meta`
      exactly when `options` was truthy, and resolves to the policy that
      `options` asks for. */
  lemma CreatedActionRoundTrip(options: Option<Meta>, op: Op, args: Args, globalOptions: Option<Meta>)
    ensures Memoize(options, Function(op)).Success?
    ensures var a := CreateAction(Memoize(options, Function(op)).value, args);
      && IsMemoAction(a)
      && a.payload == Some(Payload(op, args))
      && (a.meta.Some? <==> options.Some?)
      && Resolve(globalOptions, a.meta) == Resolve(globalOptions, options)
  {
  }
}
