/** JavaScript values as far as the memoizing middleware inspects them, and
    the task handles it hands back to callers (src/index.js:12-14, 54, 68). */
module Values {

  /** Identity of an action-creator function (`fn`), compared by reference. */
  type Op = nat

  /** A JavaScript value. `Obj` carries the identity of an object and whether
      its `then` property is a function. */
  datatype Value =
    | Undefined
    | Null
    | Bool(b: bool)
    | Num(n: int)
    | Str(s: string)
    | Obj(id: nat, thenIsFunction: bool)

  /** The argument list of one call, `fn(...args)`. */
  type Args = seq<Value>

  /** The Redux state as returned by `getState()`: a plain object. */
  type AppState = map<string, Value>

  /** JavaScript truthiness. */
  predicate Truthy(v: Value)
  {
    match v
    case Undefined => false
    case Null => false
    case Bool(b) => b
    case Num(n) => n != 0
    case Str(s) => s != ""
    case Obj(_, _) => true
  }

  /** `typeof v.then === 'function'`: primitives carry no such property. */
  predicate HasCallableThen(v: Value)
  {
    v.Obj? && v.thenIsFunction
  }

  /** `isPromise(v)`: `v && typeof v.then === 'function'`. */
  predicate IsPromise(v: Value)
  {
    Truthy(v) && HasCallableThen(v)
  }

  /** A task handle. `Shared` is a thenable returned by the executor, passed
      on as it is (same identity); `Resolved` is the promise built by
      `Promise.resolve(value)`, whose identity is its serial number. */
  datatype Task = Shared(promise: Value) | Resolved(serial: nat, value: Value)

  /** `isPromise(result) ? result : Promise.resolve(result)`, where `serial`
      is the identity the fresh promise gets. */
  function Normalize(result: Value, serial: nat): (t: Task)
    ensures t.Shared? <==> IsPromise(result)
    ensures t.Shared? ==> t.promise == result
    ensures t.Resolved? ==> t.serial == serial && t.value == result
  {
    if IsPromise(result) then Shared(result) else Resolved(serial, result)
  }

  /** Normalizing never loses identity: two normalized handles are the same
      handle exactly when they come from the same thenable, or from the same
      value wrapped under the same serial. */
  lemma NormalizeIdentity(v1: Value, s1: nat, v2: Value, s2: nat)
    ensures Normalize(v1, s1) == Normalize(v2, s2) <==>
              (IsPromise(v1) && IsPromise(v2) && v1 == v2) ||
              (!IsPromise(v1) && !IsPromise(v2) && v1 == v2 && s1 == s2)
  {
  }
}
