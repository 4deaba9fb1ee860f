# redux-memoize, modelled in Dafny

redux-memoize is a Redux middleware that memoizes action creators. The
creator `memoize(options)(fn)` wraps `fn`. A call `f(...args)` does not run
`fn`; it returns a memoize action carrying `fn`, `args` and `options`. When
that action reaches the middleware made by `createMemoizeMiddleware(options)`,
the middleware works out a policy:

- `ttl`, `enabled` and `isEqual`;
- the action's `meta` overrides `globalOptions`, which overrides the defaults.

Then it handles the call:

- When caching is enabled, it looks in `fn`'s task cache for the first key
  equal to `args`. On a hit it returns that task without running anything.
- On a miss it dispatches `fn(...args)` and wraps the result as a promise.
  It keeps that task under `args` when the ttl, read after the run, is
  nonzero.
- Unless `disableTTL` is set, it also arms a timer that deletes the entry
  again.
- When caching is disabled, every call runs and nothing is kept.
- `getAll()` lists every stored task.

The model has seven modules:

- `Values`: JavaScript values, truthiness, `isPromise`, and the task handles.
  A thenable is returned as it is. A fresh `Promise.resolve` has its own
  identity.
- `Policy`: the policy fields as constants or functions of the state. The
  object-spread merge behind the policy.
- `Actions`: the memoize action, `memoize`, and recognising a memoize action.
- `TaskCache`: one function's task cache as a sequence of entries in
  insertion order:
  - `deepGet` is a loop proved against its specification, `FirstMatch`;
  - deletion by key object.
- `Memo`: the middleware and the Redux store as classes:
  - `MemoizeMiddleware.Handle` is proved to have exactly the effect of the
    pure step `MemoStep` on a snapshot of both;
  - `FireEviction` is proved to have exactly the effect of `Evict`;
  - the properties are lemmas about those pure steps:
    - the invariant each step keeps;
    - a repeated call reusing its task;
    - ttl 0 and disabled caching storing nothing;
    - eviction forcing a rerun;
    - `getAll` listing each stored task exactly once.
- `Scenarios`: call sequences of the repository's test suite replayed on the
  pure step with a counter store.
- `Wrappers`: `Option` and `Result`.

The test suite in `test/middleware.spec.js` was written against an older
interface: a two-argument `memoize`, `middleware.cache`, and a ttl that is
required. The scenarios replay its call sequences through the interface of
`src/index.js`. Its 'dynamic ttl' test sets the ttl with an action named
`SET_MEMOIZE_ENABLED`, so under `src/index.js` its ttl stays unset. `Scenarios.DynamicTtl`
writes the ttl into the state directly.

## Model

| member | source | states |
|---|---|---|
| Values.Normalize | src/index.js:12-14 | the task is the result itself exactly when the result is truthy and its `then` is a function; otherwise it is a fresh resolved promise of the result |
| Values.NormalizeIdentity | src/index.js:54 | two normalized tasks are the same object exactly when they come from the same thenable, or from the same value wrapped by the same `Promise.resolve` |
| Policy.SpreadNoKeys | src/index.js:41-42 | spreading `{}` (an absent or falsy options object) leaves the policy unchanged |
| Policy.ResolvePrecedence | src/index.js:39-43 | for each of `ttl`, `enabled` and `isEqual`, the action's `meta` wins. Otherwise `globalOptions` wins. Otherwise the default applies |
| Policy.ResolveDefaults | src/index.js:6-10 | with no options anywhere, ttl is 0, caching is enabled, and argument lists compare element by element (object arguments by identity, see Left out) |
| Actions.Memoize | src/index.js:84-87 | `memoize(options)(fn)` fails exactly when `fn` is not a function; otherwise the creator keeps `fn` and `options` |
| Actions.CreatedActionRoundTrip | src/index.js:88-100 | a created action is a memoize action carrying exactly `fn` and `args`. It carries `meta` exactly when `options` was truthy, and resolves to the policy `options` asks for |
| TaskCache.FirstMatch | src/index.js:20-27 | the index found holds a key equal to `args`, and no earlier key is equal; none is found exactly when no key is equal |
| TaskCache.DeepGet | src/index.js:20-27 | the insertion-order scan returns the task of the first equal key, or null exactly when there is none |
| TaskCache.FirstMatchIsLeast | src/index.js:21-24 | a match preceded only by non-matches is the one `deepGet` returns |
| TaskCache.RepeatCallFindsStoredEntry | src/index.js:51-57 | after a miss stores a task under `args`, looking up `args` again finds exactly that entry |
| TaskCache.InsertAfterMissKeepsKeysApart | src/index.js:51-57 | inserting only after a failed lookup keeps every pair of stored keys unequal under `isEqual` |
| TaskCache.RemoveKeyAt | src/index.js:60 | deleting a present key object removes exactly that entry and keeps the order of the rest |
| TaskCache.RemoveAbsentKey | src/index.js:60 | deleting a key that is not stored changes nothing |
| TaskCache.RemoveKeepsKeysApart | src/index.js:60 | deletion keeps stored keys pairwise unequal under `isEqual` |
| Memo.Store.Run | src/index.js:53 | `dispatch(fn(...args))` applies the reducer once, logs the call once, and returns the outcome for the store before it, whose log may make each run's result a new object |
| Memo.MemoizeMiddleware.constructor | src/index.js:29-35 | `disableTTL` is the option when it is given, otherwise true exactly outside a browser; the cache starts empty |
| Memo.MemoizeMiddleware.Handle | src/index.js:36-71 | a `null` action or a memoize action without a payload throws. Any other non-memoize action is handed back as `PassedOn`, for `next`, without the middleware touching its own state or the store. A memoize action has exactly the effect of `MemoStep` under the resolved policy, keeping the invariant |
| Memo.MemoizeMiddleware.Memoized | src/index.js:44-68 | registers `fn`, then looks up or runs (enabled) or runs and wraps (disabled): exactly `MemoStep`, keeping the invariant |
| Memo.MemoizeMiddleware.RunUnmemoized | src/index.js:67-68 | the disabled path runs `fn(...args)` once and wraps the result without storing anything: exactly `RunAndWrap` |
| Memo.MemoizeMiddleware.LookupOrRun | src/index.js:51-65 | `deepGet` hit, or run, wrap, and store under a fresh key when the ttl read after the run is nonzero: exactly `LookupStep` |
| Memo.MemoizeMiddleware.FireEviction | src/index.js:58-62 | a pending timer firing deletes exactly its key, as `Evict` does, and keeps the invariant |
| Memo.MemoizeMiddleware.GetAll | src/index.js:72-80 | the nested loops return the stored tasks by function, then by key insertion order |
| Memo.BucketTasks | src/index.js:75-77 | the inner loop returns the tasks of one task cache in key insertion order |
| Memo.BucketOkAppend | src/index.js:57-62 | appending under a fresh key, with a timer exactly when eviction is on, keeps a task cache well formed |
| Memo.BucketOkRemove | src/index.js:60 | removing one entry keeps a task cache well formed |
| Memo.RegisterConsistent | src/index.js:44-48 | creating a missing task cache keeps the middleware's invariant |
| Memo.LookupStepConsistent | src/index.js:51-65 | the enabled path keeps the invariant: keys stay distinct and fresh, and timers are present exactly when eviction is on and never zero |
| Memo.MemoStepConsistent | src/index.js:44-68 | every memoize action keeps the middleware's invariant |
| Memo.EvictConsistent | src/index.js:58-62 | firing a pending timer keeps the invariant and removes exactly the entry with that key |
| Memo.RegisterKeepsBuckets | src/index.js:44-48 | `cache.get`-or-create is idempotent and leaves every existing task cache as it was |
| Memo.MemoStepEffect | src/index.js:44-68 | on an enabled hit, the stored task comes back with nothing run or changed. Otherwise `fn(...args)` runs exactly once and its normalized result comes back. An entry is appended exactly when enabled and the post-run ttl is nonzero. No other function's cache changes |
| Memo.MemoStepKeepsKeysApart | src/index.js:51-57 | lookup-before-insert keeps the stored keys pairwise unequal under the call's `isEqual` |
| Memo.EvictKeepsKeysApart | src/index.js:58-62 | a timer firing keeps the stored keys of its function pairwise unequal under `isEqual` |
| Memo.RepeatCallReusesTask | src/index.js:51-65 | once a call has stored its task, an identical enabled call returns that same task and runs and changes nothing |
| Memo.ZeroTtlRunsAgain | src/index.js:55-57 | with ttl 0 nothing is stored, so an identical call runs the work again |
| Memo.DisabledLeavesNoEntry | src/index.js:50-68 | a disabled call runs the work and leaves the task cache as it was |
| Memo.NothingArmedWhenTtlDisabled | src/index.js:58 | with `disableTTL`, no timer is ever pending |
| Memo.EvictTouchesOneBucket | src/index.js:59-61 | a timer firing changes only its own function's task cache |
| Memo.EvictedCallRunsAgain | src/index.js:56-62 | a stored call arms a timer on its key; after it fires, the cache is as before and the identical call runs again |
| Memo.LiveLength | src/index.js:72-80 | `getAll` yields as many tasks as there are stored entries |
| Memo.SlotsExactlyOnce | src/index.js:75-77 | the inner loop lists each entry of a task cache exactly once |
| Memo.LiveExactlyOnce | src/index.js:74-78 | the nested loops list every entry of every function exactly once, and nothing else |
| Memo.GetAllExactlyOnce | src/index.js:72-80 | on a consistent middleware, each stored task is listed exactly once and the count equals the number of stored entries |
| Scenarios.RepeatedCallsShareOneTask | test/middleware.spec.js:203-245 | for any store, any distinct `x` and `y` and any nonzero ttl, `f(x)`, `f(y)`, `f(x)` run twice. The first and third calls share a task and the second has its own. Two entries are stored and the counter grows by `x + y` (2, 3 and 200 in the test, ending at 5) |
| Scenarios.TimedCallsShareOneTask | test/middleware.spec.js:256-281 | the same calls with timers on leave two entries stored under keys 0 and 1, each armed with the ttl |
| Scenarios.EvictionForcesRerun | test/middleware.spec.js:282-299 | the first key's timer was armed. Once it fires, `f(x)` runs again with a new task, and the next `f(x)` reuses that task with the store unchanged (the counter goes 5, 7, 7) |
| Scenarios.SecondEvictionForcesRerun | test/middleware.spec.js:299-309 | once the rerun task's timer fires too, `f(x)` runs a third time with a new task (the counter reaches 9) |
| Scenarios.DynamicEnable | test/middleware.spec.js:528-585 | two identical calls run once while enabled. After the state turns caching off, each identical call runs again, so three runs in total with the counter growing by `3x` |
| Scenarios.UncachedRunsReturnNewPromises | src/index.js:51-57 | under the default policy (ttl 0) two identical calls of a creator whose every run returns a new thenable both run, and return two different promises, each the one its own run produced |
| Scenarios.DynamicTtl | src/index.js:55-57 | with no ttl in the state, two identical calls both run and nothing is kept. Once the state holds a nonzero ttl, the next call runs and is kept, and the identical call after it reuses its task |

## Left out

- Wall-clock time: `setTimeout` is replaced by an explicit `FireEviction` step. Each stored entry records the delay it was armed with. When timers fire relative to each other is not modelled.
- Promise settlement: a task is a handle whose identity is modelled. Resolution, rejection and a thrown `fn` are not.
- The Redux plumbing: `dispatch`, `getState`, `next` and the curried signature.
  - The store is a state plus a log of executed calls.
  - `dispatch(fn(...args))` is a reducer and an outcome given as functions. The outcome sees the state and the log of earlier runs, so separate runs can return separate thenables. It cannot see anything else that differs between runs.
  - A thunk that dispatches further memoize actions is not modelled.
  - What `next(action)` returns, and what it does to the store (the rest of the middleware chain and the reducer), are not modelled. The scenarios write such state changes, like `memoizeEnabled`, into the store directly.
- `enabled` and `ttl` given as functions receive the current state. The source passes them `getState`; they are modelled as reading it once.
- `lodash/isEqual` is replaced by equality of argument lists. An object is only an identity here, so the default compares object arguments by reference: two separate literals such as `{id: 1}` hit the same entry in the source but not in the model. Primitives compare as lodash compares them.
- `canUseDOM`, which probes `window`, is a constructor parameter.
- Options objects whose keys are present but `undefined` are not modelled. In the source such a key overrides in the spread. Non-boolean `enabled` constants and `NaN` or fractional ttls are not modelled either.
- A malformed payload, where `fn` is not a function or `args` is not iterable, is not modelled. Only a missing payload is.
- One `args` array object reused by two actions is not modelled. Every stored key is a fresh object, so an eviction deletes only its own entry.
- The test-only `memoize(opts, fn)` signature, `middleware.cache` and the ttl-required check come from an older interface that `src/index.js` does not have.
- `createMemoizeMiddleware(null)`: the default `{}` replaces only `undefined`, so in the source a `null` options object throws a TypeError on every memoize action. The model takes the options as given and has no `null` for them.
- A non-function `isEqual` throws once a task cache holds a key. Every `isEqual` in the model is a function.
- Concurrency: each action is handled atomically.
