/** The middleware built by `createMemoizeMiddleware(options)`
    (src/index.js:29-82): a map from each action-creator function to its task
    cache, the action handler that looks up or runs and stores a task, the
    eviction timers it arms, and `getAll`. The handler's effect is specified
    by pure functions on a snapshot of the middleware and of the store; the
    class methods are proved to have exactly that effect. */
module Memo {
  import opened Wrappers
  import opened Values
  import opened Policy
  import opened Actions
  import opened TaskCache

  /** One execution of `fn(...args)`. */
  datatype Call = Call(fn: Op, args: Args)

  /** What `dispatch(fn(...args))` does to the state, and what it returns, as
      functions of the store before and of the call. The outcome sees the
      log of earlier executions too, so a thunk that returns a new promise
      on every run, without touching the state, is expressible. */
  datatype Executor = Executor(reducer: (AppState, Call) -> AppState, outcome: (StoreView, Call) -> Value)

  /** The store's state and every execution so far, in order. */
  datatype StoreView = StoreView(state: AppState, log: seq<Call>)

  /** The store after one execution of `call`. */
  function Execute(ex: Executor, s: StoreView, call: Call): StoreView
  {
    StoreView(ex.reducer(s.state, call), s.log + [call])
  }

  /** The Redux store seen through `dispatch` and `getState`. */
  class Store {
    const executor: Executor
    var state: AppState
    var log: seq<Call>

    function View(): StoreView
      reads this
    {
      StoreView(state, log)
    }

    constructor (init: AppState, executor: Executor)
      ensures View() == StoreView(init, [])
      ensures this.executor == executor
    {
      this.executor := executor;
      state := init;
      log := [];
    }

    /** `dispatch(fn(...args))`. */
    method Run(c: Call) returns (result: Value)
      modifies this
      ensures View() == Execute(executor, old(View()), c)
      ensures result == executor.outcome(old(View()), c)
    {
      result := executor.outcome(View(), c);
      state := executor.reducer(state, c);
      log := log + [c];
    }
  }

  /** A snapshot of the middleware: the keys of `cache` in insertion order,
      each function's task cache, and the identities the next stored key and
      the next `Promise.resolve` will get. */
  datatype CacheState = CacheState(fns: seq<Op>, cache: map<Op, seq<Entry>>, nextKey: KeyId, nextSerial: nat)

  /** The task cache of `op`, empty when there is none. */
  function BucketOf(c: CacheState, op: Op): seq<Entry>
  {
    if op in c.cache then c.cache[op] else []
  }

  /** What the middleware keeps true of one function's task cache: distinct
      key objects, keys and wrapped-promise serials issued from the counters,
      an armed timer on every entry exactly when eviction is on, and a nonzero
      lifetime on every timer. */
  ghost predicate BucketOk(entries: seq<Entry>, nextKey: KeyId, nextSerial: nat, disableTTL: bool)
  {
    && KeysDistinct(entries)
    && (forall i :: 0 <= i < |entries| ==> entries[i].key < nextKey)
    && (forall i :: 0 <= i < |entries| ==> entries[i].task.Resolved? ==> entries[i].task.serial < nextSerial)
    && (forall i :: 0 <= i < |entries| ==> (entries[i].timer.Some? <==> !disableTTL))
    && (forall i :: 0 <= i < |entries| ==> entries[i].timer != Some(0))
  }

  /** The invariant of the middleware's state. */
  ghost predicate Consistent(c: CacheState, disableTTL: bool)
  {
    && (forall i, j :: 0 <= i < j < |c.fns| ==> c.fns[i] != c.fns[j])
    && (forall op :: op in c.cache <==> op in c.fns)
    && (forall op :: op in c.cache ==> BucketOk(c.cache[op], c.nextKey, c.nextSerial, disableTTL))
  }

  /** `cache.get(fn)`, creating and registering an empty task cache when
      there is none (src/index.js:44-48). */
  function Register(c: CacheState, op: Op): CacheState
  {
    if op in c.cache then c else c.(fns := c.fns + [op], cache := c.cache[op := []])
  }

  /** The result of one memoize action: the middleware and store afterwards
      and the task returned. */
  datatype StepResult = StepResult(cache: CacheState, store: StoreView, task: Task)

  /** `dispatch(fn(...args))` followed by `isPromise(result) ? result :
      Promise.resolve(result)`, without storing anything. */
  function RunAndWrap(c: CacheState, s: StoreView, ex: Executor, call: Call): StepResult
  {
    StepResult(c.(nextSerial := c.nextSerial + 1), Execute(ex, s, call),
               Normalize(ex.outcome(s, call), c.nextSerial))
  }

  /** The enabled path (src/index.js:51-65): reuse the task of the first
      equal key; otherwise run once, wrap, and store the task under a fresh
      key exactly when the ttl read after the run is nonzero, with a timer
      unless `disableTTL` is set. */
  function LookupStep(c: CacheState, s: StoreView, ex: Executor, disableTTL: bool,
                      op: Op, args: Args, policy: Settings): StepResult
  {
    var before := BucketOf(c, op);
    match FirstMatch(before, args, policy.isEqual)
    case Some(i) => StepResult(c, s, before[i].task)
    case None =>
      var ran := RunAndWrap(c, s, ex, Call(op, args));
      var ttl := Eval(policy.ttl, ran.store.state);
      if ttl == 0 then ran
      else
        var e := Entry(c.nextKey, args, ran.task, if disableTTL then None else Some(ttl));
        ran.(cache := ran.cache.(cache := c.cache[op := before + [e]], nextKey := c.nextKey + 1))
  }

  /** One memoize action for `fn` and `args` under the resolved policy
      (src/index.js:44-68): register `fn`, then either bypass the cache
      (disabled) or look up or run. */
  function MemoStep(c: CacheState, s: StoreView, ex: Executor, disableTTL: bool,
                    op: Op, args: Args, policy: Settings): StepResult
  {
    var registered := Register(c, op);
    if Eval(policy.enabled, s.state) then LookupStep(registered, s, ex, disableTTL, op, args, policy)
    else RunAndWrap(registered, s, ex, Call(op, args))
  }

  /** An eviction timer is pending for key `key` of function `op`. */
  ghost predicate Armed(c: CacheState, op: Op, key: KeyId)
  {
    op in c.cache && exists i :: 0 <= i < |c.cache[op]| && c.cache[op][i].key == key && c.cache[op][i].timer.Some?
  }

  /** The timer of key `key` of `op` fires: `taskCache.delete(args)`
      (src/index.js:59-61). */
  function Evict(c: CacheState, op: Op, key: KeyId): CacheState
  {
    c.(cache := c.cache[op := RemoveKey(BucketOf(c, op), key)])
  }

  /** What the handler does with an action: returns a task, hands the action
      to `next` unchanged, or throws. */
  datatype Outcome = Handled(task: Task) | PassedOn(action: Action) | Failed(error: string)

  /** A stored entry together with the function it belongs to. */
  datatype Slot = Slot(fn: Op, entry: Entry)

  /** The entries of one task cache, tagged with their function. */
  function Slots(op: Op, entries: seq<Entry>): (r: seq<Slot>)
    ensures |r| == |entries|
  {
    if entries == [] then []
    else Slots(op, entries[..|entries| - 1]) + [Slot(op, entries[|entries| - 1])]
  }

  /** Every live entry: by function in `ops` order, then by key insertion. */
  function Live(ops: seq<Op>, cache: map<Op, seq<Entry>>): seq<Slot>
  {
    if ops == [] then []
    else
      var last := ops[|ops| - 1];
      Live(ops[..|ops| - 1], cache) + (if last in cache then Slots(last, cache[last]) else [])
  }

  /** The task of each slot. */
  function TasksOf(slots: seq<Slot>): (r: seq<Task>)
    ensures |r| == |slots|
    ensures forall k :: 0 <= k < |slots| ==> r[k] == slots[k].entry.task
  {
    seq(|slots|, k requires 0 <= k < |slots| => slots[k].entry.task)
  }

  class MemoizeMiddleware {
    /** `opts.disableTTL`. */
    const disableTTL: bool
    /** `options.globalOptions`. */
    const globalOptions: Option<Meta>
    /** The keys of `cache`, in insertion order. */
    var fns: seq<Op>
    /** `cache`: each function's task cache. */
    var cache: map<Op, seq<Entry>>
    /** Identity of the next `args` object stored as a key. */
    var nextKey: KeyId
    /** Identity of the next promise made by `Promise.resolve`. */
    var nextSerial: nat

    function Snapshot(): CacheState
      reads this
    {
      CacheState(fns, cache, nextKey, nextSerial)
    }

    ghost predicate Valid()
      reads this
    {
      Consistent(Snapshot(), disableTTL)
    }

    /** `createMemoizeMiddleware(options)`: `disableTTL` defaults to true
        outside a browser; the cache starts empty. */
    constructor (options: Options, canUseDOM: bool)
      ensures Valid()
      ensures disableTTL == (if options.disableTTL.Some? then options.disableTTL.value else !canUseDOM)
      ensures globalOptions == options.globalOptions
      ensures Snapshot() == CacheState([], map[], 0, 0)
    {
      disableTTL := if options.disableTTL.Some? then options.disableTTL.value else !canUseDOM;
      globalOptions := options.globalOptions;
      fns := [];
      cache := map[];
      nextKey := 0;
      nextSerial := 0;
    }

    /** The action handler: a memoize action is run or answered from the
        cache, any other action goes to `next` untouched (src/index.js:36-71). */
    method Handle(action: Action, store: Store) returns (out: Outcome)
      requires Valid()
      modifies this, store
      ensures Valid()
      ensures !IsMemoAction(action) || action.payload.None? ==> unchanged(this) && unchanged(store)
      ensures action.NullAction? || (IsMemoAction(action) && action.payload.None?) ==> out.Failed?
      ensures !action.NullAction? && !IsMemoAction(action) ==> out == PassedOn(action)
      ensures IsMemoAction(action) && action.payload.Some? ==>
        var r := MemoStep(old(Snapshot()), old(store.View()), store.executor, disableTTL,
                          action.payload.value.fn, action.payload.value.args,
                          Resolve(globalOptions, action.meta));
        Snapshot() == r.cache && store.View() == r.store && out == Handled(r.task)
    {
      if action.NullAction? {
        return Failed("TypeError: Cannot read properties of null (reading 'type')");
      }
      if !IsMemoAction(action) {
        return PassedOn(action);
      }
      if action.payload.None? {
        return Failed("TypeError: Cannot destructure 'action.payload'");
      }
      var task := Memoized(action.payload.value.fn, action.payload.value.args,
                           Resolve(globalOptions, action.meta), store);
      out := Handled(task);
    }

    /** A memoize action for `fn` and `args` under the resolved policy. */
    method Memoized(op: Op, args: Args, policy: Settings, store: Store) returns (task: Task)
      requires Valid()
      modifies this, store
      ensures Valid()
      ensures StepResult(Snapshot(), store.View(), task)
           == MemoStep(old(Snapshot()), old(store.View()), store.executor, disableTTL, op, args, policy)
    {
      ghost var r := MemoStep(Snapshot(), store.View(), store.executor, disableTTL, op, args, policy);
      MemoStepConsistent(Snapshot(), store.View(), store.executor, disableTTL, op, args, policy);
      if op !in cache {
        cache := cache[op := []];
        fns := fns + [op];
      }
      ghost var registered := Snapshot();
      assert registered == Register(old(Snapshot()), op);
      if Eval(policy.enabled, store.state) {
        task := LookupOrRun(op, args, policy, store);
      } else {
        task := RunUnmemoized(op, args, store);
      }
      assert StepResult(Snapshot(), store.View(), task) == r;
    }

    /** The disabled path: run and wrap, store nothing. */
    method RunUnmemoized(op: Op, args: Args, store: Store) returns (task: Task)
      modifies this`nextSerial, store
      ensures StepResult(Snapshot(), store.View(), task)
           == RunAndWrap(old(Snapshot()), old(store.View()), store.executor, Call(op, args))
    {
      var result := store.Run(Call(op, args));
      task := Normalize(result, nextSerial);
      nextSerial := nextSerial + 1;
    }

    /** The enabled path: `deepGet`, then on a miss run, wrap and store. */
    method LookupOrRun(op: Op, args: Args, policy: Settings, store: Store) returns (task: Task)
      requires op in cache
      modifies this`cache, this`nextKey, this`nextSerial, store
      ensures StepResult(Snapshot(), store.View(), task)
           == LookupStep(old(Snapshot()), old(store.View()), store.executor, disableTTL, op, args, policy)
    {
      var found := DeepGet(cache[op], args, policy.isEqual);
      if found.Some? {
        return found.value;
      }
      var result := store.Run(Call(op, args));
      task := Normalize(result, nextSerial);
      nextSerial := nextSerial + 1;
      var finalTTL := Eval(policy.ttl, store.state);
      if finalTTL != 0 {
        var entry := Entry(nextKey, args, task, if disableTTL then None else Some(finalTTL));
        cache := cache[op := cache[op] + [entry]];
        nextKey := nextKey + 1;
      }
    }

    /** The timer armed for key `key` of `op` fires. */
    method FireEviction(op: Op, key: KeyId)
      requires Valid()
      requires Armed(Snapshot(), op, key)
      modifies this`cache
      ensures Valid()
      ensures Snapshot() == Evict(old(Snapshot()), op, key)
    {
      ghost var before := Snapshot();
      EvictConsistent(before, disableTTL, op, key);
      cache := cache[op := RemoveKey(cache[op], key)];
      assert Snapshot() == Evict(before, op, key);
    }

    /** `middleware.getAll()`: every stored task, by function and then by key
        insertion order. */
    method GetAll() returns (result: seq<Task>)
      requires Valid()
      ensures result == TasksOf(Live(fns, cache))
    {
      var ops, buckets := fns, cache;
      result := [];
      var i := 0;
      while i < |ops|
        invariant 0 <= i <= |ops|
        invariant result == TasksOf(Live(ops[..i], buckets))
      {
        var op := ops[i];
        var tasks := BucketTasks(op, buckets[op]);
        LiveSnoc(ops, i, buckets);
        TasksOfAppend(Live(ops[..i], buckets), Slots(op, buckets[op]));
        result := result + tasks;
        i := i + 1;
      }
      assert ops[..i] == ops;
    }
  }

  /** The inner loop of `getAll`: the tasks of one task cache, in key
      insertion order. */
  method BucketTasks(op: Op, entries: seq<Entry>) returns (tasks: seq<Task>)
    ensures tasks == TasksOf(Slots(op, entries))
  {
    tasks := [];
    var j := 0;
    while j < |entries|
      invariant 0 <= j <= |entries|
      invariant tasks == TasksOf(Slots(op, entries[..j]))
    {
      assert entries[..j + 1][..j] == entries[..j];
      tasks := tasks + [entries[j].task];
      j := j + 1;
    }
    assert entries[..j] == entries;
  }

  /** The outer loop's step: one more function's entries. */
  lemma LiveSnoc(ops: seq<Op>, i: nat, cache: map<Op, seq<Entry>>)
    requires i < |ops|
    ensures Live(ops[..i + 1], cache)
         == Live(ops[..i], cache) + (if ops[i] in cache then Slots(ops[i], cache[ops[i]]) else [])
  {
    assert ops[..i + 1][..i] == ops[..i];
  }

  /** `TasksOf` distributes over concatenation. */
  lemma TasksOfAppend(a: seq<Slot>, b: seq<Slot>)
    ensures TasksOf(a + b) == TasksOf(a) + TasksOf(b)
  {
  }

  /** The options given to `createMemoizeMiddleware`: `disableTTL` (absent
      when `None`) and `globalOptions` (absent or falsy when `None`). */
  datatype Options = Options(disableTTL: Option<bool>, globalOptions: Option<Meta>)

  // ---------------------------------------------------------------------
  // The invariant is kept

  /** Issuing more keys and serials keeps a task cache well formed. */
  lemma BucketOkLater(entries: seq<Entry>, nextKey: KeyId, nextSerial: nat, nextKey': KeyId, nextSerial': nat, disableTTL: bool)
    requires BucketOk(entries, nextKey, nextSerial, disableTTL)
    requires nextKey <= nextKey' && nextSerial <= nextSerial'
    ensures BucketOk(entries, nextKey', nextSerial', disableTTL)
  {
  }

  /** Appending an entry under a fresh key keeps a task cache well formed. */
  lemma BucketOkAppend(entries: seq<Entry>, e: Entry, nextKey: KeyId, nextSerial: nat, disableTTL: bool)
    requires BucketOk(entries, nextKey, nextSerial, disableTTL)
    requires e.key == nextKey
    requires e.task.Resolved? ==> e.task.serial < nextSerial
    requires (e.timer.Some? <==> !disableTTL) && e.timer != Some(0)
    ensures BucketOk(entries + [e], nextKey + 1, nextSerial, disableTTL)
  {
    var s := entries + [e];
    assert forall i :: 0 <= i < |entries| ==> s[i] == entries[i];
  }

  /** Removing the entry at `i` keeps a task cache well formed. */
  lemma BucketOkRemove(entries: seq<Entry>, i: nat, nextKey: KeyId, nextSerial: nat, disableTTL: bool)
    requires BucketOk(entries, nextKey, nextSerial, disableTTL)
    requires i < |entries|
    ensures BucketOk(entries[..i] + entries[i + 1..], nextKey, nextSerial, disableTTL)
  {
    var s := entries[..i] + entries[i + 1..];
    assert forall j :: 0 <= j < |s| ==> s[j] == entries[if j < i then j else j + 1];
  }

  /** Issuing more keys and serials keeps the middleware consistent. */
  lemma ConsistentLater(c: CacheState, disableTTL: bool, nextKey: KeyId, nextSerial: nat)
    requires Consistent(c, disableTTL)
    requires c.nextKey <= nextKey && c.nextSerial <= nextSerial
    ensures Consistent(c.(nextKey := nextKey, nextSerial := nextSerial), disableTTL)
  {
    forall op | op in c.cache
      ensures BucketOk(c.cache[op], nextKey, nextSerial, disableTTL)
    {
      BucketOkLater(c.cache[op], c.nextKey, c.nextSerial, nextKey, nextSerial, disableTTL);
    }
  }

  /** Registering a function keeps the middleware consistent. */
  lemma RegisterConsistent(c: CacheState, disableTTL: bool, op: Op)
    requires Consistent(c, disableTTL)
    ensures Consistent(Register(c, op), disableTTL)
  {
    if op !in c.cache {
      var reg := Register(c, op);
      assert forall i :: 0 <= i < |c.fns| ==> reg.fns[i] == c.fns[i];
      assert reg.fns[|c.fns|] == op;
    }
  }

  /** Storing a task after a miss keeps the middleware consistent. */
  lemma LookupStepConsistent(c: CacheState, s: StoreView, ex: Executor, disableTTL: bool,
                             op: Op, args: Args, policy: Settings)
    requires Consistent(c, disableTTL) && op in c.cache
    ensures Consistent(LookupStep(c, s, ex, disableTTL, op, args, policy).cache, disableTTL)
  {
    var before := BucketOf(c, op);
    if FirstMatch(before, args, policy.isEqual).None? {
      var ran := RunAndWrap(c, s, ex, Call(op, args));
      var ttl := Eval(policy.ttl, ran.store.state);
      if ttl == 0 {
        ConsistentLater(c, disableTTL, c.nextKey, c.nextSerial + 1);
      } else {
        var e := Entry(c.nextKey, args, ran.task, if disableTTL then None else Some(ttl));
        var c2 := CacheState(c.fns, c.cache[op := before + [e]], c.nextKey + 1, c.nextSerial + 1);
        assert LookupStep(c, s, ex, disableTTL, op, args, policy).cache == c2;
        forall o | o in c2.cache
          ensures BucketOk(c2.cache[o], c2.nextKey, c2.nextSerial, disableTTL)
        {
          if o == op {
            BucketOkLater(before, c.nextKey, c.nextSerial, c.nextKey, c.nextSerial + 1, disableTTL);
            BucketOkAppend(before, e, c.nextKey, c.nextSerial + 1, disableTTL);
          } else {
            BucketOkLater(c.cache[o], c.nextKey, c.nextSerial, c2.nextKey, c2.nextSerial, disableTTL);
          }
        }
      }
    }
  }

  /** Every memoize action keeps the middleware consistent. */
  lemma MemoStepConsistent(c: CacheState, s: StoreView, ex: Executor, disableTTL: bool,
                           op: Op, args: Args, policy: Settings)
    requires Consistent(c, disableTTL)
    ensures Consistent(MemoStep(c, s, ex, disableTTL, op, args, policy).cache, disableTTL)
  {
    var reg := Register(c, op);
    RegisterConsistent(c, disableTTL, op);
    if Eval(policy.enabled, s.state) {
      LookupStepConsistent(reg, s, ex, disableTTL, op, args, policy);
    } else {
      ConsistentLater(reg, disableTTL, reg.nextKey, reg.nextSerial + 1);
      assert MemoStep(c, s, ex, disableTTL, op, args, policy).cache == reg.(nextSerial := reg.nextSerial + 1);
    }
  }

  /** Firing an armed timer keeps the middleware consistent and removes
      exactly the entry with that key, keeping the order of the others. */
  lemma EvictConsistent(c: CacheState, disableTTL: bool, op: Op, key: KeyId)
    requires Consistent(c, disableTTL)
    requires Armed(c, op, key)
    ensures Consistent(Evict(c, op, key), disableTTL)
    ensures exists i :: 0 <= i < |c.cache[op]| && c.cache[op][i].key == key &&
                        Evict(c, op, key).cache[op] == c.cache[op][..i] + c.cache[op][i + 1..]
  {
    var entries := c.cache[op];
    var i :| 0 <= i < |entries| && entries[i].key == key && entries[i].timer.Some?;
    assert forall j :: 0 <= j < i ==> entries[j].key != entries[i].key;
    RemoveKeyAt(entries, i);
    BucketOkRemove(entries, i, c.nextKey, c.nextSerial, disableTTL);
  }

  // ---------------------------------------------------------------------
  // What one memoize action does

  /** Registering is idempotent and only ever adds an empty task cache. */
  lemma RegisterKeepsBuckets(c: CacheState, op: Op)
    ensures Register(Register(c, op), op) == Register(c, op)
    ensures forall o :: BucketOf(Register(c, op), o) == BucketOf(c, o)
    ensures op in Register(c, op).cache
  {
  }

  /** The effect of one memoize action, case by case: with caching enabled
      and an equal key stored, the first such key's task comes back and
      nothing runs or changes; otherwise `fn(...args)` runs exactly once and
      its normalized result comes back, and an entry is appended to `fn`'s
      task cache exactly when caching is enabled and the ttl read after the
      run is nonzero. No other function's task cache changes. */
  lemma MemoStepEffect(c: CacheState, s: StoreView, ex: Executor, disableTTL: bool,
                       op: Op, args: Args, policy: Settings)
    ensures var r := MemoStep(c, s, ex, disableTTL, op, args, policy);
      var before, after := BucketOf(c, op), BucketOf(r.cache, op);
      var enabled := Eval(policy.enabled, s.state);
      var hit := FirstMatch(before, args, policy.isEqual);
      var call := Call(op, args);
      var stored := enabled && hit.None? && Eval(policy.ttl, ex.reducer(s.state, call)) != 0;
      && (forall o :: o != op ==> BucketOf(r.cache, o) == BucketOf(c, o))
      && (enabled && hit.Some? ==>
            r.task == before[hit.value].task && r.store == s && r.cache == c)
      && (!(enabled && hit.Some?) ==>
            && r.store.log == s.log + [call]
            && r.store.state == ex.reducer(s.state, call)
            && r.task == Normalize(ex.outcome(s, call), c.nextSerial)
            && |after| == |before| + (if stored then 1 else 0)
            && after[..|before|] == before
            && (stored ==> after[|before|] == Entry(c.nextKey, args, r.task,
                              if disableTTL then None else Some(Eval(policy.ttl, r.store.state)))))
  {
    var r := MemoStep(c, s, ex, disableTTL, op, args, policy);
    var before := BucketOf(c, op);
    RegisterKeepsBuckets(c, op);
    if Eval(policy.enabled, s.state) && FirstMatch(before, args, policy.isEqual).Some? {
      assert op in c.cache;
    }
  }

  /** Lookup-before-insert: if no two keys stored for `fn` are equal under
      the equivalence this call uses, the same holds afterwards. */
  lemma MemoStepKeepsKeysApart(c: CacheState, s: StoreView, ex: Executor, disableTTL: bool,
                               op: Op, args: Args, policy: Settings)
    requires NoTwoEqual(BucketOf(c, op), policy.isEqual)
    ensures NoTwoEqual(BucketOf(MemoStep(c, s, ex, disableTTL, op, args, policy).cache, op), policy.isEqual)
  {
    var r := MemoStep(c, s, ex, disableTTL, op, args, policy);
    var before := BucketOf(c, op);
    MemoStepEffect(c, s, ex, disableTTL, op, args, policy);
    var after := BucketOf(r.cache, op);
    if |after| != |before| {
      assert after == before + [after[|before|]];
      InsertAfterMissKeepsKeysApart(before, args, policy.isEqual, after[|before|]);
    } else {
      assert after == before;
    }
  }

  /** A timer firing keeps the stored keys of its function pairwise unequal
      under any equivalence they were unequal under before. */
  lemma EvictKeepsKeysApart(c: CacheState, disableTTL: bool, op: Op, key: KeyId, eq: Equality)
    requires Consistent(c, disableTTL)
    requires Armed(c, op, key)
    requires NoTwoEqual(BucketOf(c, op), eq)
    ensures NoTwoEqual(BucketOf(Evict(c, op, key), op), eq)
  {
    var entries := c.cache[op];
    var i :| 0 <= i < |entries| && entries[i].key == key && entries[i].timer.Some?;
    RemoveKeepsKeysApart(entries, i, eq);
  }

  /** The core guarantee: once a call has stored its task, an identical call
      (same function, same arguments, an equivalence under which the
      arguments equal themselves) issued while caching is enabled runs
      nothing, changes nothing, and returns that very task. */
  lemma RepeatCallReusesTask(c: CacheState, s: StoreView, s': StoreView, ex: Executor, ex': Executor,
                             disableTTL: bool, op: Op, args: Args, policy: Settings)
    requires Eval(policy.enabled, s.state) && Eval(policy.enabled, s'.state)
    requires FirstMatch(BucketOf(c, op), args, policy.isEqual).None?
    requires Eval(policy.ttl, ex.reducer(s.state, Call(op, args))) != 0
    requires policy.isEqual(args, args)
    ensures var r1 := MemoStep(c, s, ex, disableTTL, op, args, policy);
      var r2 := MemoStep(r1.cache, s', ex', disableTTL, op, args, policy);
      r2.task == r1.task && r2.store == s' && r2.cache == r1.cache
  {
    var r1 := MemoStep(c, s, ex, disableTTL, op, args, policy);
    var before := BucketOf(c, op);
    MemoStepEffect(c, s, ex, disableTTL, op, args, policy);
    var after := BucketOf(r1.cache, op);
    assert after == before + [after[|before|]];
    RepeatCallFindsStoredEntry(before, args, policy.isEqual, after[|before|]);
    MemoStepEffect(r1.cache, s', ex', disableTTL, op, args, policy);
  }

  /** With a ttl of 0 nothing is kept: an identical call afterwards finds no
      more than before and runs the work again. */
  lemma ZeroTtlRunsAgain(c: CacheState, s: StoreView, s': StoreView, ex: Executor, ex': Executor,
                         disableTTL: bool, op: Op, args: Args, policy: Settings)
    requires Eval(policy.enabled, s.state)
    requires FirstMatch(BucketOf(c, op), args, policy.isEqual).None?
    requires Eval(policy.ttl, ex.reducer(s.state, Call(op, args))) == 0
    ensures var r1 := MemoStep(c, s, ex, disableTTL, op, args, policy);
      var r2 := MemoStep(r1.cache, s', ex', disableTTL, op, args, policy);
      && BucketOf(r1.cache, op) == BucketOf(c, op)
      && r2.store.log == s'.log + [Call(op, args)]
  {
    var r1 := MemoStep(c, s, ex, disableTTL, op, args, policy);
    MemoStepEffect(c, s, ex, disableTTL, op, args, policy);
    assert BucketOf(r1.cache, op) == BucketOf(c, op);
    MemoStepEffect(r1.cache, s', ex', disableTTL, op, args, policy);
  }

  /** A call made while caching is disabled leaves `fn`'s task cache as it
      was, so no later call can hit on it; the work runs every time. */
  lemma DisabledLeavesNoEntry(c: CacheState, s: StoreView, ex: Executor, disableTTL: bool,
                              op: Op, args: Args, policy: Settings)
    requires !Eval(policy.enabled, s.state)
    ensures var r := MemoStep(c, s, ex, disableTTL, op, args, policy);
      && BucketOf(r.cache, op) == BucketOf(c, op)
      && r.cache.fns == (if op in c.cache then c.fns else c.fns + [op])
      && r.store.log == s.log + [Call(op, args)]
  {
    MemoStepEffect(c, s, ex, disableTTL, op, args, policy);
    var r := MemoStep(c, s, ex, disableTTL, op, args, policy);
    assert BucketOf(r.cache, op)[..|BucketOf(c, op)|] == BucketOf(r.cache, op);
  }

  // ---------------------------------------------------------------------
  // Eviction

  /** When `disableTTL` is set no timer is ever pending, so no entry is ever
      removed. */
  lemma NothingArmedWhenTtlDisabled(c: CacheState, op: Op, key: KeyId)
    requires Consistent(c, true)
    ensures !Armed(c, op, key)
  {
  }

  /** Firing a timer changes nothing but the one task cache it belongs to. */
  lemma EvictTouchesOneBucket(c: CacheState, op: Op, key: KeyId)
    ensures var c' := Evict(c, op, key);
      && c'.fns == c.fns && c'.nextKey == c.nextKey && c'.nextSerial == c.nextSerial
      && (forall o :: o != op ==> BucketOf(c', o) == BucketOf(c, o))
  {
  }

  /** After the timer armed by a stored call fires, the identical call finds
      nothing it did not find the first time, so it runs the work again. */
  lemma EvictedCallRunsAgain(c: CacheState, s: StoreView, s': StoreView, ex: Executor, ex': Executor,
                             op: Op, args: Args, policy: Settings)
    requires Consistent(c, false)
    requires Eval(policy.enabled, s.state) && Eval(policy.enabled, s'.state)
    requires FirstMatch(BucketOf(c, op), args, policy.isEqual).None?
    requires Eval(policy.ttl, ex.reducer(s.state, Call(op, args))) != 0
    ensures var r1 := MemoStep(c, s, ex, false, op, args, policy);
      var evicted := Evict(r1.cache, op, c.nextKey);
      var r2 := MemoStep(evicted, s', ex', false, op, args, policy);
      && Armed(r1.cache, op, c.nextKey)
      && BucketOf(evicted, op) == BucketOf(c, op)
      && r2.store.log == s'.log + [Call(op, args)]
  {
    var r1 := MemoStep(c, s, ex, false, op, args, policy);
    var before := BucketOf(c, op);
    MemoStepEffect(c, s, ex, false, op, args, policy);
    var after := BucketOf(r1.cache, op);
    var e := after[|before|];
    assert after == before + [e];
    assert op in r1.cache.cache && r1.cache.cache[op] == after;
    assert Armed(r1.cache, op, c.nextKey) by {
      assert after[|before|].key == c.nextKey && after[|before|].timer.Some?;
    }
    assert forall j :: 0 <= j < |before| ==> before[j].key < c.nextKey by {
      if op in c.cache {
        assert BucketOk(c.cache[op], c.nextKey, c.nextSerial, false);
      }
    }
    assert forall j :: 0 <= j < |before| ==> after[j].key != after[|before|].key;
    RemoveKeyAt(after, |before|);
    assert after[..|before|] + after[|before| + 1..] == before;
    var evicted := Evict(r1.cache, op, c.nextKey);
    assert BucketOf(evicted, op) == before;
    MemoStepEffect(evicted, s', ex', false, op, args, policy);
  }

  // ---------------------------------------------------------------------
  // Enumeration

  /** The number of entries stored under the functions `ops`. */
  function EntryCount(ops: seq<Op>, cache: map<Op, seq<Entry>>): nat
  {
    if ops == [] then 0
    else
      var last := ops[|ops| - 1];
      EntryCount(ops[..|ops| - 1], cache) + (if last in cache then |cache[last]| else 0)
  }

  /** Enumerating yields as many tasks as there are stored entries. */
  lemma {:induction false} LiveLength(ops: seq<Op>, cache: map<Op, seq<Entry>>)
    ensures |Live(ops, cache)| == EntryCount(ops, cache)
  {
    if ops != [] {
      LiveLength(ops[..|ops| - 1], cache);
    }
  }

  /** Within one task cache, each entry is tagged exactly once. */
  lemma {:induction false} SlotsExactlyOnce(op: Op, entries: seq<Entry>, o: Op, e: Entry)
    requires KeysDistinct(entries)
    ensures multiset(Slots(op, entries))[Slot(o, e)] == if o == op && e in entries then 1 else 0
  {
    if entries != [] {
      var n := |entries| - 1;
      var init := entries[..n];
      assert KeysDistinct(init);
      SlotsExactlyOnce(op, init, o, e);
      assert entries == init + [entries[n]];
    }
  }

  /** Every entry of every function in `ops` is enumerated exactly once, and
      nothing else is. */
  lemma {:induction false} LiveExactlyOnce(ops: seq<Op>, cache: map<Op, seq<Entry>>, o: Op, e: Entry)
    requires forall i, j :: 0 <= i < j < |ops| ==> ops[i] != ops[j]
    requires forall op :: op in cache ==> KeysDistinct(cache[op])
    ensures multiset(Live(ops, cache))[Slot(o, e)] == if o in ops && o in cache && e in cache[o] then 1 else 0
  {
    if ops != [] {
      var n := |ops| - 1;
      var init, last := ops[..n], ops[n];
      assert forall i, j :: 0 <= i < j < |init| ==> init[i] != init[j];
      LiveExactlyOnce(init, cache, o, e);
      var tail := if last in cache then Slots(last, cache[last]) else [];
      assert Live(ops, cache) == Live(init, cache) + tail;
      assert multiset(Live(ops, cache)) == multiset(Live(init, cache)) + multiset(tail);
      if last in cache {
        SlotsExactlyOnce(last, cache[last], o, e);
      }
      assert o in ops <==> o in init || o == last;
      assert last !in init;
    }
  }

  /** `getAll()` is complete: each stored entry's task appears exactly once,
      nothing else appears, and the number of tasks is the number of stored
      entries. */
  lemma GetAllExactlyOnce(c: CacheState, disableTTL: bool, o: Op, e: Entry)
    requires Consistent(c, disableTTL)
    ensures multiset(Live(c.fns, c.cache))[Slot(o, e)] == if o in c.cache && e in c.cache[o] then 1 else 0
    ensures |TasksOf(Live(c.fns, c.cache))| == EntryCount(c.fns, c.cache)
  {
    LiveExactlyOnce(c.fns, c.cache, o, e);
    LiveLength(c.fns, c.cache);
  }
}
