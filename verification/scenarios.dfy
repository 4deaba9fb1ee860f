/** The middleware's behaviour on the call sequences its test suite drives
    (test/middleware.spec.js), replayed against the model with a counter
    store. */
module Scenarios {
  import opened Wrappers
  import opened Values
  import opened Policy
  import opened Actions
  import opened TaskCache
  import opened Memo

  /** The counter kept under "data". */
  function Data(s: AppState): int
  {
    if "data" in s && s["data"].Num? then s["data"].n else 0
  }

  /** The first argument, as a number. */
  function Amount(args: Args): int
  {
    if |args| > 0 && args[0].Num? then args[0].n else 0
  }

  /** The store's reducer for the `INCREMENT` action each memoized creator
      returns: add the first argument to "data". */
  function Increment(s: AppState, c: Call): AppState
  {
    s["data" := Num(Data(s) + Amount(c.args))]
  }

  /** `dispatch` of a plain action returns the action object, which is not a
      thenable. */
  function PlainActionObject(s: StoreView, c: Call): Value
  {
    Obj(c.fn, false)
  }

  /** The `memoize({ ttl })` option. */
  function TtlOption(ttl: Dyn<int>): Option<Meta>
  {
    Some(Meta(Some(ttl), None, None))
  }

  /** The store of the test suite: a counter under "data". */
  function Counter(): Executor
  {
    Executor(Increment, PlainActionObject)
  }

  /** A freshly created middleware. */
  function Fresh(): CacheState
  {
    CacheState([], map[], 0, 0)
  }

  /** Dispatching `f(...args)` for the action creator `memoize(options)(f)`
      through a middleware made with default options. */
  function Dispatch(c: CacheState, s: StoreView, disableTTL: bool, options: Option<Meta>, args: Args): StepResult
  {
    MemoStep(c, s, Counter(), disableTTL, 1, args, Resolve(None, options))
  }

  /** The increment adds the amount to the counter and leaves every other
      key of the state as it was. */
  lemma IncrementAdds(s: AppState, c: Call)
    ensures Data(Increment(s, c)) == Data(s) + Amount(c.args)
    ensures forall k :: k != "data" ==> (k in Increment(s, c) <==> k in s)
    ensures forall k :: k != "data" && k in s ==> Increment(s, c)[k] == s[k]
  {
  }

  /** The entries stored under a single registered function. */
  lemma EntryCountOne(op: Op, cache: map<Op, seq<Entry>>)
    requires op in cache
    ensures EntryCount([op], cache) == |cache[op]|
  {
    assert [op][..0] == [];
  }

  /** A miss on the counter store: the increment runs once and its action
      object comes back wrapped in a fresh promise; it is stored under a
      fresh key exactly when the ttl read afterwards is nonzero. */
  lemma CounterMiss(c: CacheState, s: StoreView, disableTTL: bool, args: Args, policy: Settings)
    requires Eval(policy.enabled, s.state)
    requires FirstMatch(BucketOf(c, 1), args, policy.isEqual).None?
    ensures var call := Call(1, args);
      var r := MemoStep(c, s, Counter(), disableTTL, 1, args, policy);
      var ttl := Eval(policy.ttl, Increment(s.state, call));
      && r.store == StoreView(Increment(s.state, call), s.log + [call])
      && Data(r.store.state) == Data(s.state) + Amount(args) && |r.store.log| == |s.log| + 1
      && r.task == Resolved(c.nextSerial, Obj(1, false))
      && 1 in r.cache.cache && r.cache.fns == Register(c, 1).fns
      && BucketOf(r.cache, 1) == BucketOf(c, 1) +
           (if ttl == 0 then [] else [Entry(c.nextKey, args, r.task, if disableTTL then None else Some(ttl))])
      && r.cache.nextKey == (if ttl == 0 then c.nextKey else c.nextKey + 1)
      && r.cache.nextSerial == c.nextSerial + 1
  {
    var r := MemoStep(c, s, Counter(), disableTTL, 1, args, policy);
    MemoStepEffect(c, s, Counter(), disableTTL, 1, args, policy);
    RegisterKeepsBuckets(c, 1);
    IncrementAdds(s.state, Call(1, args));
    var before, after := BucketOf(c, 1), BucketOf(r.cache, 1);
    if |after| == |before| {
      assert after == after[..|before|];
    } else {
      assert after == after[..|before|] + [after[|before|]];
    }
  }

  /** A hit on the counter store: the stored task comes back and nothing
      runs or changes. */
  lemma CounterHit(c: CacheState, s: StoreView, disableTTL: bool, args: Args, policy: Settings, i: nat)
    requires Eval(policy.enabled, s.state)
    requires FirstMatch(BucketOf(c, 1), args, policy.isEqual) == Some(i)
    ensures MemoStep(c, s, Counter(), disableTTL, 1, args, policy) == StepResult(c, s, BucketOf(c, 1)[i].task)
  {
    MemoStepEffect(c, s, Counter(), disableTTL, 1, args, policy);
  }

  /** A call on the counter store while caching is disabled: the increment
      runs and nothing is stored. */
  lemma CounterOff(c: CacheState, s: StoreView, disableTTL: bool, args: Args, policy: Settings)
    requires !Eval(policy.enabled, s.state)
    ensures var call := Call(1, args);
      var r := MemoStep(c, s, Counter(), disableTTL, 1, args, policy);
      && r.store == StoreView(Increment(s.state, call), s.log + [call])
      && Data(r.store.state) == Data(s.state) + Amount(args) && |r.store.log| == |s.log| + 1
      && r.task == Resolved(c.nextSerial, Obj(1, false))
      && BucketOf(r.cache, 1) == BucketOf(c, 1)
      && r.cache.nextSerial == c.nextSerial + 1
  {
    DisabledLeavesNoEntry(c, s, Counter(), disableTTL, 1, args, policy);
    IncrementAdds(s.state, Call(1, args));
    MemoStepEffect(c, s, Counter(), disableTTL, 1, args, policy);
  }

  /** Test 'use with common action' (test/middleware.spec.js:203-245), for
      any store, any two distinct amounts and any nonzero ttl (the test uses
      2, 3 and 200): `f(x)`, `f(y)`, `f(x)` run the work twice; the first and
      third calls share one task, the second gets its own; two tasks are
      stored and the counter grows by `x + y`. */
  lemma RepeatedCallsShareOneTask(s0: StoreView, x: int, y: int, ttl: int, disableTTL: bool,
                                  r1: StepResult, r2: StepResult, r3: StepResult)
    requires x != y && ttl != 0
    requires r1 == Dispatch(Fresh(), s0, disableTTL, TtlOption(Static(ttl)), [Num(x)])
    requires r2 == Dispatch(r1.cache, r1.store, disableTTL, TtlOption(Static(ttl)), [Num(y)])
    requires r3 == Dispatch(r2.cache, r2.store, disableTTL, TtlOption(Static(ttl)), [Num(x)])
    ensures r1.task == r3.task && r1.task != r2.task
    ensures |r3.store.log| == |s0.log| + 2 && Data(r3.store.state) == Data(s0.state) + x + y
    ensures EntryCount(r3.cache.fns, r3.cache.cache) == 2
  {
    var policy := Resolve(None, TtlOption(Static(ttl)));
    CounterMiss(Fresh(), s0, disableTTL, [Num(x)], policy);
    var e1 := Entry(0, [Num(x)], r1.task, if disableTTL then None else Some(ttl));
    assert BucketOf(r1.cache, 1) == [e1] && r1.cache.fns == [1];
    assert FirstMatch([e1], [Num(y)], policy.isEqual).None? by {
      assert [Num(x)] != [Num(y)];
    }
    CounterMiss(r1.cache, r1.store, disableTTL, [Num(y)], policy);
    var e2 := Entry(1, [Num(y)], r2.task, if disableTTL then None else Some(ttl));
    assert BucketOf(r2.cache, 1) == [e1, e2];
    assert FirstMatch([e1, e2], [Num(x)], policy.isEqual) == Some(0);
    CounterHit(r2.cache, r2.store, disableTTL, [Num(x)], policy, 0);
    EntryCountOne(1, r2.cache.cache);
  }

  /** The middleware after `f(x)`, `f(y)` with timers on: two entries
      under keys 0 and 1 in `f`'s task cache, each armed with `ttl`, and two
      keys and two promises issued. */
  predicate AfterTwoTimedCalls(c: CacheState, x: int, y: int, ttl: int)
  {
    && BucketOf(c, 1) == [Entry(0, [Num(x)], Resolved(0, Obj(1, false)), Some(ttl)),
                          Entry(1, [Num(y)], Resolved(1, Obj(1, false)), Some(ttl))]
    && c.nextKey == 2 && c.nextSerial == 2
  }

  /** First half of test 'use with common action, disableTTL = false
      (Browser)' (ttl 50 there): `f(x)`, `f(y)`, `f(x)` with timers on leave
      both tasks stored and armed, the third call reusing the first task. */
  lemma TimedCallsShareOneTask(s0: StoreView, x: int, y: int, ttl: int,
                               r1: StepResult, r2: StepResult, r3: StepResult)
    requires x != y && ttl != 0
    requires r1 == Dispatch(Fresh(), s0, false, TtlOption(Static(ttl)), [Num(x)])
    requires r2 == Dispatch(r1.cache, r1.store, false, TtlOption(Static(ttl)), [Num(y)])
    requires r3 == Dispatch(r2.cache, r2.store, false, TtlOption(Static(ttl)), [Num(x)])
    ensures r1.task == r3.task == Resolved(0, Obj(1, false)) && r2.task != r1.task
    ensures AfterTwoTimedCalls(r3.cache, x, y, ttl)
    ensures |r3.store.log| == |s0.log| + 2 && Data(r3.store.state) == Data(s0.state) + x + y
  {
    var policy := Resolve(None, TtlOption(Static(ttl)));
    var e1 := Entry(0, [Num(x)], Resolved(0, Obj(1, false)), Some(ttl));
    var e2 := Entry(1, [Num(y)], Resolved(1, Obj(1, false)), Some(ttl));
    CounterMiss(Fresh(), s0, false, [Num(x)], policy);
    assert BucketOf(r1.cache, 1) == [e1] && r1.cache.fns == [1];
    assert FirstMatch([e1], [Num(y)], policy.isEqual).None? by {
      assert [Num(x)] != [Num(y)];
    }
    CounterMiss(r1.cache, r1.store, false, [Num(y)], policy);
    assert BucketOf(r2.cache, 1) == [e1, e2];
    assert FirstMatch([e1, e2], [Num(x)], policy.isEqual) == Some(0);
    CounterHit(r2.cache, r2.store, false, [Num(x)], policy, 0);
    assert r2.cache.cache[1][0] == e1;
  }

  /** Second part of test 'use with common action, disableTTL = false
      (Browser)' (test/middleware.spec.js:282-299), the timer firing made an
      explicit step, continuing from `f(x)`, `f(y)`, `f(x)`: once the timer
      of the first key fires, `f(x)` runs again and the next `f(x)` reuses
      its task (in the test the counter goes from 5 to 7 and stays there). */
  lemma EvictionForcesRerun(c3: CacheState, s: StoreView, x: int, y: int, ttl: int, r4: StepResult, r5: StepResult)
    requires x != y && ttl != 0 && AfterTwoTimedCalls(c3, x, y, ttl)
    requires r4 == Dispatch(Evict(c3, 1, 0), s, false, TtlOption(Static(ttl)), [Num(x)])
    requires r5 == Dispatch(r4.cache, r4.store, false, TtlOption(Static(ttl)), [Num(x)])
    ensures Armed(c3, 1, 0)
    ensures r4.task == Resolved(2, Obj(1, false)) && Data(r4.store.state) == Data(s.state) + x
    ensures r5.task == r4.task && r5.store == r4.store && |r5.store.log| == |s.log| + 1
    ensures AfterRerun(r5.cache, x, y, ttl) && Armed(r5.cache, 1, 2)
  {
    var policy := Resolve(None, TtlOption(Static(ttl)));
    var e1 := Entry(0, [Num(x)], Resolved(0, Obj(1, false)), Some(ttl));
    var e2 := Entry(1, [Num(y)], Resolved(1, Obj(1, false)), Some(ttl));
    var e4 := Entry(2, [Num(x)], Resolved(2, Obj(1, false)), Some(ttl));
    assert c3.cache[1] == [e1, e2];
    var ev1 := Evict(c3, 1, 0);
    RemoveKeyAt([e1, e2], 0);
    assert BucketOf(ev1, 1) == [e2];
    assert FirstMatch([e2], [Num(x)], policy.isEqual).None? by {
      assert [Num(y)] != [Num(x)];
    }
    CounterMiss(ev1, s, false, [Num(x)], policy);
    assert BucketOf(r4.cache, 1) == [e2, e4];
    assert FirstMatch([e2, e4], [Num(x)], policy.isEqual) == Some(1);
    CounterHit(r4.cache, r4.store, false, [Num(x)], policy, 1);
    assert r5.cache.cache[1][1] == e4;
  }

  /** The middleware after the rerun: the entry for `y` and the new entry
      for `x` under key 2, three keys and three promises issued. */
  predicate AfterRerun(c: CacheState, x: int, y: int, ttl: int)
  {
    && BucketOf(c, 1) == [Entry(1, [Num(y)], Resolved(1, Obj(1, false)), Some(ttl)),
                          Entry(2, [Num(x)], Resolved(2, Obj(1, false)), Some(ttl))]
    && c.nextKey == 3 && c.nextSerial == 3
  }

  /** Last part of the same test (test/middleware.spec.js:299-309): once the
      rerun task's timer fires too, `f(x)` runs a third time with a new task
      (the counter reaches 9 there). */
  lemma SecondEvictionForcesRerun(c5: CacheState, s: StoreView, x: int, y: int, ttl: int, r6: StepResult)
    requires x != y && ttl != 0 && AfterRerun(c5, x, y, ttl)
    requires r6 == Dispatch(Evict(c5, 1, 2), s, false, TtlOption(Static(ttl)), [Num(x)])
    ensures r6.task == Resolved(3, Obj(1, false))
    ensures Data(r6.store.state) == Data(s.state) + x && |r6.store.log| == |s.log| + 1
  {
    var policy := Resolve(None, TtlOption(Static(ttl)));
    var e2 := Entry(1, [Num(y)], Resolved(1, Obj(1, false)), Some(ttl));
    var e4 := Entry(2, [Num(x)], Resolved(2, Obj(1, false)), Some(ttl));
    assert c5.cache[1] == [e2, e4];
    var ev2 := Evict(c5, 1, 2);
    RemoveKeyAt([e2, e4], 1);
    assert BucketOf(ev2, 1) == [e2];
    assert FirstMatch([e2], [Num(x)], policy.isEqual).None? by {
      assert [Num(y)] != [Num(x)];
    }
    CounterMiss(ev2, s, false, [Num(x)], policy);
  }

  /** `enabled` read from the state: true unless "memoizeEnabled" is set
      and falsy. */
  function EnabledUnlessSwitchedOff(s: AppState): bool
  {
    "memoizeEnabled" !in s || Truthy(s["memoizeEnabled"])
  }

  /** The options of the dynamic-enable test: a ttl, and `enabled` read from
      the state. */
  function SwitchableOption(ttl: int): Option<Meta>
  {
    Some(Meta(Some(Static(ttl)), Some(FromState(EnabledUnlessSwitchedOff)), None))
  }

  /** Test 'dynamic enable, disableTTL = false(Browser)'
      (test/middleware.spec.js:528-585), for any amount and any nonzero ttl
      (2 and 100 there): two identical calls run once while enabled; after
      the state switches memoizing off, each identical call runs again. */
  lemma DynamicEnable(s0: StoreView, x: int, ttl: int, r1: StepResult, r2: StepResult, r3: StepResult, r4: StepResult)
    requires "memoizeEnabled" !in s0.state && ttl != 0
    requires r1 == Dispatch(Fresh(), s0, false, SwitchableOption(ttl), [Num(x)])
    requires r2 == Dispatch(r1.cache, r1.store, false, SwitchableOption(ttl), [Num(x)])
    requires r3 == Dispatch(r2.cache, r2.store.(state := r2.store.state["memoizeEnabled" := Bool(false)]), false,
                            SwitchableOption(ttl), [Num(x)])
    requires r4 == Dispatch(r3.cache, r3.store, false, SwitchableOption(ttl), [Num(x)])
    ensures r2.task == r1.task
    ensures |r2.store.log| == |s0.log| + 1 && Data(r2.store.state) == Data(s0.state) + x
    ensures |r4.store.log| == |s0.log| + 3 && Data(r4.store.state) == Data(s0.state) + 3 * x
    ensures r3.task != r1.task && r4.task != r3.task
  {
    var policy := Resolve(None, SwitchableOption(ttl));
    var e1 := Entry(0, [Num(x)], Resolved(0, Obj(1, false)), Some(ttl));
    CounterMiss(Fresh(), s0, false, [Num(x)], policy);
    assert BucketOf(r1.cache, 1) == [e1];
    assert FirstMatch([e1], [Num(x)], policy.isEqual) == Some(0);
    CounterHit(r1.cache, r1.store, false, [Num(x)], policy, 0);
    var off := r2.store.(state := r2.store.state["memoizeEnabled" := Bool(false)]);
    CounterOff(r2.cache, off, false, [Num(x)], policy);
    CounterOff(r3.cache, r3.store, false, [Num(x)], policy);
  }

  /** `ttl` read from the state: the number under "ttl", 0 when unset. */
  function TtlFromState(s: AppState): int
  {
    if "ttl" in s && s["ttl"].Num? then s["ttl"].n else 0
  }

  /** A ttl read from the state decides per call whether the task is kept:
      with no ttl in the state two identical calls both run; once the state
      holds a nonzero ttl, the next call runs and is kept, and the one after
      it reuses that task. */
  lemma DynamicTtl(s0: StoreView, x: int, ttl: int, disableTTL: bool, r1: StepResult, r2: StepResult,
                    r3: StepResult, r4: StepResult)
    requires "ttl" !in s0.state && ttl != 0
    requires r1 == Dispatch(Fresh(), s0, disableTTL, TtlOption(FromState(TtlFromState)), [Num(x)])
    requires r2 == Dispatch(r1.cache, r1.store, disableTTL, TtlOption(FromState(TtlFromState)), [Num(x)])
    requires r3 == Dispatch(r2.cache, r2.store.(state := r2.store.state["ttl" := Num(ttl)]), disableTTL,
                            TtlOption(FromState(TtlFromState)), [Num(x)])
    requires r4 == Dispatch(r3.cache, r3.store, disableTTL, TtlOption(FromState(TtlFromState)), [Num(x)])
    ensures |r2.store.log| == |s0.log| + 2 && Data(r2.store.state) == Data(s0.state) + 2 * x
    ensures r2.task != r1.task
    ensures |r4.store.log| == |s0.log| + 3 && Data(r4.store.state) == Data(s0.state) + 3 * x
    ensures r4.task == r3.task
  {
    var policy := Resolve(None, TtlOption(FromState(TtlFromState)));
    CounterMiss(Fresh(), s0, disableTTL, [Num(x)], policy);
    assert BucketOf(r1.cache, 1) == [];
    CounterMiss(r1.cache, r1.store, disableTTL, [Num(x)], policy);
    assert BucketOf(r2.cache, 1) == [];
    var withTtl := r2.store.(state := r2.store.state["ttl" := Num(ttl)]);
    CounterMiss(r2.cache, withTtl, disableTTL, [Num(x)], policy);
    var e3 := Entry(r2.cache.nextKey, [Num(x)], r3.task, if disableTTL then None else Some(ttl));
    assert BucketOf(r3.cache, 1) == [e3];
    assert FirstMatch([e3], [Num(x)], policy.isEqual) == Some(0);
    CounterHit(r3.cache, r3.store, disableTTL, [Num(x)], policy, 0);
  }

  /** A thunk such as `() => fetch(url)`: the state stays as it is and every
      run returns a new thenable, told apart by how many runs came before. */
  function Fetch(): Executor
  {
    Executor((s: AppState, c: Call) => s, (v: StoreView, c: Call) => Obj(|v.log|, true))
  }

  /** Under the default policy nothing is kept (ttl 0), so two identical
      calls of a fetching creator run twice and hand back two different
      promises, each the thenable its own run returned. */
  lemma UncachedRunsReturnNewPromises(c: CacheState, s: StoreView, disableTTL: bool, args: Args,
                                      r1: StepResult, r2: StepResult)
    requires BucketOf(c, 1) == []
    requires r1 == MemoStep(c, s, Fetch(), disableTTL, 1, args, Resolve(None, None))
    requires r2 == MemoStep(r1.cache, r1.store, Fetch(), disableTTL, 1, args, Resolve(None, None))
    ensures r1.task == Shared(Obj(|s.log|, true))
    ensures r2.task == Shared(Obj(|s.log| + 1, true))
    ensures r1.task != r2.task
    ensures r2.store == StoreView(s.state, s.log + [Call(1, args), Call(1, args)])
  {
    var policy := Resolve(None, None);
    ResolveDefaults();
    MemoStepEffect(c, s, Fetch(), disableTTL, 1, args, policy);
    assert BucketOf(r1.cache, 1) == [];
    MemoStepEffect(r1.cache, r1.store, Fetch(), disableTTL, 1, args, policy);
  }
}
