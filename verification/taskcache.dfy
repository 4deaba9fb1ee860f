/** One function's `taskCache`: argument lists mapped to tasks, kept in
    insertion order and searched by a caller-supplied equivalence
    (src/index.js:20-27, 57, 60). */
module TaskCache {
  import opened Wrappers
  import opened Values
  import opened Policy

  /** Identity of the `args` array object used as a Map key. */
  type KeyId = nat

  /** One stored task. `timer` is the delay of the eviction armed for this
      key (`None` when `disableTTL` is set). */
  datatype Entry = Entry(key: KeyId, args: Args, task: Task, timer: Option<int>)

  /** Index of the first entry, in insertion order, whose key `eq` deems
      equal to `args`: the specification of `deepGet`. */
  function FirstMatch(entries: seq<Entry>, args: Args, eq: Equality): (r: Option<nat>)
    ensures r.Some? ==> r.value < |entries| && eq(entries[r.value].args, args)
    ensures r.Some? ==> forall j :: 0 <= j < r.value ==> !eq(entries[j].args, args)
    ensures r.None? <==> forall j :: 0 <= j < |entries| ==> !eq(entries[j].args, args)
  {
    if entries == [] then None
    else if eq(entries[0].args, args) then Some(0)
    else match FirstMatch(entries[1..], args, eq)
      case None => None
      case Some(i) => Some(i + 1)
  }

  /** `deepGet(map, args, isEqual)`: scan the keys in insertion order, return
      the task of the first equal one, or nothing. */
  method DeepGet(entries: seq<Entry>, args: Args, eq: Equality) returns (r: Option<Task>)
    ensures r.None? <==> FirstMatch(entries, args, eq).None?
    ensures r.Some? ==> r.value == entries[FirstMatch(entries, args, eq).value].task
  {
    var i := 0;
    while i < |entries|
      invariant 0 <= i <= |entries|
      invariant forall j :: 0 <= j < i ==> !eq(entries[j].args, args)
    {
      if eq(entries[i].args, args) {
        FirstMatchIsLeast(entries, args, eq, i);
        return Some(entries[i].task);
      }
      i := i + 1;
    }
    return None;
  }

  /** Any match preceded only by non-matches is the first match. */
  lemma FirstMatchIsLeast(entries: seq<Entry>, args: Args, eq: Equality, i: nat)
    requires i < |entries| && eq(entries[i].args, args)
    requires forall j :: 0 <= j < i ==> !eq(entries[j].args, args)
    ensures FirstMatch(entries, args, eq) == Some(i)
  {
  }

  /** A repeated call: after a miss on `args` stored `e` under `args`, a
      call with the same `args` and an equivalence under which `args` equals
      itself finds exactly `e`. */
  lemma RepeatCallFindsStoredEntry(entries: seq<Entry>, args: Args, eq: Equality, e: Entry)
    requires FirstMatch(entries, args, eq).None?
    requires e.args == args && eq(args, args)
    ensures FirstMatch(entries + [e], args, eq) == Some(|entries|)
  {
    var s := entries + [e];
    assert forall j :: 0 <= j < |entries| ==> s[j] == entries[j];
    FirstMatchIsLeast(s, args, eq, |entries|);
  }

  /** The keys of a task cache are distinct objects. */
  ghost predicate KeysDistinct(entries: seq<Entry>)
  {
    forall i, j :: 0 <= i < j < |entries| ==> entries[i].key != entries[j].key
  }

  /** No two stored keys are equal under `eq`. */
  ghost predicate NoTwoEqual(entries: seq<Entry>, eq: Equality)
  {
    forall i, j :: 0 <= i < j < |entries| ==> !eq(entries[i].args, entries[j].args)
  }

  /** Lookup-before-insert: appending under `args` after a failed lookup with
      `eq` keeps every pair of stored keys unequal under `eq`. */
  lemma {:induction false} InsertAfterMissKeepsKeysApart(entries: seq<Entry>, args: Args, eq: Equality, e: Entry)
    requires NoTwoEqual(entries, eq)
    requires FirstMatch(entries, args, eq).None?
    requires e.args == args
    ensures NoTwoEqual(entries + [e], eq)
  {
    var s := entries + [e];
    forall i, j | 0 <= i < j < |s|
      ensures !eq(s[i].args, s[j].args)
    {
      if j < |entries| {
        assert s[i] == entries[i] && s[j] == entries[j];
      } else {
        assert s[i] == entries[i] && s[j] == e;
      }
    }
  }

  /** `taskCache.delete(key)`: remove the entry whose key is that object;
      nothing happens when there is none. */
  function RemoveKey(entries: seq<Entry>, key: KeyId): (r: seq<Entry>)
    ensures |r| <= |entries|
  {
    if entries == [] then []
    else if entries[0].key == key then entries[1..]
    else [entries[0]] + RemoveKey(entries[1..], key)
  }

  /** Deleting walks past a prefix that does not hold the key. */
  lemma {:induction false} RemoveKeySkips(pre: seq<Entry>, post: seq<Entry>, key: KeyId)
    requires forall j :: 0 <= j < |pre| ==> pre[j].key != key
    ensures RemoveKey(pre + post, key) == pre + RemoveKey(post, key)
  {
    if pre != [] {
      RemoveKeySkips(pre[1..], post, key);
      assert (pre + post)[0] == pre[0];
      assert (pre + post)[1..] == pre[1..] + post;
      assert RemoveKey(pre + post, key) == [pre[0]] + RemoveKey(pre[1..] + post, key);
      assert [pre[0]] + (pre[1..] + RemoveKey(post, key)) == pre + RemoveKey(post, key);
    } else {
      assert pre + post == post;
    }
  }

  /** Deleting a present key removes exactly that one entry, the first with
      that key, and keeps the order of all the others. */
  lemma RemoveKeyAt(entries: seq<Entry>, i: nat)
    requires i < |entries|
    requires forall j :: 0 <= j < i ==> entries[j].key != entries[i].key
    ensures RemoveKey(entries, entries[i].key) == entries[..i] + entries[i + 1..]
  {
    var pre, post := entries[..i], entries[i..];
    RemoveKeySkips(pre, post, entries[i].key);
    assert pre + post == entries;
    assert post[0] == entries[i] && post[1..] == entries[i + 1..];
  }

  /** Deleting an absent key leaves the task cache as it was. */
  lemma {:induction false} RemoveAbsentKey(entries: seq<Entry>, key: KeyId)
    requires forall j :: 0 <= j < |entries| ==> entries[j].key != key
    ensures RemoveKey(entries, key) == entries
  {
    if entries != [] {
      assert entries[0].key != key;
      RemoveAbsentKey(entries[1..], key);
    }
  }

  /** Removing an entry keeps the stored keys pairwise unequal. */
  lemma RemoveKeepsKeysApart(entries: seq<Entry>, i: nat, eq: Equality)
    requires KeysDistinct(entries)
    requires i < |entries|
    requires NoTwoEqual(entries, eq)
    ensures NoTwoEqual(RemoveKey(entries, entries[i].key), eq)
  {
    assert forall j :: 0 <= j < i ==> entries[j].key != entries[i].key;
    RemoveKeyAt(entries, i);
    var s := entries[..i] + entries[i + 1..];
    forall a, b | 0 <= a < b < |s|
      ensures !eq(s[a].args, s[b].args)
    {
      var a', b' := if a < i then a else a + 1, if b < i then b else b + 1;
      assert s[a] == entries[a'] && s[b] == entries[b'];
    }
  }
}
