/**
 * The response cache of src/cache/cacheHandler.ts: a `Map<string, string>` (which iterates
 * in first-insertion order), a byte counter `size`, a list `keys` that may hold
 * duplicates, and a limit `maxSizeCache`.
 *
 * The state is modelled twice: as the value `CacheState`, on which every operation is a
 * function (`InitialState`, `ClearSpace`, `Store`, `Find`, `Cleared`) and every property
 * is a lemma, and as the class `CacheHandler`, whose methods update its fields step by
 * step as the source does and promise that the new state is the function of the old one.
 *
 * `clearCacheSpace` never terminates once its entry iterator is exhausted while its loop
 * condition still holds; the model returns that situation as an outcome (`Spins`,
 * `Hangs`) carrying the state at which the loop starts to spin.
 */
module Cache {
  import opened Wrappers
  import SizeOf

  /** The default limit, 100 MB. */
  const DefaultMaxSize: int := 104857600

  /**
   * The call-stack depth available to `sizeof` from the cache. It stands in for the
   * engine's stack; every depth of at least two gives the sizes below.
   */
  const StackDepth: nat := 1000

  /** `CacheHandlerOptions`: an optional limit in bytes. */
  datatype CacheHandlerOptions = CacheHandlerOptions(maxSizeCache: Option<int>)

  /**
   * A value handed to `getItemSize`, `Map.prototype.delete` or compared with `!==`: a
   * string, or the `[key, value]` array an entry iterator yields.
   */
  datatype JsArg = Str(s: string) | EntryPair(key: string, value: string)

  /** `getItemSize(item)`, that is `sizeof(item)`. */
  function ItemSize(item: JsArg): (n: nat)
    ensures item.Str? ==> n == 2 * |item.s|
    ensures item.EntryPair? ==> n == 2 * |item.key| + 2 * |item.value|
  {
    match item
    case Str(s) => SizeOf.Sizeof(map[], StackDepth, SizeOf.String(s)).n
    case EntryPair(key, value) =>
      var heap := map[0 := SizeOf.ArrayObject([SizeOf.String(key), SizeOf.String(value)])];
      SizeOf.PairBytes(heap, StackDepth, 0, key, value);
      SizeOf.Sizeof(heap, StackDepth, SizeOf.Object(0)).n
  }

  /** `map.delete(arg)`: keys are compared by SameValueZero, so an array deletes nothing. */
  function MapDelete(m: map<string, string>, arg: JsArg): map<string, string> {
    match arg
    case Str(k) => m - {k}
    case EntryPair(_, _) => m
  }

  /** `k !== arg` for a string `k`. */
  predicate NotStrictEqual(k: string, arg: JsArg) {
    !(arg.Str? && arg.s == k)
  }

  /** `keys.filter((k) => k !== arg)`. */
  function Filter(keys: seq<string>, arg: JsArg): seq<string> {
    if keys == [] then []
    else (if NotStrictEqual(keys[0], arg) then [keys[0]] else []) + Filter(keys[1..], arg)
  }

  /** Deleting or filtering by an entry's `[key, value]` array changes nothing. */
  lemma {:induction false} EntryPairRemovesNothing(m: map<string, string>, keys: seq<string>, key: string, value: string)
    ensures MapDelete(m, EntryPair(key, value)) == m
    ensures Filter(keys, EntryPair(key, value)) == keys
  {
    if keys != [] {
      EntryPairRemovesNothing(m, keys[1..], key, value);
    }
  }

  /**
   * A contrast with `EntryPairRemovesNothing`, not a step the code takes: had `clearCacheSpace`
   * passed the key string instead of the `[key, value]` array, the delete and the filter
   * would have removed that key.
   */
  lemma {:induction false} KeyArgRemovesKey(m: map<string, string>, keys: seq<string>, key: string)
    ensures key !in MapDelete(m, Str(key))
    ensures key !in Filter(keys, Str(key))
    ensures forall k :: k in Filter(keys, Str(key)) ==> k in keys
  {
    if keys != [] {
      KeyArgRemovesKey(m, keys[1..], key);
    }
  }

  // ---------------------------------------------------------------------------
  // The state as a value
  // ---------------------------------------------------------------------------

  /** The four fields; `order` is the Map's key order, `cache` its contents. */
  datatype CacheState = CacheState(maxSize: int, order: seq<string>, cache: map<string, string>,
                                   size: nat, keys: seq<string>)

  predicate Distinct(s: seq<string>) {
    forall i, j :: 0 <= i < j < |s| ==> s[i] != s[j]
  }

  /** The Map holds each key once in `order`; `keys` names exactly the Map's keys. */
  ghost predicate WellFormed(st: CacheState) {
    && Distinct(st.order)
    && (forall k :: k in st.order <==> k in st.cache)
    && (forall k :: k in st.keys <==> k in st.cache)
  }

  /** The counter respects the limit; with a negative limit it stays 0. */
  predicate WithinLimit(st: CacheState) {
    st.size <= st.maxSize || (st.maxSize < 0 && st.size == 0)
  }

  /** `options.maxSizeCache || 104857600`. */
  function OptionLimit(options: CacheHandlerOptions): int {
    match options.maxSizeCache
    case Some(x) => if x != 0 then x else DefaultMaxSize
    case None => DefaultMaxSize
  }

  /** `new CacheHandler(options)`. */
  function InitialState(options: Option<CacheHandlerOptions>): (st: CacheState)
    ensures WellFormed(st) && WithinLimit(st)
  {
    var maxSize := if options.Some? then OptionLimit(options.value) else DefaultMaxSize;
    CacheState(maxSize, [], map[], 0, [])
  }

  /** The entries of the Map in key order, as its iterator yields them. */
  function Entries(order: seq<string>, cache: map<string, string>): seq<(string, string)> {
    if order == [] then []
    else (if order[0] in cache then [(order[0], cache[order[0]])] else []) + Entries(order[1..], cache)
  }

  /** `size - d >= 0 ? size - d : 0`. */
  function ClampedSub(size: nat, d: nat): nat {
    if size - d >= 0 then size - d else 0
  }

  /** The outcome of `clearCacheSpace`: the loop stops, or it spins from this state on. */
  datatype ScanEnd = Finished(state: CacheState) | Spins(state: CacheState)

  /**
   * The `while` loop of `clearCacheSpace` over the entries not yet visited. Each entry
   * sizes, deletes and filters by its `[key, value]` array.
   */
  function ClearScan(st: CacheState, entries: seq<(string, string)>, requiredSpace: int): ScanEnd
    decreases |entries|
  {
    if !(st.size + requiredSpace >= st.maxSize && |st.cache| >= 0) then Finished(st)
    else if entries == [] then Spins(st)
    else
      var current := EntryPair(entries[0].0, entries[0].1);
      var sizeOfDeletedItem := ItemSize(current);
      var next := st.(cache := MapDelete(st.cache, current),
                      keys := Filter(st.keys, current),
                      size := ClampedSub(st.size, sizeOfDeletedItem));
      ClearScan(next, entries[1..], requiredSpace)
  }

  /** `clearCacheSpace(requiredSpace)`. */
  function ClearSpace(st: CacheState, requiredSpace: int): ScanEnd {
    ClearScan(st, Entries(st.order, st.cache), requiredSpace)
  }

  /** The outcome of `setItem`: it returns, or it hangs inside `clearCacheSpace`. */
  datatype SetOutcome = Returned(state: CacheState) | Hangs(state: CacheState)

  /** `cache.set`, `keys.push` and `size += itemSize`. */
  function Insert(st: CacheState, queryKey: string, value: string, itemSize: nat): CacheState {
    st.(order := if queryKey in st.cache then st.order else st.order + [queryKey],
        cache := st.cache[queryKey := value],
        keys := st.keys + [queryKey],
        size := st.size + itemSize)
  }

  /** `setItem(queryKey, value)`. */
  function Store(st: CacheState, queryKey: string, value: string): SetOutcome {
    var itemSize := ItemSize(Str(value));
    if itemSize <= st.maxSize then
      if st.size + itemSize > st.maxSize then
        match ClearSpace(st, itemSize)
        case Spins(s) => Hangs(s)
        case Finished(s) => Returned(Insert(s, queryKey, value, itemSize))
      else Returned(Insert(st, queryKey, value, itemSize))
    else Returned(st)
  }

  /**
   * `getItem(queryKey)`: None is `undefined`; Some(text) is the text handed to `JSON.parse`
   * (`cache.get(queryKey) || ''`).
   */
  function Find(st: CacheState, queryKey: string): Option<string> {
    if queryKey in st.keys then Some(if queryKey in st.cache then st.cache[queryKey] else "") else None
  }

  /** `clear()`: the limit stays. */
  function Cleared(st: CacheState): CacheState {
    st.(order := [], cache := map[], size := 0, keys := [])
  }

  // ---------------------------------------------------------------------------
  // Properties of the state operations
  // ---------------------------------------------------------------------------

  /** The limit is 104857600 unless the option is a non-zero number, which is kept, sign and all. */
  lemma InitialLimit(options: Option<CacheHandlerOptions>)
    ensures InitialState(options).size == 0 && InitialState(options).keys == []
    ensures InitialState(options).cache == map[] && InitialState(options).order == []
    ensures InitialState(options).maxSize ==
            if options.Some? && options.value.maxSizeCache.Some? && options.value.maxSizeCache.value != 0
            then options.value.maxSizeCache.value else DefaultMaxSize
  {
  }

  /** In a well-formed state the iterator yields every key of the Map once, in key order. */
  lemma {:induction false} EntriesInOrder(order: seq<string>, cache: map<string, string>)
    requires forall k :: k in order ==> k in cache
    ensures |Entries(order, cache)| == |order|
    ensures forall i :: 0 <= i < |order| ==> Entries(order, cache)[i] == (order[i], cache[order[i]])
  {
    if order != [] {
      EntriesInOrder(order[1..], cache);
    }
  }

  /** The counter after subtracting every entry's pair size, clamped at 0. */
  function Drained(size: nat, entries: seq<(string, string)>): nat
    decreases |entries|
  {
    if entries == [] then size
    else Drained(ClampedSub(size, ItemSize(EntryPair(entries[0].0, entries[0].1))), entries[1..])
  }

  lemma {:induction false} DrainedBelow(size: nat, entries: seq<(string, string)>)
    ensures Drained(size, entries) <= size
    decreases |entries|
  {
    if entries != [] {
      DrainedBelow(ClampedSub(size, ItemSize(EntryPair(entries[0].0, entries[0].1))), entries[1..]);
    }
  }

  /**
   * The scan removes nothing: the Map, its order, `keys` and the limit are as before, and
   * the counter only goes down.
   */
  lemma {:induction false} ClearScanRemovesNothing(st: CacheState, entries: seq<(string, string)>, requiredSpace: int)
    ensures ClearScan(st, entries, requiredSpace).state.cache == st.cache
    ensures ClearScan(st, entries, requiredSpace).state.keys == st.keys
    ensures ClearScan(st, entries, requiredSpace).state.order == st.order
    ensures ClearScan(st, entries, requiredSpace).state.maxSize == st.maxSize
    ensures ClearScan(st, entries, requiredSpace).state.size <= st.size
    decreases |entries|
  {
    if st.size + requiredSpace >= st.maxSize && entries != [] {
      var current := EntryPair(entries[0].0, entries[0].1);
      EntryPairRemovesNothing(st.cache, st.keys, current.key, current.value);
      var next := st.(size := ClampedSub(st.size, ItemSize(current)));
      ClearScanRemovesNothing(next, entries[1..], requiredSpace);
    }
  }

  /**
   * The scan spins exactly when even the fully drained counter plus the required space
   * reaches the limit; when it finishes, the counter plus the required space is below it.
   */
  lemma {:induction false} ClearScanSpinsIff(st: CacheState, entries: seq<(string, string)>, requiredSpace: int)
    ensures ClearScan(st, entries, requiredSpace).Spins? <==>
            Drained(st.size, entries) + requiredSpace >= st.maxSize
    ensures ClearScan(st, entries, requiredSpace).Spins? ==>
            ClearScan(st, entries, requiredSpace).state.size == Drained(st.size, entries)
    ensures ClearScan(st, entries, requiredSpace).Finished? ==>
            ClearScan(st, entries, requiredSpace).state.size + requiredSpace < st.maxSize
    decreases |entries|
  {
    if !(st.size + requiredSpace >= st.maxSize) {
      DrainedBelow(st.size, entries);
    } else if entries != [] {
      var current := EntryPair(entries[0].0, entries[0].1);
      EntryPairRemovesNothing(st.cache, st.keys, current.key, current.value);
      var next := st.(size := ClampedSub(st.size, ItemSize(current)));
      ClearScanSpinsIff(next, entries[1..], requiredSpace);
    }
  }

  /** Draining a prefix of length `m > 0` drains the first entry, then `m - 1` more. */
  lemma DrainedPrefix(size: nat, entries: seq<(string, string)>, m: nat)
    requires 0 < m <= |entries|
    ensures Drained(size, entries[..m]) ==
            Drained(ClampedSub(size, ItemSize(EntryPair(entries[0].0, entries[0].1))), entries[1..][..m - 1])
  {
    assert entries[..m][0] == entries[0];
    assert entries[..m][1..] == entries[1..][..m - 1];
  }

  /**
   * When the scan finishes, the counter is the one drained over the shortest prefix of the
   * entries after which counter plus required space falls below the limit: every shorter
   * prefix still leaves the condition of the `while` loop true.
   */
  lemma {:induction false} ClearScanFinishedCounter(st: CacheState, entries: seq<(string, string)>, requiredSpace: int)
    requires ClearScan(st, entries, requiredSpace).Finished?
    ensures exists n :: 0 <= n <= |entries| &&
              ClearScan(st, entries, requiredSpace).state.size == Drained(st.size, entries[..n]) &&
              Drained(st.size, entries[..n]) + requiredSpace < st.maxSize &&
              (forall m :: 0 <= m < n ==> Drained(st.size, entries[..m]) + requiredSpace >= st.maxSize)
    decreases |entries|
  {
    if !(st.size + requiredSpace >= st.maxSize) {
      assert entries[..0] == [];
      assert ClearScan(st, entries, requiredSpace).state.size == Drained(st.size, entries[..0]);
    } else {
      var current := EntryPair(entries[0].0, entries[0].1);
      EntryPairRemovesNothing(st.cache, st.keys, current.key, current.value);
      var next := st.(size := ClampedSub(st.size, ItemSize(current)));
      assert ClearScan(st, entries, requiredSpace) == ClearScan(next, entries[1..], requiredSpace);
      ClearScanFinishedCounter(next, entries[1..], requiredSpace);
      var n' :| 0 <= n' <= |entries[1..]| &&
                ClearScan(next, entries[1..], requiredSpace).state.size == Drained(next.size, entries[1..][..n']) &&
                Drained(next.size, entries[1..][..n']) + requiredSpace < next.maxSize &&
                (forall m :: 0 <= m < n' ==> Drained(next.size, entries[1..][..m]) + requiredSpace >= next.maxSize);
      DrainedPrefix(st.size, entries, n' + 1);
      forall m | 0 <= m < n' + 1
        ensures Drained(st.size, entries[..m]) + requiredSpace >= st.maxSize
      {
        if m == 0 {
          assert entries[..0] == [];
        } else {
          DrainedPrefix(st.size, entries, m);
        }
      }
    }
  }

  /**
   * An item whose size is exactly the limit, stored while the counter is positive, hangs:
   * the condition `size + requiredSpace >= max` can never become false.
   */
  lemma ExactFitHangs(st: CacheState, queryKey: string, value: string)
    requires st.size > 0 && 2 * |value| == st.maxSize
    ensures Store(st, queryKey, value).Hangs?
  {
    ClearScanSpinsIff(st, Entries(st.order, st.cache), 2 * |value|);
  }

  /** An item larger than the limit changes nothing. */
  lemma TooLargeIsDropped(st: CacheState, queryKey: string, value: string)
    requires 2 * |value| > st.maxSize
    ensures Store(st, queryKey, value) == Returned(st)
  {
  }

  /** No item is ever stored under a negative limit. */
  lemma NegativeLimitStoresNothing(st: CacheState, queryKey: string, value: string)
    requires st.maxSize < 0
    ensures Store(st, queryKey, value) == Returned(st)
  {
  }

  /**
   * When the item fits, `setItem` sets the Map entry (a new key goes last, an existing key
   * keeps its place), appends the key to `keys` (a duplicate on overwrite), and adds the
   * item's size without subtracting an overwritten value's size.
   */
  lemma StoreWhenRoom(st: CacheState, queryKey: string, value: string)
    requires st.size + 2 * |value| <= st.maxSize
    ensures Store(st, queryKey, value) == Returned(CacheState(
              st.maxSize,
              if queryKey in st.cache then st.order else st.order + [queryKey],
              st.cache[queryKey := value],
              st.size + 2 * |value|,
              st.keys + [queryKey]))
  {
  }

  /** Every call that returns stores the value and leaves the other keys as they were. */
  lemma StoreThenFind(st: CacheState, queryKey: string, value: string, other: string)
    requires Store(st, queryKey, value).Returned? && 2 * |value| <= st.maxSize
    ensures Find(Store(st, queryKey, value).state, queryKey) == Some(value)
    ensures other != queryKey ==> Find(Store(st, queryKey, value).state, other) == Find(st, other)
  {
    if st.size + 2 * |value| > st.maxSize {
      ClearScanRemovesNothing(st, Entries(st.order, st.cache), 2 * |value|);
    }
  }

  /** `setItem` keeps the state well formed, whether it returns or hangs. */
  lemma StoreWellFormed(st: CacheState, queryKey: string, value: string)
    requires WellFormed(st)
    ensures WellFormed(Store(st, queryKey, value).state)
  {
    var itemSize := 2 * |value|;
    if itemSize <= st.maxSize {
      var s := st;
      if st.size + itemSize > st.maxSize {
        ClearScanRemovesNothing(st, Entries(st.order, st.cache), itemSize);
        s := ClearSpace(st, itemSize).state;
      }
      var s' := Insert(s, queryKey, value, itemSize);
      if queryKey !in s.cache {
        forall i, j | 0 <= i < j < |s'.order| ensures s'.order[i] != s'.order[j] {
          if j == |s.order| {
            assert s'.order[i] == s.order[i];
          }
        }
      }
    }
  }

  /**
   * After any `setItem` that returns, the counter is within the limit (or, with a
   * negative limit, still 0); a hanging call has not raised it either.
   */
  lemma StoreWithinLimit(st: CacheState, queryKey: string, value: string)
    requires WithinLimit(st)
    ensures WithinLimit(Store(st, queryKey, value).state)
    ensures Store(st, queryKey, value).state.maxSize == st.maxSize
  {
    var itemSize := 2 * |value|;
    if itemSize <= st.maxSize && st.size + itemSize > st.maxSize {
      ClearScanRemovesNothing(st, Entries(st.order, st.cache), itemSize);
      ClearScanSpinsIff(st, Entries(st.order, st.cache), itemSize);
    }
  }

  /** After `clear`, nothing is found; clearing twice is clearing once. */
  lemma ClearedIsEmpty(st: CacheState, queryKey: string)
    ensures Find(Cleared(st), queryKey) == None
    ensures Cleared(Cleared(st)) == Cleared(st)
    ensures WellFormed(Cleared(st)) && WithinLimit(Cleared(st))
    ensures Cleared(st).maxSize == st.maxSize
  {
  }

  // ---------------------------------------------------------------------------
  // Sequences of calls
  // ---------------------------------------------------------------------------

  datatype Op = SetItem(key: string, value: string) | Clear

  /** The state after the calls `ops`, or None when one of them hangs. */
  function Run(st: CacheState, ops: seq<Op>): Option<CacheState>
    decreases |ops|
  {
    if ops == [] then Some(st)
    else
      match Run(st, ops[..|ops| - 1])
      case None => None
      case Some(s) =>
        match ops[|ops| - 1]
        case Clear => Some(Cleared(s))
        case SetItem(k, v) => if Store(s, k, v).Hangs? then None else Some(Store(s, k, v).state)
  }

  /** What the last call that decides `key` left: a value that fit the limit, a clear, or nothing. */
  datatype Written = Value(text: string) | Erased | Untouched

  function LastWrite(ops: seq<Op>, key: string, maxSize: int): Written
    decreases |ops|
  {
    if ops == [] then Untouched
    else
      match ops[|ops| - 1]
      case Clear => Erased
      case SetItem(k, v) =>
        if k == key && 2 * |v| <= maxSize then Value(v) else LastWrite(ops[..|ops| - 1], key, maxSize)
  }

  lemma {:induction false} RunKeepsLimit(st: CacheState, ops: seq<Op>)
    requires Run(st, ops).Some?
    ensures Run(st, ops).value.maxSize == st.maxSize
    decreases |ops|
  {
    if ops != [] {
      var prefix := ops[..|ops| - 1];
      RunKeepsLimit(st, prefix);
      var s := Run(st, prefix).value;
      if ops[|ops| - 1].SetItem? {
        var k, v := ops[|ops| - 1].key, ops[|ops| - 1].value;
        if 2 * |v| <= s.maxSize && s.size + 2 * |v| > s.maxSize {
          ClearScanRemovesNothing(s, Entries(s.order, s.cache), 2 * |v|);
        }
      }
    }
  }

  /**
   * `getItem` after a sequence of calls that return: a key set (within the limit) since
   * the last `clear` reads as its last value, a key cleared since reads as undefined,
   * and any other key reads as before the sequence.
   */
  lemma {:induction false} RunThenFind(st: CacheState, ops: seq<Op>, key: string)
    requires Run(st, ops).Some?
    ensures Find(Run(st, ops).value, key) ==
            match LastWrite(ops, key, st.maxSize)
            case Value(text) => Some(text)
            case Erased => None
            case Untouched => Find(st, key)
    decreases |ops|
  {
    if ops != [] {
      var prefix := ops[..|ops| - 1];
      RunThenFind(st, prefix, key);
      RunKeepsLimit(st, prefix);
      var s := Run(st, prefix).value;
      match ops[|ops| - 1]
      case Clear =>
      case SetItem(k, v) =>
        if 2 * |v| <= s.maxSize {
          StoreThenFind(s, k, v, key);
        }
    }
  }

  // ---------------------------------------------------------------------------
  // Where the intended eviction discipline fails
  // ---------------------------------------------------------------------------

  /** The sum of the sizes of the strings the Map holds, in key order. */
  function StoredBytes(order: seq<string>, cache: map<string, string>): nat {
    if order == [] then 0
    else (if order[0] in cache then ItemSize(Str(cache[order[0]])) else 0) + StoredBytes(order[1..], cache)
  }

  /** The intended accounting: the counter is the size of what is stored. */
  ghost predicate Accounted(st: CacheState) {
    st.size == StoredBytes(st.order, st.cache)
  }

  /** Setting the same key twice counts both values. */
  lemma OverwriteDoubleCounts()
    ensures var st0 := InitialState(None);
            var st1 := Store(st0, "k", "v").state;
            var st2 := Store(st1, "k", "v").state;
            Accounted(st1) && st2.size == 4 && StoredBytes(st2.order, st2.cache) == 2 && !Accounted(st2)
            && st2.keys == ["k", "k"]
  {
    var st0 := InitialState(None);
    var st1 := CacheState(DefaultMaxSize, ["k"], map["k" := "v"], 2, ["k"]);
    assert Store(st0, "k", "v").state == st1 by {
      StoreWhenRoom(st0, "k", "v");
    }
    var st2 := CacheState(DefaultMaxSize, ["k"], map["k" := "v"], 4, ["k", "k"]);
    assert Store(st1, "k", "v").state == st2 by {
      StoreWhenRoom(st1, "k", "v");
    }
    assert StoredBytes(["k"], map["k" := "v"]) == 2 by {
      assert ["k"][1..] == [];
    }
  }

  /**
   * A counter inflated by overwrites makes a later `setItem` hang with one small entry in
   * the Map: limit 6, "a" set to "b" three times, then "c" set to "bb".
   */
  lemma OverwritesLeadToHang()
    ensures var st0 := InitialState(Some(CacheHandlerOptions(Some(6))));
            var st3 := Store(Store(Store(st0, "a", "b").state, "a", "b").state, "a", "b").state;
            st3.size == 6 && st3.cache == map["a" := "b"] && Store(st3, "c", "bb").Hangs?
  {
    var st0 := InitialState(Some(CacheHandlerOptions(Some(6))));
    var st1 := CacheState(6, ["a"], map["a" := "b"], 2, ["a"]);
    assert Store(st0, "a", "b").state == st1 by {
      StoreWhenRoom(st0, "a", "b");
    }
    var st2 := CacheState(6, ["a"], map["a" := "b"], 4, ["a", "a"]);
    assert Store(st1, "a", "b").state == st2 by {
      StoreWhenRoom(st1, "a", "b");
    }
    var st3 := CacheState(6, ["a"], map["a" := "b"], 6, ["a", "a", "a"]);
    assert Store(st2, "a", "b").state == st3 by {
      StoreWhenRoom(st2, "a", "b");
    }
    assert Store(st3, "c", "bb").Hangs? by {
      var entries := Entries(st3.order, st3.cache);
      assert entries == [("a", "b")] by {
        assert st3.order[1..] == [];
      }
      assert Drained(6, entries) == 2 by {
        assert entries[1..] == [];
      }
      ClearScanSpinsIff(st3, entries, 4);
    }
  }

  // ---------------------------------------------------------------------------
  // The class
  // ---------------------------------------------------------------------------

  class CacheHandler {
    var maxSizeCache: int
    var order: seq<string>
    var cache: map<string, string>
    var size: nat
    var keys: seq<string>

    function State(): CacheState
      reads this
    {
      CacheState(maxSizeCache, order, cache, size, keys)
    }

    ghost predicate Valid()
      reads this
    {
      WellFormed(State()) && WithinLimit(State())
    }

    /** The field initialiser sets the default limit; the body overrides it when options are given. */
    constructor(options: Option<CacheHandlerOptions>)
      ensures State() == InitialState(options)
      ensures Valid()
    {
      maxSizeCache := DefaultMaxSize;
      cache := map[];
      order := [];
      size := 0;
      keys := [];
      if options.Some? {
        maxSizeCache := OptionLimit(options.value);
      }
    }

    method GetItemSize(item: JsArg) returns (n: nat)
      ensures n == ItemSize(item)
    {
      n := ItemSize(item);
    }

    method GetSize() returns (n: nat)
      ensures n == State().size
    {
      n := size;
    }

    method GetMaxSize() returns (n: int)
      ensures n == State().maxSize
    {
      n := maxSizeCache;
    }

    /**
     * `clearCacheSpace(requiredSpace)`. Returns true where the source loops forever: the
     * iterator is exhausted and the condition still holds.
     */
    method ClearCacheSpace(requiredSpace: int) returns (spins: bool)
      requires Valid()
      modifies this
      ensures State() == ClearSpace(old(State()), requiredSpace).state
      ensures spins == ClearSpace(old(State()), requiredSpace).Spins?
      ensures Valid()
    {
      ghost var st0 := State();
      var entries := Entries(order, cache);
      var i := 0;
      while size + requiredSpace >= maxSizeCache && |cache| >= 0 && i < |entries|
        invariant 0 <= i <= |entries|
        invariant ClearScan(State(), entries[i..], requiredSpace) == ClearScan(st0, entries, requiredSpace)
      {
        var current := EntryPair(entries[i].0, entries[i].1);
        ghost var before := State();
        assert entries[i..][0] == entries[i] && entries[i..][1..] == entries[i + 1..];
        var sizeOfDeletedItem := GetItemSize(current);
        cache := MapDelete(cache, current);
        keys := Filter(keys, current);
        size := if size - sizeOfDeletedItem >= 0 then size - sizeOfDeletedItem else 0;
        assert State() == before.(cache := MapDelete(before.cache, current),
                                  keys := Filter(before.keys, current),
                                  size := ClampedSub(before.size, sizeOfDeletedItem));
        i := i + 1;
      }
      spins := size + requiredSpace >= maxSizeCache;
      ClearScanRemovesNothing(st0, entries, requiredSpace);
    }

    /** `setItem(queryKey, value)`. Returns true where the source hangs in `clearCacheSpace`. */
    method SetItem(queryKey: string, value: string) returns (hangs: bool)
      requires Valid()
      modifies this
      ensures State() == Store(old(State()), queryKey, value).state
      ensures hangs == Store(old(State()), queryKey, value).Hangs?
      ensures Valid()
    {
      ghost var st0 := State();
      StoreWellFormed(st0, queryKey, value);
      StoreWithinLimit(st0, queryKey, value);
      hangs := false;
      var itemSize := GetItemSize(Str(value));
      if itemSize <= maxSizeCache {
        ghost var s := st0;
        if size + itemSize > maxSizeCache {
          hangs := ClearCacheSpace(itemSize);
          s := ClearSpace(st0, itemSize).state;
          if hangs {
            assert Store(st0, queryKey, value) == Hangs(s);
            return;
          }
          assert Store(st0, queryKey, value) == Returned(Insert(s, queryKey, value, itemSize));
        } else {
          assert Store(st0, queryKey, value) == Returned(Insert(s, queryKey, value, itemSize));
        }
        assert State() == s;
        if queryKey !in cache {
          order := order + [queryKey];
        }
        cache := cache[queryKey := value];
        keys := keys + [queryKey];
        size := size + itemSize;
        assert State() == Insert(s, queryKey, value, itemSize);
      }
    }

    /** `getItem(queryKey)`: the text handed to `JSON.parse`, or None for `undefined`. */
    method GetItem(queryKey: string) returns (r: Option<string>)
      ensures r == Find(State(), queryKey)
    {
      if queryKey in keys {
        var text := if queryKey in cache then cache[queryKey] else "";
        r := Some(text);
      } else {
        r := None;
      }
    }

    method Clear()
      requires Valid()
      modifies this
      ensures State() == Cleared(old(State()))
      ensures Valid()
    {
      cache := map[];
      size := 0;
      keys := [];
      order := [];
    }
  }
}
