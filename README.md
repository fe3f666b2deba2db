# pvgisjs: the response cache, its byte estimator and the request preparation

This project is a Dafny model of the core of the `pvgisjs` client for the PVGIS web API. The core has four parts:

* **`sizeof`** (`src/cache/utils/sizeOf.ts`) estimates the bytes of a JavaScript value:
  * a string costs 2 per code unit, a boolean 4, a number 8;
  * a Buffer costs its length, and a symbol costs by the length of its key or description;
  * an array costs the sum of its elements;
  * an object is walked key by key. A per-call `seen` set makes it skip objects it has already met.
* **`CacheHandler`** (`src/cache/cacheHandler.ts`) is a `Map<string, string>` of responses with four pieces of state:
  * the Map itself;
  * a byte counter;
  * a `keys` list that may hold duplicates;
  * a limit of 100 MB by default.
* **`buildPath`** (`src/utils/buildPath.ts`) builds `?k1=v1&k2=v2` from the defined parameters.
* **`PVGISClient`** (`src/pvgis/pvgisClient.ts`) prepares `seriesCalc` and `calculateOptimalAngles`:
  * defaulted and forced options;
  * boolean flags rewritten to 0/1;
  * the URL;
  * "look up in the cache, else fetch, then store".

The modules follow the source files:

| module | file | form |
|---|---|---|
| `Wrappers` | `wrappers.dfy` | `Option`, `Result` |
| `SizeOf` | `size_of.dfy` | `calculator` as the mutually recursive functions `Calculator`, `SumElements`, `ObjectBytes` and `ObjectLoop`; `sizeOfObject` and `allProperties` as methods with loops, proved equal to those functions |
| `Records` | `records.dfy` | JavaScript plain objects as entry lists in `Object.keys` order, with assignment (`Put`) and spread (`Spread`) |
| `QueryPath` | `query_path.dfy` | `buildPath` as a fold, proved equal to a join of pairs, and its inverse |
| `Cache` | `cache_handler.dfy` | the state as a value with one function per operation, plus the class `CacheHandler` whose methods update fields and are proved to compute those functions |
| `Pvgis` | `pvgis_client.dfy` | parameter functions, the flag-rewriting loop, the call sequences as functions, and the class `PVGISClient` |

Several things the code does differ from what the cache is meant to do. The model follows the code.

* `clearCacheSpace` passes the iterator's `[key, value]` array to `Map.prototype.delete` and to the `keys` filter. It therefore removes nothing. It only lowers the counter by `2|key| + 2|value|` per entry, clamped at 0.
* Once the iterator is exhausted, its loop never ends if `size + requiredSpace >= maxSizeCache` still holds, because `cache.size >= 0` is always true. The model returns this case as the outcome `Spins`/`Hangs`, carrying the state at which the loop starts to spin.
* Storing an item exactly as large as the limit while the counter is positive always hangs (`Cache.ExactFitHangs`). So does a counter inflated by overwrites (`Cache.OverwritesLeadToHang`).
* An overwrite keeps the key's place in the Map and appends a duplicate to `keys`. It adds the new size without subtracting the old one.
* `options.maxSizeCache || 104857600` keeps a negative limit. Under a negative limit nothing is ever stored.
* `sizeof` can throw, but only from objects that are not reached through another object's property:
  * a TypeError reaches the caller from an object that has an enumerable string key but no `formErrors`. That object must be the argument itself, or be reached from it through arrays alone.
  * a RangeError reaches the caller only when no object on the way down catches it, that is, when the stack runs out inside arrays alone.

  The `try` around a property value catches everything beneath it. A TypeError there adds nothing for that value. A RangeError zeroes the enclosing object's running total.

## Model

| member | source | states |
|---|---|---|
| SizeOf.Sizeof | src/cache/utils/sizeOf.ts:58-99 | Each call starts with an empty `seen` set. A string costs 2 per code unit, a boolean 4 and a number 8 whatever their value. A symbol costs 2 per description unit. Undefined, null and functions cost 0. A Buffer costs its length; the Buffer test comes before the `typeof` dispatch. With no stack left the call throws RangeError. |
| SizeOf.KeyFor | src/cache/utils/sizeOf.ts:73 | Computes `Symbol.keyFor`: the text of a registered symbol, nothing for a symbol made by `Symbol(...)`. |
| SizeOf.SymbolToString | src/cache/utils/sizeOf.ts:76 | Computes `Symbol.prototype.toString`: `Symbol(` + description + `)`. |
| SizeOf.SymbolBytes | src/cache/utils/sizeOf.ts:72-76 | Computes the `'symbol'` branch: twice the registered key's length when that key is non-empty, else twice (`toString()` length − 8). |
| SizeOf.KeyBytes | src/cache/utils/sizeOf.ts:43 | Computes the calculator's cost of a property key: twice a name's length, or the symbol's cost. |
| SizeOf.Lookup | src/cache/utils/sizeOf.ts:36-45 | Computes `object[key]` on a plain object: the value of the own property with that key, else undefined. Symbols made by separate `Symbol(...)` calls are different keys. |
| SizeOf.HasOwnProperty | src/cache/utils/sizeOf.ts:16 | Computes `v.hasOwnProperty(name)`. A string owns `length` and its indices, an array owns `length` and its indices, a Buffer owns its indices, a plain object owns its string-keyed properties, and any other value owns nothing. |
| SizeOf.EnumerableNames | src/cache/utils/sizeOf.ts:15 | Computes the names `for...in` visits: the enumerable string-keyed own properties, in order. |
| SizeOf.NamesOwnedBy | src/cache/utils/sizeOf.ts:15-19 | Computes the names the for-in loop pushes: those `formErrors.hasOwnProperty` accepts, in order. |
| SizeOf.OwnSymbols | src/cache/utils/sizeOf.ts:20-23 | Computes `Object.getOwnPropertySymbols`: every symbol-keyed own property, enumerable or not, in order. |
| SizeOf.PropertyKeys | src/cache/utils/sizeOf.ts:13-25 | Computes what `allProperties` returns or throws: the enumerable string names that `formErrors` owns, in for-in order, then the own symbols. A nullish `formErrors` throws TypeError once there is a name to test. |
| SizeOf.AllProperties | src/cache/utils/sizeOf.ts:13-25 | The push loop returns exactly `PropertyKeys`: the enumerable names that `obj.formErrors` owns, in for-in order, then the own symbols. Reading a nullish `formErrors` with a name to test throws TypeError. |
| SizeOf.IsBuffer | src/cache/utils/sizeOf.ts:60 | Computes `Buffer.isBuffer`: the value refers to a Buffer. |
| SizeOf.Calculator | src/cache/utils/sizeOf.ts:58-90 | Computes one call of the calculator. The Buffer test comes first, then the `typeof` dispatch. Arrays go to the element sum and other objects to sizeOfObject, one stack level deeper. Undefined, functions and null cost 0. No stack left throws RangeError. |
| SizeOf.SumElements | src/cache/utils/sizeOf.ts:78-82 | Computes the `map`/`reduce` over an array: the elements are sized in order; the first exception stops it; no element enters `seen`. |
| SizeOf.ObjectBytes | src/cache/utils/sizeOf.ts:27-56 | Computes sizeOfObject for a plain object: the exception `allProperties` throws, or the loop over its keys from a count of 0. |
| SizeOf.ObjectLoop | src/cache/utils/sizeOf.ts:34-53 | Computes the remaining iterations of sizeOfObject's loop, with the count so far and the current `seen` set. |
| SizeOf.ObjectLoopFirstProperty | src/cache/utils/sizeOf.ts:34-53 | The rules of one iteration, for any property, any count and any `seen` set. A value already in `seen` skips its key too. Otherwise the value is marked and the key is counted. Then the value's bytes are added, a RangeError discards the whole count, and any other exception keeps the count with the key. |
| SizeOf.ObjectLoopNeverThrows | src/cache/utils/sizeOf.ts:44-52 | The loop never throws, whatever the keys: every exception from a property value is caught. |
| SizeOf.SizeOfObject | src/cache/utils/sizeOf.ts:27-56 | The `for` loop with `continue` and `try/catch` computes `ObjectBytes`. It returns the bytes and the updated `seen` set, or the exception `allProperties` threw. |
| SizeOf.SymbolBytesIsDescription | src/cache/utils/sizeOf.ts:72-76 | A registered symbol (2 × key length) and an unregistered one (2 × (`toString()` length − 8)) both cost 2 per description unit. |
| SizeOf.SumElementsAppend | src/cache/utils/sizeOf.ts:78-82 | Sizing a concatenation of arrays sizes the first part, then the second part with the `seen` set the first left. The costs add, and the first exception stops the map. |
| SizeOf.StringElements | src/cache/utils/sizeOf.ts:78-82 | An array of strings costs 2 per code unit of all of them and leaves `seen` unchanged; array elements are never added. |
| SizeOf.PairBytes | src/cache/utils/sizeOf.ts:66-82 | The array `[key, value]` costs `2|key| + 2|value|`. |
| SizeOf.CalculatorSeenGrows | src/cache/utils/sizeOf.ts:35-41 | Sizing only adds references to `seen`; it never removes one. |
| SizeOf.SumElementsSeenGrows | src/cache/utils/sizeOf.ts:78-82 | The same for the array map. |
| SizeOf.ObjectBytesSeenGrows | src/cache/utils/sizeOf.ts:27-56 | The same for sizeOfObject. |
| SizeOf.ObjectLoopSeenGrows | src/cache/utils/sizeOf.ts:34-53 | The same for each iteration of its loop. |
| SizeOf.SymbolKeyedProperties | src/cache/utils/sizeOf.ts:13-25 | An object whose keys are all symbols never reads `formErrors`; its keys are its symbols, in order. |
| SizeOf.FormErrorsRequired | src/cache/utils/sizeOf.ts:15-17 | A plain object with an enumerable string key and an undefined or null `formErrors` makes the calculator throw TypeError with `seen` unchanged, and makes `sizeof` throw. |
| SizeOf.OnPlainObject | src/cache/utils/sizeOf.ts:77-85 | A plain (non-array) object goes to sizeOfObject one stack level deeper. |
| SizeOf.EmptyObjectIsFree | src/cache/utils/sizeOf.ts:27-55 | `{}` costs 0, because its missing `formErrors` is never read. |

| SizeOf.SelfContainingArrayOverflows | src/cache/utils/sizeOf.ts:78-82 | An array that contains itself throws RangeError at every stack depth, since array elements are not tracked in `seen`. |
| SizeOf.SingleSymbolProperty | src/cache/utils/sizeOf.ts:33-53 | A one-symbol object runs the loop over exactly that key. |
| SizeOf.SelfReferenceCountedOnce | src/cache/utils/sizeOf.ts:35-41 | An object that refers to itself is sized once. On the nested visit its reference is already in `seen`, so the property is skipped, key and value alike. The result is the key's cost. |
| SizeOf.RangeErrorResetsTotal | src/cache/utils/sizeOf.ts:44-52 | A RangeError from a property value resets the object's running total to 0, discarding the keys already counted. |
| SizeOf.OtherExceptionSwallowed | src/cache/utils/sizeOf.ts:44-52 | A TypeError from a nested object is swallowed: the key stays counted and the value adds 0, while the nested object alone makes `sizeof` throw. |
| SizeOf.FalseUnderSymbol | src/cache/utils/sizeOf.ts:33-53 | `{[s]: false}` costs `2|s.description| + 4` wherever it is met, and leaves `seen` alone. |
| SizeOf.SameDescriptionDistinctKeys | src/cache/utils/sizeOf.ts:34-45 | `{[Symbol(d)]: 1, [Symbol(d)]: true}` costs both keys, 8 for the number and 4 for the boolean: `4|d| + 12`. Two `Symbol(d)` calls give two keys, and each value is read under its own key. |
| SizeOf.SharingInArraysAndObjects | src/cache/utils/sizeOf.ts:35-41 | An object shared twice in an array is counted twice (elements are not tracked). Shared twice under two keys of an object, it is counted once, together with only the first key. |
| Records.Truthy | src/pvgis/pvgisClient.ts:161 | Computes JavaScript truthiness of a primitive: `false`, `0`, `''` and undefined are falsy. |
| Records.Get | src/utils/buildPath.ts:4 | Computes `obj[key]`: the value under the key, else undefined. |
| Records.Keys | src/utils/buildPath.ts:2 | The keys of an object, one per entry, in order. |
| Records.Put | src/pvgis/pvgisClient.ts:183 | Computes `obj[k] = v` on the entry list: an existing key gets the new value in its place; a new key is appended. |
| Records.PutKeys | src/pvgis/pvgisClient.ts:183 | Assigning to an existing key keeps the key order; a new key is appended. |
| Records.PutGet | src/pvgis/pvgisClient.ts:183 | After `obj[k] = v`, `obj[k]` is `v` and every other key reads as before. |
| Records.DistinctKeysTail | src/utils/buildPath.ts:2 | An object has unique keys if and only if its tail does and the first key is not in the tail. |
| Records.PutDistinct | src/pvgis/pvgisClient.ts:183 | Assignment keeps keys unique. |
| Records.Spread | src/pvgis/pvgisClient.ts:76-79 | Computes `{...a, ...b}` by assigning `b`'s entries onto `a` one by one, in `b`'s order. |
| Records.SpreadKeys | src/pvgis/pvgisClient.ts:76-79 | `{...a, ...b}` keeps `a`'s keys in place and appends `b`'s new keys in `b`'s order. |
| Records.SpreadGet | src/pvgis/pvgisClient.ts:76-79 | In `{...a, ...b}` a key of `b` reads as in `b`, any other key as in `a`. |
| Records.SpreadDistinct | src/pvgis/pvgisClient.ts:126-131 | A spread onto an object keeps keys unique. |
| QueryPath.Step | src/utils/buildPath.ts:3-8 | Computes one step of the reducer. An undefined value adds `''`. A defined value adds `key=encode(value)` when the accumulator has length 1, and `&key=encode(value)` otherwise. |
| QueryPath.Reduce | src/utils/buildPath.ts:2-9 | Computes the `reduce` over the entries in key order, from a given accumulator. |
| QueryPath.BuildPath | src/utils/buildPath.ts:1-10 | Computes `buildPath`: the reduce from `'?'`. |
| QueryPath.BuildPathJoinsPairs | src/utils/buildPath.ts:1-10 | The fold equals "?" followed by the pairs `key=encode(value)` of the defined keys, in key order, joined by "&". Keys are left raw. |
| QueryPath.ReduceFromStart | src/utils/buildPath.ts:4-8 | While the accumulator has length 1 no pair has been emitted: undefined values leave it as it is, and the first defined value adds its pair without "&". |
| QueryPath.FirstPair | src/utils/buildPath.ts:5-6 | The first defined entry adds its pair directly after "?". |
| QueryPath.ReduceAfterFirst | src/utils/buildPath.ts:7-8 | After the first pair, each defined entry adds "&" and its pair, and undefined ones add nothing. |
| QueryPath.BuildPathShape | src/utils/buildPath.ts:2-10 | The result starts with "?". It is exactly "?" if and only if no key has a defined value. |
| QueryPath.JoinCons | src/utils/buildPath.ts:5-7 | A join of two or more pieces is the first piece, the separator, then the join of the rest. |
| QueryPath.JoinEmpty | src/utils/buildPath.ts:5-7 | A join of non-empty pieces is empty exactly when there are no pieces. |
| QueryPath.SplitAtFirst | src/utils/buildPath.ts:5-7 | Splitting at a separator absent from the first part yields that part, then the split of the rest. |
| QueryPath.SplitJoin | src/utils/buildPath.ts:5-7 | Splitting a join of separator-free pieces on the separator restores the pieces. |
| QueryPath.BuildPathRoundTrip | src/utils/buildPath.ts:5-7 | Suppose no key and no encoded value contains "&" or "=". Then splitting the text after "?" on "&", and each piece on "=", gives back the defined (key, encoded value) pairs in key order. |
| QueryPath.BuildPathExample | src/__test__/utils/buildPath.test.ts:4-5 | `{test: 1, foo: false, bar: undefined}` gives `?test=1&foo=false`. |
| Cache.MapDelete | src/cache/cacheHandler.ts:54 | Computes `Map.prototype.delete`. A string argument removes that key. An array argument matches no string key under SameValueZero, so it removes nothing. |
| Cache.NotStrictEqual | src/cache/cacheHandler.ts:55 | Computes `k !== arg`: a string is never strictly equal to an array. |
| Cache.Filter | src/cache/cacheHandler.ts:55 | Computes `keys.filter((k) => k !== arg)`: the keys that are not strictly equal to the argument, in order. |
| Cache.ItemSize | src/cache/cacheHandler.ts:32-34 | `getItemSize` of a string is twice its length. Of an iterator's `[key, value]` array it is `2|key| + 2|value|`. |
| Cache.EntryPairRemovesNothing | src/cache/cacheHandler.ts:54-55 | Deleting from the Map, or filtering `keys`, by the `[key, value]` array leaves both unchanged. |
| Cache.KeyArgRemovesKey | src/cache/cacheHandler.ts:54-55 | Deleting or filtering by the key string itself would have removed the key and added none. |
| Cache.OptionLimit | src/cache/cacheHandler.ts:16 | Computes `options.maxSizeCache \|\| 104857600`: a missing or zero limit becomes the default, and any other number is kept. |
| Cache.InitialState | src/cache/cacheHandler.ts:9-21 | A new cache is well formed and within its limit. |
| Cache.InitialLimit | src/cache/cacheHandler.ts:9-21 | The Map, `keys` and the counter start empty or 0. The limit is 104857600 unless `options.maxSizeCache` is a non-zero number, which is kept, negative or not. |
| Cache.Entries | src/cache/cacheHandler.ts:45 | Computes the entries `cache.entries()` yields: the Map's keys in insertion order, with their values. |
| Cache.ClampedSub | src/cache/cacheHandler.ts:56 | Computes `size - d >= 0 ? size - d : 0`. |
| Cache.Drained | src/cache/cacheHandler.ts:52-56 | Computes the counter after the loop body has run for each of the given entries in turn. |
| Cache.EntriesInOrder | src/cache/cacheHandler.ts:45 | The entry iterator yields every key of the Map once, in first-insertion order, with its current value. |
| Cache.DrainedBelow | src/cache/cacheHandler.ts:56 | Subtracting entry sizes with clamping never raises the counter. |
| Cache.ClearScan | src/cache/cacheHandler.ts:49-58 | Computes the `while` loop over the entries not yet visited. Each entry is sized, deleted and filtered out by its `[key, value]` array, and the counter is clamped at 0. Once the entries are used up while the condition still holds, the result is `Spins`. |
| Cache.ClearSpace | src/cache/cacheHandler.ts:44-59 | Computes `clearCacheSpace`: the scan over the Map's entries in insertion order. |
| Cache.ClearScanRemovesNothing | src/cache/cacheHandler.ts:44-59 | `clearCacheSpace` leaves the Map, its order, `keys` and the limit unchanged, and only lowers the counter. |
| Cache.ClearScanSpinsIff | src/cache/cacheHandler.ts:49-58 | The loop spins if and only if the fully drained counter plus the required space still reaches the limit; it then spins with the drained counter. When it stops, counter plus required space is below the limit. |
| Cache.Insert | src/cache/cacheHandler.ts:72-74 | Computes `cache.set`, `keys.push` and `size += itemSize`. A new key goes last in the Map's order and an existing key keeps its place. |
| Cache.Store | src/cache/cacheHandler.ts:62-76 | Computes `setItem`. An item larger than the limit changes nothing. If counter plus item exceeds the limit, `clearCacheSpace` runs first, and a spin there is `Hangs`. Then the item is inserted. |
| Cache.Find | src/cache/cacheHandler.ts:83-85 | Computes `getItem`: `undefined` unless `keys` includes the key, else the text handed to `JSON.parse`. |
| Cache.Cleared | src/cache/cacheHandler.ts:90-94 | Computes `clear`: empty Map and `keys`, counter 0, same limit. |
| Cache.DrainedPrefix | src/cache/cacheHandler.ts:49-58 | Draining a prefix of `m > 0` entries drains the first entry, then `m - 1` more. |
| Cache.ClearScanFinishedCounter | src/cache/cacheHandler.ts:49-58 | When the scan finishes, the counter takes a specific value. It is the counter drained over the shortest prefix of the entries after which counter plus required space falls below the limit. Every shorter prefix leaves the loop condition true. |
| Cache.ExactFitHangs | src/cache/cacheHandler.ts:49-58 | `setItem` of an item whose size equals the limit, while the counter is positive, never returns. |
| Cache.TooLargeIsDropped | src/cache/cacheHandler.ts:64-66 | An item larger than the limit changes nothing. |
| Cache.NegativeLimitStoresNothing | src/cache/cacheHandler.ts:66 | Under a negative limit every `setItem` changes nothing. |
| Cache.StoreWhenRoom | src/cache/cacheHandler.ts:66-75 | When counter plus item size is within the limit, `setItem` does exactly four things and nothing else changes: it sets the Map entry, where a new key goes last and an existing key keeps its place; it appends the key to `keys`; it adds the item's size; it keeps the limit. |
| Cache.StoreThenFind | src/cache/cacheHandler.ts:62-85 | After a `setItem` that returns with an item within the limit, `getItem` of that key yields the value. Every other key reads as before. |
| Cache.StoreWellFormed | src/cache/cacheHandler.ts:62-76 | `setItem` keeps the Map's order free of duplicates and keeps `keys` naming exactly the Map's keys, whether it returns or hangs. |
| Cache.StoreWithinLimit | src/cache/cacheHandler.ts:49-76 | After any `setItem`, the counter is at most the limit, or 0 under a negative limit; the limit is unchanged. |
| Cache.ClearedIsEmpty | src/cache/cacheHandler.ts:90-94 | After `clear`, nothing is found and the state is empty and within its limit. Clearing twice equals clearing once, and the limit stays. |
| Cache.RunKeepsLimit | src/cache/cacheHandler.ts:62-94 | A sequence of calls that return never changes the limit. |
| Cache.RunThenFind | src/cache/cacheHandler.ts:83-94 | After any sequence of `setItem`/`clear` calls that return, there are three cases for a key. Set within the limit since the last `clear`: `getItem` returns its last value. Cleared since: `undefined`. Otherwise: as before. |
| Cache.OverwriteDoubleCounts | src/cache/cacheHandler.ts:72-74 | Setting "k" to "v" twice yields counter 4 while the Map holds 2 bytes, and `keys` is `["k", "k"]`. The intended accounting "counter = stored bytes" holds after the first call and fails after the second. |
| Cache.OverwritesLeadToHang | src/cache/cacheHandler.ts:49-58 | With limit 6, setting "a" to "b" three times leaves counter 6 with one 2-byte entry. A following `setItem("c", "bb")` then never returns. |
| Cache.CacheHandler.constructor | src/cache/cacheHandler.ts:9-21 | The fields are the initial state for the given options (field initialiser first, then the body), and the class invariant holds. |
| Cache.CacheHandler.GetItemSize | src/cache/cacheHandler.ts:32-34 | Returns `sizeof(item)`: twice a string's length, or `2|k| + 2|v|` for a pair. |
| Cache.CacheHandler.GetSize | src/cache/cacheHandler.ts:36-38 | Returns the counter. |
| Cache.CacheHandler.GetMaxSize | src/cache/cacheHandler.ts:40-42 | Returns the limit. |
| Cache.CacheHandler.ClearCacheSpace | src/cache/cacheHandler.ts:44-59 | The `while` loop leaves the fields at the scan's final state and reports whether the source would loop forever. It keeps the class invariant. |
| Cache.CacheHandler.SetItem | src/cache/cacheHandler.ts:62-76 | Leaves the fields at the state `setItem` reaches, reports whether it hangs, and keeps the class invariant. |
| Cache.CacheHandler.GetItem | src/cache/cacheHandler.ts:83-85 | Returns the text handed to `JSON.parse` (`cache.get(key) \|\| ''`) when `keys` includes the key, and `undefined` otherwise. |
| Cache.CacheHandler.Clear | src/cache/cacheHandler.ts:90-94 | Empties the Map and `keys`, sets the counter to 0 and keeps the limit. |
| Pvgis.CheckRequestParams | src/pvgis/pvgisClient.ts:158-162 | Computes `checkRequestParams`: `false` when `lat` or `lon` is falsy or not a number, else `undefined`. |
| Pvgis.CheckNeverFails | src/pvgis/pvgisClient.ts:158-162 | `checkRequestParams` returns only `false`, or `undefined` exactly when `lat` and `lon` are non-zero numbers, so the "Incorrect requested params" throws are unreachable. |
| Pvgis.BooleanToInt | src/pvgis/pvgisClient.ts:181 | Computes `booleanToInt`: 1 for a truthy value, 0 otherwise. |
| Pvgis.PutFlags | src/pvgis/pvgisClient.ts:182-184 | Computes the `forEach`: each flag in turn is assigned the 0/1 code of its value in the original parameters. |
| Pvgis.Transformed | src/pvgis/pvgisClient.ts:169-189 | Computes `transformBooleanParamsToIntCode`: the spread copy, then the five flags rewritten. |
| Pvgis.TransformBooleanParamsToIntCode | src/pvgis/pvgisClient.ts:169-189 | The copy-then-`forEach` loop returns the copy of the parameters with each of the five flags rewritten in turn. |
| Pvgis.GetMissing | src/pvgis/pvgisClient.ts:183 | A key an object lacks reads as undefined. |
| Pvgis.PutFlagsGet | src/pvgis/pvgisClient.ts:182-184 | A rewritten flag reads as the 0/1 code of its original value; any other key reads as in the copy. |
| Pvgis.PutFlagsDistinct | src/pvgis/pvgisClient.ts:182-184 | Rewriting flags keeps keys unique. |
| Pvgis.TransformedValues | src/pvgis/pvgisClient.ts:169-189 | `usehorizon`, `pvcalculation`, `optimalinclination`, `optimalangles` and `components` become 1 when truthy and 0 otherwise, absent ones included. Every other key, such as `browser`, keeps its original value, and the result has unique keys. The input is a value and stays unchanged. |
| Pvgis.SeriesCalcParams | src/pvgis/pvgisClient.ts:76-79 | Computes `{outputformat: 'json', ...params}`. |
| Pvgis.OptimalAnglesParams | src/pvgis/pvgisClient.ts:126-131 | Computes `{outputformat: 'json', ...params, optimalangles: true, optimalinclination: true}`. |
| Pvgis.SeriesCalcParamsValues | src/pvgis/pvgisClient.ts:76-79 | `outputformat` is "json" only when the caller's parameters lack that key; every other key reads as the caller's. |
| Pvgis.OptimalAnglesForced | src/pvgis/pvgisClient.ts:126-131 | `calculateOptimalAngles` always sends `optimalangles` and `optimalinclination` as 1, whatever the caller passed. |
| Pvgis.RequestUrl | src/pvgis/pvgisClient.ts:87-90 | Computes `if (queryPath)` and the URL: endpoint + "/" + tool + query path, or nothing on an empty query path. |
| Pvgis.UrlAlwaysBuilt | src/pvgis/pvgisClient.ts:87-90 | The query path is never empty, so `if (queryPath)` always holds. The URL is endpoint + "/" + tool + `buildPath(...)`. |
| Pvgis.Response | src/pvgis/pvgisClient.ts:92-94 | Computes the response: the cached text on a truthy hit, else the fetched text. |
| Pvgis.ResponseSource | src/pvgis/pvgisClient.ts:92-94 | A truthy cache hit is used without fetching; a key not in `keys` is fetched. |
| Pvgis.ReplyFor | src/pvgis/pvgisClient.ts:98-108 | Computes the reply: `{data, url}` when `returnUrl` is set, then the callback with `outputs.hourly`, then the bare response. |
| Pvgis.SeriesCalcAt | src/pvgis/pvgisClient.ts:92-108 | Computes `seriesCalc` from the URL on: the response, then `setItem`, then the reply. |
| Pvgis.SeriesCalcCall | src/pvgis/pvgisClient.ts:70-110 | Computes `seriesCalc`: the defaulted parameters, the check, the transformation, the URL, then the cache step and the reply. |
| Pvgis.OptimalAnglesAt | src/pvgis/pvgisClient.ts:144-153 | Computes `calculateOptimalAngles` from the URL on: the response, `setItem`, then the angles of a fixed mounting or `undefined`. |
| Pvgis.OptimalAnglesWith | src/pvgis/pvgisClient.ts:133-154 | Computes `calculateOptimalAngles` from the check on, given the prepared parameters. |
| Pvgis.OptimalAnglesCall | src/pvgis/pvgisClient.ts:123-155 | Computes `calculateOptimalAngles`: the parameters with the two forced flags, then the same steps as `OptimalAnglesWith`. |
| Pvgis.SeriesCalcSequence | src/pvgis/pvgisClient.ts:76-109 | `seriesCalc` stores the response under its URL after every call, hit or miss. Its reply is `{data, url}` when `returnUrl` is set, the callback invoked with `outputs.hourly` (returning undefined) when a function is passed, and the bare response otherwise. |
| Pvgis.OptimalAnglesSequence | src/pvgis/pvgisClient.ts:126-155 | `calculateOptimalAngles` also builds its URL and stores on every call. It returns `{azimuth, slope}` when the response has a fixed mounting system, and `undefined` otherwise. |
| Pvgis.RepeatedCallGrowsCache | src/pvgis/pvgisClient.ts:92-96 | A call whose response fits appends its URL to `keys` once more and adds the response's size to the counter again, even on a hit. The response stays readable. |
| Pvgis.EndpointFor | src/pvgis/pvgisClient.ts:20-27 | Computes the endpoint after construction: a given non-empty endpoint, else the default written with a space after `https://`. |
| Pvgis.PVGISClient.constructor | src/pvgis/pvgisClient.ts:20-27 | The endpoint is overridden only by a given non-empty endpoint. A fresh default cache is created whatever `enableCache` says. |
| Pvgis.PVGISClient.SetPvgisEndPoint | src/pvgis/pvgisClient.ts:31-33 | Sets the endpoint and nothing else. |
| Pvgis.PVGISClient.InitializeCache | src/pvgis/pvgisClient.ts:115-117 | Replaces the cache with a fresh default one and keeps the endpoint. |
| Pvgis.PVGISClient.CachedFetch | src/pvgis/pvgisClient.ts:92-96 | Takes the response from `getItem` on a truthy hit and from the fetch otherwise, then always calls `setItem(url, response)`. |
| Pvgis.PVGISClient.SeriesCalc | src/pvgis/pvgisClient.ts:70-110 | Returns the reply of `SeriesCalcCall` and leaves the cache at its state. |
| Pvgis.PVGISClient.CalculateOptimalAngles | src/pvgis/pvgisClient.ts:123-155 | Returns the reply of `OptimalAnglesCall` and leaves the cache at its state. |

## Left out

- HTTP, `async`/`await` and the `URL` construction in `src/utils/fetch.ts`. That file is not part of this model. A fetch is the parameter `Runtime.fetch`, which maps each URL to an opaque response text, and it never fails.
- `encodeURIComponent` and the conversion of numbers and booleans to text are the parameter `Runtime.encode`.
- `JSON.parse` and `JSON.stringify` are not interpreted. A response is identified with its JSON text, `getItem` returns the text it would parse, and the truthiness of the parsed value is the parameter `Runtime.jsonTruthy`.
- `JSON.parse('')` throwing on a stored empty text is not modelled. Neither is a fetch that yields `undefined`, which would store `JSON.stringify(undefined)`.
- Navigation into a response (`outputs.hourly`, `inputs.mounting_system.fixed`) is made of the parameters `Runtime.hourly` and `Runtime.fixedAngles`. `Runtime.fixedAngles` yields a pair of numbers or nothing, so the TypeError from `azimuth.value` or `slope.value`, raised when `fixed` is truthy but lacks `azimuth` or `slope`, is not modelled.
- The callback's own effects: the model records only the argument it receives.
- `src/model/tools/pvgisTools.ts` is not part of this model. The tool name `PVGISTools.seriescalc` is the parameter `Runtime.tool`.
- `createUUID` and `clientUUID` use the clock and `Math.random`.
- Records: keys that are array indices (such as `"5"`) are not modelled. JavaScript's `Object.keys`, for-in and spread put them first, in ascending numeric order, whereas `Records.Put` and `Records.Spread` keep every key in insertion order. No parameter or flag name of the client is an array index.
- The type-only files under `src/model/`. `SeriesCalcParams` is a record of primitive values.
- The cache's optional field (`this.cache?`). The constructor always creates a cache, so the client's methods require one, and the `undefined` paths are not modelled.
- Stack overflow is a depth bound. `sizeof` takes a stack depth, and running out gives RangeError; the cache calls it with `Cache.StackDepth`, which stands in for the engine's stack. Sizing a key (a string or symbol) is not charged a level.
- Properties that `for...in` inherits through prototype chains. Objects are modelled without prototype properties, and property reads have no getters.
- `hasOwnProperty` on a `formErrors` that is a function, boolean, number or symbol gives false. A function's own properties are not modelled.
- A reference outside the modelled heap costs 0. This cannot happen in JavaScript.
- Number values are reals: NaN and the infinities are left out, as are a NaN or non-integer `maxSizeCache` or `requiredSpace`.
- Strings are taken to hold characters of the Basic Multilingual Plane only. A Dafny `char` is a Unicode scalar value, so a character outside that plane is one `char`, costing 2 bytes, where JavaScript counts two UTF-16 code units and 4 bytes; lone surrogate halves cannot be written at all.
- The entry iterator of `clearCacheSpace` is live. The model takes the entries when the loop starts. Because nothing is deleted or added during the loop (`Cache.ClearScanRemovesNothing`), the live iterator yields the same entries.
- A `clearCacheSpace` that never returns is reported as the outcome `Spins`/`Hangs`, with the state it would spin in, because a model function must return.
- The intended oldest-first eviction, with a counter equal to the stored bytes, is not modelled as an alternative implementation. `Cache.Accounted` states it, and `Cache.OverwriteDoubleCounts` shows the code violating it.
- Pvgis.CheckNeverFails states the check for `lat` and `lon` as modelled primitive values; `typeof` checks on other JavaScript types are not modelled.
