/**
 * The byte-size estimator of the response cache (src/cache/utils/sizeOf.ts).
 *
 * JavaScript values are modelled by `JsValue`. Plain objects, arrays and Buffers
 * have identity, so they live in a `Heap` and are handled by reference: sharing and
 * cycles can be written down, and the `seen` set of the estimator is a set of those
 * references. A call that would overflow the engine's stack is modelled by a depth
 * bound `fuel`: a calculator call with no fuel left throws `RangeError`.
 */
module SizeOf {
  import opened Wrappers

  // ECMA_SIZES: a String element is a 16-bit code unit (section 8.4 of ECMA-262 5.1),
  // a Number is an IEEE-754 double (section 8.5 of ECMA-262 5.1).
  const StringUnitBytes: nat := 2
  const BooleanBytes: nat := 4
  const NumberBytes: nat := 8

  type Ref = nat

  /**
   * A symbol. `Symbol.for(description)` gives the registered symbol of that text, equal to
   * every other registered symbol of the same text. Each call of `Symbol(description)`
   * gives a new symbol; `id` tells such symbols apart even when their descriptions agree.
   */
  datatype Symbol = Registered(description: string) | Unique(id: nat, description: string)

  datatype PropertyKey = Name(name: string) | SymbolKey(symbol: Symbol)

  datatype JsValue =
    | Undefined
    | Null
    | Boolean(b: bool)
    | Number(x: real)
    | String(s: string)
    | SymbolValue(symbol: Symbol)
    | Function
    | Object(ref: Ref)

  /** An own property of a plain object. */
  datatype Property = Property(key: PropertyKey, value: JsValue, enumerable: bool)

  datatype HeapObject =
    | PlainObject(properties: seq<Property>)
    | ArrayObject(elements: seq<JsValue>)
    | BufferObject(length: nat)

  type Heap = map<Ref, HeapObject>

  datatype Exception = RangeError | TypeError

  datatype Outcome = Bytes(n: nat) | Thrown(exception: Exception)

  /** What one calculator call yields, with the `seen` set as that call leaves it. */
  datatype Sized = Sized(outcome: Outcome, seen: set<Ref>)

  // ---------------------------------------------------------------------------
  // Runtime helpers: Symbol.keyFor, Symbol.prototype.toString, property lookup,
  // own-property tests and the for-in enumeration of own properties.
  // ---------------------------------------------------------------------------

  function KeyFor(sym: Symbol): Option<string> {
    if sym.Registered? then Some(sym.description) else None
  }

  function SymbolToString(sym: Symbol): string {
    "Symbol(" + sym.description + ")"
  }

  /** The `case 'symbol'` branch of the calculator. */
  function SymbolBytes(sym: Symbol): nat {
    var key := KeyFor(sym);
    if key.Some? && key.value != "" then |key.value| * StringUnitBytes
    else (|SymbolToString(sym)| - 8) * StringUnitBytes
  }

  /** The size the calculator gives a property key (a string or a symbol). */
  function KeyBytes(key: PropertyKey): nat {
    match key
    case Name(name) => |name| * StringUnitBytes
    case SymbolKey(sym) => SymbolBytes(sym)
  }

  /** `object[key]` on a plain object: the first own property with that key, else undefined. */
  function Lookup(properties: seq<Property>, key: PropertyKey): JsValue {
    if properties == [] then Undefined
    else if properties[0].key == key then properties[0].value
    else Lookup(properties[1..], key)
  }

  predicate HasOwnKey(properties: seq<Property>, key: PropertyKey) {
    exists i :: 0 <= i < |properties| && properties[i].key == key
  }

  function DigitChar(d: nat): char
    requires d < 10
  {
    (48 + d) as char
  }

  /** The canonical decimal text of a natural number. */
  function DecimalString(i: nat): string {
    if i < 10 then [DigitChar(i)] else DecimalString(i / 10) + [DigitChar(i % 10)]
  }

  /** `name` is one of the indices 0 .. n-1 written in decimal. */
  predicate IsIndexBelow(name: string, n: nat) {
    exists i :: 0 <= i < n && name == DecimalString(i)
  }

  /** `v.hasOwnProperty(name)` for a value that is neither null nor undefined. */
  predicate HasOwnProperty(heap: Heap, v: JsValue, name: string) {
    match v
    case String(s) => name == "length" || IsIndexBelow(name, |s|)
    case Object(r) =>
      r in heap &&
      (match heap[r]
       case PlainObject(properties) => HasOwnKey(properties, Name(name))
       case ArrayObject(elements) => name == "length" || IsIndexBelow(name, |elements|)
       case BufferObject(length) => IsIndexBelow(name, length))
    case _ => false
  }

  /** The keys `for (const prop in obj)` visits on an object without prototype properties. */
  function EnumerableNames(properties: seq<Property>): seq<string> {
    if properties == [] then []
    else
      var rest := EnumerableNames(properties[1..]);
      if properties[0].key.Name? && properties[0].enumerable then [properties[0].key.name] + rest else rest
  }

  /** `Object.getOwnPropertySymbols(obj)`. */
  function OwnSymbols(properties: seq<Property>): seq<PropertyKey> {
    if properties == [] then []
    else
      var rest := OwnSymbols(properties[1..]);
      if properties[0].key.SymbolKey? then [properties[0].key] + rest else rest
  }

  /** The names among `names` that `owner.hasOwnProperty` accepts, in order. */
  function NamesOwnedBy(heap: Heap, owner: JsValue, names: seq<string>): seq<PropertyKey> {
    if names == [] then []
    else
      var init := NamesOwnedBy(heap, owner, names[..|names| - 1]);
      var last := names[|names| - 1];
      if HasOwnProperty(heap, owner, last) then init + [Name(last)] else init
  }

  // ---------------------------------------------------------------------------
  // allProperties
  // ---------------------------------------------------------------------------

  /**
   * What `allProperties(obj)` returns or throws. Every enumerated name is tested with
   * `obj.formErrors.hasOwnProperty(name)`, so an object with an enumerable string key
   * throws a TypeError unless it has a non-nullish `formErrors`; the symbol keys are
   * appended after the accepted names.
   */
  function PropertyKeys(heap: Heap, properties: seq<Property>): Result<seq<PropertyKey>, Exception> {
    var names := EnumerableNames(properties);
    if names == [] then Success(OwnSymbols(properties))
    else
      var formErrors := Lookup(properties, Name("formErrors"));
      if formErrors.Undefined? || formErrors.Null? then Failure(TypeError)
      else Success(NamesOwnedBy(heap, formErrors, names) + OwnSymbols(properties))
  }

  /** allProperties: the for-in loop that pushes the accepted names, then the symbols. */
  method AllProperties(heap: Heap, properties: seq<Property>) returns (r: Result<seq<PropertyKey>, Exception>)
    ensures r == PropertyKeys(heap, properties)
  {
    var stringProperties: seq<PropertyKey> := [];
    var names := EnumerableNames(properties);
    for i := 0 to |names|
      invariant i > 0 ==> !Lookup(properties, Name("formErrors")).Undefined?
      invariant i > 0 ==> !Lookup(properties, Name("formErrors")).Null?
      invariant stringProperties == NamesOwnedBy(heap, Lookup(properties, Name("formErrors")), names[..i])
    {
      var formErrors := Lookup(properties, Name("formErrors"));
      if formErrors.Undefined? || formErrors.Null? {
        return Failure(TypeError);
      }
      assert names[..i + 1][..i] == names[..i];
      if HasOwnProperty(heap, formErrors, names[i]) {
        stringProperties := stringProperties + [Name(names[i])];
      }
    }
    assert names[..|names|] == names;
    var symbolProperties := OwnSymbols(properties);
    if names == [] {
      assert stringProperties + symbolProperties == symbolProperties;
    } else {
      assert !Lookup(properties, Name("formErrors")).Undefined? && !Lookup(properties, Name("formErrors")).Null?;
      assert stringProperties == NamesOwnedBy(heap, Lookup(properties, Name("formErrors")), names);
    }
    stringProperties := stringProperties + symbolProperties;
    return Success(stringProperties);
  }

  // ---------------------------------------------------------------------------
  // calculator, the array map/reduce, and the per-object loop of sizeOfObject
  // ---------------------------------------------------------------------------

  predicate IsBuffer(heap: Heap, v: JsValue) {
    v.Object? && v.ref in heap && heap[v.ref].BufferObject?
  }

  /**
   * `getCalculator(seen)(v)`: the Buffer test, then the `typeof` dispatch. Arrays are
   * summed element by element; other objects go to sizeOfObject.
   */
  function Calculator(heap: Heap, fuel: nat, seen: set<Ref>, v: JsValue): Sized
    decreases fuel, 0, 0
  {
    if fuel == 0 then Sized(Thrown(RangeError), seen)
    else if IsBuffer(heap, v) then Sized(Bytes(heap[v.ref].length), seen)
    else
      match v
      case String(s) => Sized(Bytes(|s| * StringUnitBytes), seen)
      case Boolean(_) => Sized(Bytes(BooleanBytes), seen)
      case Number(_) => Sized(Bytes(NumberBytes), seen)
      case SymbolValue(sym) => Sized(Bytes(SymbolBytes(sym)), seen)
      case Null => Sized(Bytes(0), seen) // typeof null is 'object'; sizeOfObject(seen, null) is 0
      case Object(r) =>
        if r in heap && heap[r].ArrayObject? then SumElements(heap, fuel - 1, seen, heap[r].elements)
        else if r in heap && heap[r].PlainObject? then ObjectBytes(heap, fuel - 1, seen, heap[r].properties)
        else Sized(Bytes(0), seen) // a reference outside the heap
      case _ => Sized(Bytes(0), seen) // undefined and functions: the default branch
  }

  /**
   * `elements.map(getCalculator(seen)).reduce((acc, curr) => acc + curr, 0)`: the elements
   * are sized in order, the first exception stops the map, and no element is added to `seen`.
   */
  function SumElements(heap: Heap, fuel: nat, seen: set<Ref>, elements: seq<JsValue>): Sized
    decreases fuel, 1, |elements|
  {
    if elements == [] then Sized(Bytes(0), seen)
    else
      var first := Calculator(heap, fuel, seen, elements[0]);
      if first.outcome.Thrown? then first
      else
        var rest := SumElements(heap, fuel, first.seen, elements[1..]);
        if rest.outcome.Thrown? then rest
        else Sized(Bytes(first.outcome.n + rest.outcome.n), rest.seen)
  }

  /** What `sizeOfObject(seen, object)` returns or throws, for a plain object. */
  function ObjectBytes(heap: Heap, fuel: nat, seen: set<Ref>, properties: seq<Property>): Sized
    decreases fuel, 2, 0
  {
    match PropertyKeys(heap, properties)
    case Failure(e) => Sized(Thrown(e), seen)
    case Success(keys) => ObjectLoop(heap, fuel, properties, keys, seen, 0)
  }

  /**
   * The remaining iterations of the loop of sizeOfObject over `keys`, with `bytes` counted
   * so far. A property whose value is an object already in `seen` is skipped; otherwise
   * the object is marked, the key is counted, and the value is sized inside the `try`:
   * a RangeError resets the total to 0, any other exception is swallowed.
   */
  function ObjectLoop(heap: Heap, fuel: nat, properties: seq<Property>, keys: seq<PropertyKey>,
                      seen: set<Ref>, bytes: nat): Sized
    decreases fuel, 1, |keys|
  {
    if keys == [] then Sized(Bytes(bytes), seen)
    else
      var value := Lookup(properties, keys[0]);
      if value.Object? && value.ref in seen then ObjectLoop(heap, fuel, properties, keys[1..], seen, bytes)
      else
        var marked := if value.Object? then seen + {value.ref} else seen;
        var counted := bytes + KeyBytes(keys[0]);
        var sized := Calculator(heap, fuel, marked, value);
        var next := match sized.outcome
          case Bytes(n) => counted + n
          case Thrown(RangeError) => 0
          case Thrown(_) => counted;
        ObjectLoop(heap, fuel, properties, keys[1..], sized.seen, next)
  }

  /** sizeOfObject for a plain object: the loop that accumulates `bytes` and updates `seen`. */
  method SizeOfObject(heap: Heap, fuel: nat, seen0: set<Ref>, properties: seq<Property>) returns (r: Sized)
    ensures r == ObjectBytes(heap, fuel, seen0, properties)
  {
    var all := AllProperties(heap, properties);
    if all.Failure? {
      return Sized(Thrown(all.error), seen0);
    }
    var keys := all.value;
    var seen := seen0;
    var bytes: nat := 0;
    for i := 0 to |keys|
      invariant ObjectLoop(heap, fuel, properties, keys[i..], seen, bytes) == ObjectBytes(heap, fuel, seen0, properties)
    {
      assert keys[i..][0] == keys[i] && keys[i..][1..] == keys[i + 1..];
      ObjectLoopFirstProperty(heap, fuel, properties, keys[i..], seen, bytes);
      var key := keys[i];
      var value := Lookup(properties, key);
      // Do not recalculate circular references
      if value.Object? {
        if value.ref in seen {
          continue;
        }
        seen := seen + {value.ref};
      }
      bytes := bytes + KeyBytes(key);
      var sized := Calculator(heap, fuel, seen, value);
      seen := sized.seen;
      match sized.outcome {
        case Bytes(n) => bytes := bytes + n;
        case Thrown(e) =>
          if e == RangeError {
            bytes := 0;
          }
      }
    }
    return Sized(Bytes(bytes), seen);
  }

  /**
   * `sizeof(object)`: the calculator with a fresh `seen` set. Every primitive kind has a
   * fixed cost whatever its value, a Buffer costs its length, and a string two bytes per
   * code unit; with no stack left the call throws RangeError.
   */
  function Sizeof(heap: Heap, fuel: nat, v: JsValue): (r: Outcome)
    ensures fuel == 0 ==> r == Thrown(RangeError)
    ensures fuel > 0 && v.String? ==> r == Bytes(2 * |v.s|)
    ensures fuel > 0 && v.Boolean? ==> r == Bytes(4)
    ensures fuel > 0 && v.Number? ==> r == Bytes(8)
    ensures fuel > 0 && v.SymbolValue? ==> r == Bytes(2 * |v.symbol.description|)
    ensures fuel > 0 && (v.Undefined? || v.Null? || v.Function?) ==> r == Bytes(0)
    ensures fuel > 0 && IsBuffer(heap, v) ==> r == Bytes(heap[v.ref].length)
  {
    var sized := Calculator(heap, fuel, {}, v);
    if v.SymbolValue? then SymbolBytesIsDescription(v.symbol); sized.outcome else sized.outcome
  }

  // ---------------------------------------------------------------------------
  // Properties
  // ---------------------------------------------------------------------------

  /** A registered and an unregistered symbol both cost two bytes per description unit. */
  lemma SymbolBytesIsDescription(sym: Symbol)
    ensures SymbolBytes(sym) == 2 * |sym.description|
  {
    assert |SymbolToString(sym)| == |sym.description| + 8;
  }

  /** Sizing an array of two parts is sizing the first part, then the second with its `seen`. */
  lemma {:induction false} SumElementsAppend(heap: Heap, fuel: nat, seen: set<Ref>, a: seq<JsValue>, b: seq<JsValue>)
    ensures var whole := SumElements(heap, fuel, seen, a + b);
            var left := SumElements(heap, fuel, seen, a);
            var right := SumElements(heap, fuel, left.seen, b);
            whole == if left.outcome.Thrown? then left
                     else if right.outcome.Thrown? then right
                     else Sized(Bytes(left.outcome.n + right.outcome.n), right.seen)
    decreases |a|
  {
    if a == [] {
      assert a + b == b;
    } else {
      assert (a + b)[0] == a[0] && (a + b)[1..] == a[1..] + b;
      var first := Calculator(heap, fuel, seen, a[0]);
      if !first.outcome.Thrown? {
        SumElementsAppend(heap, fuel, first.seen, a[1..], b);
      }
    }
  }

  function TotalLength(strings: seq<string>): nat {
    if strings == [] then 0 else |strings[0]| + TotalLength(strings[1..])
  }

  function Strings(strings: seq<string>): (r: seq<JsValue>)
    ensures |r| == |strings|
    ensures forall i :: 0 <= i < |r| ==> r[i] == String(strings[i])
  {
    if strings == [] then [] else [String(strings[0])] + Strings(strings[1..])
  }

  /** An array of strings costs two bytes per code unit of all of them, and leaves `seen` alone. */
  lemma {:induction false} StringElements(heap: Heap, fuel: nat, seen: set<Ref>, strings: seq<string>)
    requires fuel > 0
    ensures SumElements(heap, fuel, seen, Strings(strings)) == Sized(Bytes(2 * TotalLength(strings)), seen)
  {
    if strings != [] {
      assert Strings(strings)[1..] == Strings(strings[1..]);
      StringElements(heap, fuel, seen, strings[1..]);
    }
  }

  /** The `[key, value]` pair yielded by a Map iterator, sized as the cache sizes it. */
  lemma PairBytes(heap: Heap, fuel: nat, r: Ref, key: string, value: string)
    requires fuel >= 2
    requires r in heap && heap[r] == ArrayObject([String(key), String(value)])
    ensures Sizeof(heap, fuel, Object(r)) == Bytes(2 * |key| + 2 * |value|)
  {
    assert Strings([key, value]) == [String(key), String(value)];
    StringElements(heap, fuel - 1, {}, [key, value]);
    assert TotalLength([key, value]) == |key| + |value| by {
      assert [key, value][1..] == [value] && [value][1..] == [];
      assert TotalLength([value]) == |value| + TotalLength([]);
    }
  }

  /** Sizing only ever adds references to `seen`. */
  lemma {:induction false} CalculatorSeenGrows(heap: Heap, fuel: nat, seen: set<Ref>, v: JsValue)
    ensures seen <= Calculator(heap, fuel, seen, v).seen
    decreases fuel, 0, 0
  {
    if fuel > 0 && !IsBuffer(heap, v) && v.Object? && v.ref in heap {
      if heap[v.ref].ArrayObject? {
        SumElementsSeenGrows(heap, fuel - 1, seen, heap[v.ref].elements);
      } else if heap[v.ref].PlainObject? {
        ObjectBytesSeenGrows(heap, fuel - 1, seen, heap[v.ref].properties);
      }
    }
  }

  lemma {:induction false} SumElementsSeenGrows(heap: Heap, fuel: nat, seen: set<Ref>, elements: seq<JsValue>)
    ensures seen <= SumElements(heap, fuel, seen, elements).seen
    decreases fuel, 1, |elements|
  {
    if elements != [] {
      CalculatorSeenGrows(heap, fuel, seen, elements[0]);
      var first := Calculator(heap, fuel, seen, elements[0]);
      if !first.outcome.Thrown? {
        SumElementsSeenGrows(heap, fuel, first.seen, elements[1..]);
      }
    }
  }

  lemma {:induction false} ObjectBytesSeenGrows(heap: Heap, fuel: nat, seen: set<Ref>, properties: seq<Property>)
    ensures seen <= ObjectBytes(heap, fuel, seen, properties).seen
    decreases fuel, 2, 0
  {
    var all := PropertyKeys(heap, properties);
    if all.Success? {
      ObjectLoopSeenGrows(heap, fuel, properties, all.value, seen, 0);
    }
  }

  lemma {:induction false} ObjectLoopSeenGrows(heap: Heap, fuel: nat, properties: seq<Property>,
                                               keys: seq<PropertyKey>, seen: set<Ref>, bytes: nat)
    ensures seen <= ObjectLoop(heap, fuel, properties, keys, seen, bytes).seen
    decreases fuel, 1, |keys|
  {
    if keys != [] {
      var value := Lookup(properties, keys[0]);
      if value.Object? && value.ref in seen {
        ObjectLoopSeenGrows(heap, fuel, properties, keys[1..], seen, bytes);
      } else {
        var marked := if value.Object? then seen + {value.ref} else seen;
        var counted := bytes + KeyBytes(keys[0]);
        CalculatorSeenGrows(heap, fuel, marked, value);
        var sized := Calculator(heap, fuel, marked, value);
        var next := match sized.outcome
          case Bytes(n) => counted + n
          case Thrown(RangeError) => 0
          case Thrown(_) => counted;
        ObjectLoopSeenGrows(heap, fuel, properties, keys[1..], sized.seen, next);
      }
    }
  }

  /**
   * The rules of one iteration of sizeOfObject's loop, for any property and any count so far:
   * a value already in `seen` skips its key as well; otherwise the key is counted and then
   * the value, a RangeError discards everything counted so far, and any other exception
   * keeps the count with the key but without the value.
   */
  lemma ObjectLoopFirstProperty(heap: Heap, fuel: nat, properties: seq<Property>,
                                keys: seq<PropertyKey>, seen: set<Ref>, bytes: nat)
    requires keys != []
    ensures var value := Lookup(properties, keys[0]);
            value.Object? && value.ref in seen ==>
              ObjectLoop(heap, fuel, properties, keys, seen, bytes) ==
              ObjectLoop(heap, fuel, properties, keys[1..], seen, bytes)
    ensures var value := Lookup(properties, keys[0]);
            var sized := Calculator(heap, fuel, if value.Object? then seen + {value.ref} else seen, value);
            !(value.Object? && value.ref in seen) ==>
              ObjectLoop(heap, fuel, properties, keys, seen, bytes) ==
              ObjectLoop(heap, fuel, properties, keys[1..], sized.seen,
                         if sized.outcome == Thrown(RangeError) then 0
                         else if sized.outcome.Thrown? then bytes + KeyBytes(keys[0])
                         else bytes + KeyBytes(keys[0]) + sized.outcome.n)
  {
  }

  /** The loop of sizeOfObject never throws: every exception from a value is caught. */
  lemma {:induction false} ObjectLoopNeverThrows(heap: Heap, fuel: nat, properties: seq<Property>,
                                                 keys: seq<PropertyKey>, seen: set<Ref>, bytes: nat)
    ensures ObjectLoop(heap, fuel, properties, keys, seen, bytes).outcome.Bytes?
    decreases |keys|
  {
    if keys != [] {
      var value := Lookup(properties, keys[0]);
      ObjectLoopFirstProperty(heap, fuel, properties, keys, seen, bytes);
      if value.Object? && value.ref in seen {
        ObjectLoopNeverThrows(heap, fuel, properties, keys[1..], seen, bytes);
      } else {
        var sized := Calculator(heap, fuel, if value.Object? then seen + {value.ref} else seen, value);
        var next := if sized.outcome == Thrown(RangeError) then 0
                    else if sized.outcome.Thrown? then bytes + KeyBytes(keys[0])
                    else bytes + KeyBytes(keys[0]) + sized.outcome.n;
        ObjectLoopNeverThrows(heap, fuel, properties, keys[1..], sized.seen, next);
      }
    }
  }

  function KeysOf(properties: seq<Property>): (r: seq<PropertyKey>)
    ensures |r| == |properties|
    ensures forall i :: 0 <= i < |r| ==> r[i] == properties[i].key
  {
    if properties == [] then [] else [properties[0].key] + KeysOf(properties[1..])
  }

  /** An object whose keys are all symbols never reads `formErrors`: its keys are its symbols. */
  lemma {:induction false} SymbolKeyedProperties(heap: Heap, properties: seq<Property>)
    requires forall i :: 0 <= i < |properties| ==> properties[i].key.SymbolKey?
    ensures EnumerableNames(properties) == []
    ensures OwnSymbols(properties) == KeysOf(properties)
    ensures PropertyKeys(heap, properties) == Success(KeysOf(properties))
  {
    if properties != [] {
      SymbolKeyedProperties(heap, properties[1..]);
    }
  }

  lemma {:induction false} EnumerableNamesNonEmpty(properties: seq<Property>, i: nat)
    requires i < |properties| && properties[i].key.Name? && properties[i].enumerable
    ensures EnumerableNames(properties) != []
  {
    if i > 0 {
      EnumerableNamesNonEmpty(properties[1..], i - 1);
    }
  }

  /**
   * `allProperties` dereferences `obj.formErrors` before any `try`: a top-level plain object
   * with an enumerable string key and no (or a nullish) `formErrors` makes sizeof throw.
   */
  lemma FormErrorsRequired(heap: Heap, fuel: nat, seen: set<Ref>, r: Ref)
    requires fuel > 0 && r in heap && heap[r].PlainObject?
    requires exists i :: 0 <= i < |heap[r].properties| && heap[r].properties[i].key.Name? && heap[r].properties[i].enumerable
    requires Lookup(heap[r].properties, Name("formErrors")) in {Undefined, Null}
    ensures Calculator(heap, fuel, seen, Object(r)) == Sized(Thrown(TypeError), seen)
    ensures Sizeof(heap, fuel, Object(r)) == Thrown(TypeError)
  {
    var props := heap[r].properties;
    var i :| 0 <= i < |props| && props[i].key.Name? && props[i].enumerable;
    EnumerableNamesNonEmpty(props, i);
    assert PropertyKeys(heap, props) == Failure(TypeError);
    OnPlainObject(heap, fuel, seen, r);
    OnPlainObject(heap, fuel, {}, r);
  }

  /** The calculator hands a plain object to sizeOfObject one level deeper. */
  lemma OnPlainObject(heap: Heap, fuel: nat, seen: set<Ref>, r: Ref)
    requires fuel > 0 && r in heap && heap[r].PlainObject?
    ensures Calculator(heap, fuel, seen, Object(r)) == ObjectBytes(heap, fuel - 1, seen, heap[r].properties)
  {
  }

  /** The empty object `{}` costs nothing; its missing `formErrors` is never read. */
  lemma EmptyObjectIsFree(heap: Heap, fuel: nat, r: Ref)
    requires fuel > 0 && r in heap && heap[r] == PlainObject([])
    ensures Sizeof(heap, fuel, Object(r)) == Bytes(0)
  {
    OnPlainObject(heap, fuel, {}, r);
  }

  /** An array that contains itself overflows the stack at every depth: sizeof throws RangeError. */
  lemma {:induction false} SelfContainingArrayOverflows(heap: Heap, fuel: nat, seen: set<Ref>, a: Ref)
    requires a in heap && heap[a] == ArrayObject([Object(a)])
    ensures Calculator(heap, fuel, seen, Object(a)).outcome == Thrown(RangeError)
  {
    if fuel > 0 {
      SelfContainingArrayOverflows(heap, fuel - 1, seen, a);
      assert SumElements(heap, fuel - 1, seen, [Object(a)]).outcome == Thrown(RangeError);
    }
  }

  /** The object of a single symbol-keyed property to `value`, as sizeOfObject runs its loop. */
  lemma SingleSymbolProperty(heap: Heap, fuel: nat, seen: set<Ref>, sym: Symbol, value: JsValue)
    ensures var props := [Property(SymbolKey(sym), value, true)];
            ObjectBytes(heap, fuel, seen, props) == ObjectLoop(heap, fuel, props, [SymbolKey(sym)], seen, 0)
  {
    var props := [Property(SymbolKey(sym), value, true)];
    SymbolKeyedProperties(heap, props);
    assert KeysOf(props) == [SymbolKey(sym)];
  }

  /**
   * An object that refers to itself is sized once: on the second visit its reference is
   * in `seen`, so the property is skipped and sizing terminates with the key's cost.
   */
  lemma SelfReferenceCountedOnce(heap: Heap, fuel: nat, o: Ref, sym: Symbol)
    requires fuel >= 2 && o in heap && heap[o] == PlainObject([Property(SymbolKey(sym), Object(o), true)])
    ensures Sizeof(heap, fuel, Object(o)) == Bytes(2 * |sym.description|)
  {
    var props := heap[o].properties;
    var keys := [SymbolKey(sym)];
    assert keys[1..] == [];
    assert Lookup(props, SymbolKey(sym)) == Object(o);
    // the visit from the top
    OnPlainObject(heap, fuel, {}, o);
    SingleSymbolProperty(heap, fuel - 1, {}, sym, Object(o));
    // the nested visit finds `o` in `seen`
    OnPlainObject(heap, fuel - 1, {o}, o);
    SingleSymbolProperty(heap, fuel - 2, {o}, sym, Object(o));
    var inner := Calculator(heap, fuel - 1, {o}, Object(o));
    assert inner == Sized(Bytes(0), {o});
    assert (var none: set<Ref> := {}; none + {o}) == {o};
    assert ObjectLoop(heap, fuel - 1, props, keys, {}, 0)
        == ObjectLoop(heap, fuel - 1, props, [], {o}, KeyBytes(SymbolKey(sym)));
    SymbolBytesIsDescription(sym);
  }

  /**
   * A RangeError while sizing a property value resets the object's running total: the
   * cost of a number property counted before it is lost as well.
   */
  lemma RangeErrorResetsTotal(heap: Heap, fuel: nat, o: Ref, a: Ref, s1: Symbol, s2: Symbol)
    requires o != a && o in heap && a in heap && heap[a] == ArrayObject([Object(a)])
    requires heap[o] == PlainObject([Property(SymbolKey(s1), Number(1.0), true),
                                     Property(SymbolKey(s2), Object(a), true)])
    requires s1 != s2 && fuel >= 2
    ensures Sizeof(heap, fuel, Object(o)) == Bytes(0)
  {
    var props := heap[o].properties;
    var keys := [SymbolKey(s1), SymbolKey(s2)];
    SymbolKeyedProperties(heap, props);
    assert KeysOf(props) == keys;
    assert keys[1..] == [SymbolKey(s2)] && keys[1..][1..] == [];
    assert Lookup(props, SymbolKey(s1)) == Number(1.0);
    assert Lookup(props, SymbolKey(s2)) == Object(a);
    OnPlainObject(heap, fuel, {}, o);
    SelfContainingArrayOverflows(heap, fuel - 1, {a}, a);
    var second := Calculator(heap, fuel - 1, {a}, Object(a));
    assert (var none: set<Ref> := {}; none + {a}) == {a};
    assert ObjectLoop(heap, fuel - 1, props, keys, {}, 0)
        == ObjectLoop(heap, fuel - 1, props, keys[1..], {}, KeyBytes(keys[0]) + NumberBytes);
    assert ObjectLoop(heap, fuel - 1, props, keys[1..], {}, KeyBytes(keys[0]) + NumberBytes)
        == ObjectLoop(heap, fuel - 1, props, [], second.seen, 0);
  }

  /**
   * Any other exception from a property value is swallowed: the key stays counted and the
   * value adds nothing. Here the value is an object whose `formErrors` is missing.
   */
  lemma OtherExceptionSwallowed(heap: Heap, fuel: nat, o: Ref, p: Ref, sym: Symbol, name: string)
    requires o != p && o in heap && p in heap && fuel >= 2
    requires heap[o] == PlainObject([Property(SymbolKey(sym), Object(p), true)])
    requires heap[p] == PlainObject([Property(Name(name), Boolean(true), true)])
    requires name != "formErrors"
    ensures Sizeof(heap, fuel, Object(p)) == Thrown(TypeError)
    ensures Sizeof(heap, fuel, Object(o)) == Bytes(2 * |sym.description|)
  {
    assert heap[p].properties[0].key.Name?;
    assert Lookup(heap[p].properties, Name("formErrors")) == Undefined;
    FormErrorsRequired(heap, fuel, {}, p);
    FormErrorsRequired(heap, fuel - 1, {p}, p);
    var props := heap[o].properties;
    var keys := [SymbolKey(sym)];
    assert keys[1..] == [];
    assert Lookup(props, SymbolKey(sym)) == Object(p);
    OnPlainObject(heap, fuel, {}, o);
    SingleSymbolProperty(heap, fuel - 1, {}, sym, Object(p));
    assert (var none: set<Ref> := {}; none + {p}) == {p};
    assert ObjectLoop(heap, fuel - 1, props, keys, {}, 0)
        == ObjectLoop(heap, fuel - 1, props, [], {p}, KeyBytes(SymbolKey(sym)));
    SymbolBytesIsDescription(sym);
  }

  /** The object `{[s]: false}`, wherever it is met. */
  lemma FalseUnderSymbol(heap: Heap, fuel: nat, o: Ref, s: Symbol, seen: set<Ref>)
    requires fuel >= 2 && o in heap
    requires heap[o] == PlainObject([Property(SymbolKey(s), Boolean(false), true)])
    ensures Calculator(heap, fuel, seen, Object(o)) == Sized(Bytes(2 * |s.description| + 4), seen)
  {
    var props := heap[o].properties;
    assert [SymbolKey(s)][1..] == [];
    assert Lookup(props, SymbolKey(s)) == Boolean(false);
    OnPlainObject(heap, fuel, seen, o);
    SingleSymbolProperty(heap, fuel - 1, seen, s, Boolean(false));
    SymbolBytesIsDescription(s);
  }

  /**
   * Array elements are never added to `seen`: the same object twice in an array is sized
   * twice, while the same object under two keys of an object is sized once and the second
   * key is not counted at all.
   */
  lemma SharingInArraysAndObjects(heap: Heap, fuel: nat, o: Ref, a: Ref, p: Ref, s: Symbol, s1: Symbol, s2: Symbol)
    requires fuel >= 3 && o in heap && a in heap && p in heap && o != a && o != p && a != p
    requires heap[o] == PlainObject([Property(SymbolKey(s), Boolean(false), true)])
    requires heap[a] == ArrayObject([Object(o), Object(o)])
    requires heap[p] == PlainObject([Property(SymbolKey(s1), Object(o), true), Property(SymbolKey(s2), Object(o), true)])
    requires s1 != s2
    ensures Sizeof(heap, fuel, Object(o)) == Bytes(2 * |s.description| + 4)
    ensures Sizeof(heap, fuel, Object(a)) == Bytes(2 * (2 * |s.description| + 4))
    ensures Sizeof(heap, fuel, Object(p)) == Bytes(2 * |s1.description| + 2 * |s.description| + 4)
  {
    var cost := 2 * |s.description| + 4;
    FalseUnderSymbol(heap, fuel, o, s, {});
    // the array: both elements are sized in full
    FalseUnderSymbol(heap, fuel - 1, o, s, {});
    assert [Object(o), Object(o)][1..] == [Object(o)] && [Object(o)][1..] == [];
    assert SumElements(heap, fuel - 1, {}, [Object(o)]) == Sized(Bytes(cost), {});
    assert SumElements(heap, fuel - 1, {}, [Object(o), Object(o)]) == Sized(Bytes(cost + cost), {});
    // the object: the second key finds `o` in `seen`
    var props := heap[p].properties;
    var keys := [SymbolKey(s1), SymbolKey(s2)];
    SymbolKeyedProperties(heap, props);
    assert KeysOf(props) == keys;
    assert keys[1..] == [SymbolKey(s2)] && keys[1..][1..] == [];
    assert Lookup(props, SymbolKey(s1)) == Object(o);
    assert Lookup(props, SymbolKey(s2)) == Object(o);
    OnPlainObject(heap, fuel, {}, p);
    FalseUnderSymbol(heap, fuel - 1, o, s, {o});
    SymbolBytesIsDescription(s1);
    assert (var none: set<Ref> := {}; none + {o}) == {o};
    assert ObjectLoop(heap, fuel - 1, props, keys, {}, 0)
        == ObjectLoop(heap, fuel - 1, props, keys[1..], {o}, KeyBytes(keys[0]) + cost);
    assert ObjectLoop(heap, fuel - 1, props, keys[1..], {o}, KeyBytes(keys[0]) + cost)
        == ObjectLoop(heap, fuel - 1, props, [], {o}, KeyBytes(keys[0]) + cost);
  }

  /**
   * Two symbols made by separate `Symbol(d)` calls are two property keys: each value is
   * read under its own key, so `{[Symbol(d)]: 1, [Symbol(d)]: true}` costs both keys, 8
   * for the number and 4 for the boolean (16 bytes for the description "a").
   */
  lemma SameDescriptionDistinctKeys(heap: Heap, fuel: nat, o: Ref, d: string)
    requires fuel >= 2 && o in heap
    requires heap[o] == PlainObject([Property(SymbolKey(Unique(0, d)), Number(1.0), true),
                                     Property(SymbolKey(Unique(1, d)), Boolean(true), true)])
    ensures Sizeof(heap, fuel, Object(o)) == Bytes(4 * |d| + 12)
  {
    var props := heap[o].properties;
    var keys := [SymbolKey(Unique(0, d)), SymbolKey(Unique(1, d))];
    SymbolKeyedProperties(heap, props);
    assert KeysOf(props) == keys;
    assert keys[1..] == [SymbolKey(Unique(1, d))] && keys[1..][1..] == [];
    assert Lookup(props, keys[0]) == Number(1.0);
    assert Lookup(props, keys[1]) == Boolean(true);
    OnPlainObject(heap, fuel, {}, o);
    SymbolBytesIsDescription(Unique(0, d));
    SymbolBytesIsDescription(Unique(1, d));
    assert ObjectLoop(heap, fuel - 1, props, keys, {}, 0)
        == ObjectLoop(heap, fuel - 1, props, keys[1..], {}, 2 * |d| + NumberBytes);
    assert ObjectLoop(heap, fuel - 1, props, keys[1..], {}, 2 * |d| + NumberBytes)
        == ObjectLoop(heap, fuel - 1, props, [], {}, 2 * |d| + NumberBytes + 2 * |d| + BooleanBytes);
  }
}
