/**
 * JavaScript plain objects whose values are primitives, such as the request parameters of
 * the client (`Record<string, string | number | boolean | undefined>`). An object is the
 * list of its entries in `Object.keys` order: assigning to an existing key keeps its place,
 * assigning a new key appends it, and an object spread assigns the entries of its source
 * one by one.
 */
module Records {

  datatype Prim = Undefined | Bool(b: bool) | Num(x: real) | Str(s: string)

  datatype Entry = Entry(key: string, value: Prim)

  type Record = seq<Entry>

  /** JavaScript truthiness of a primitive. */
  predicate Truthy(v: Prim) {
    match v
    case Undefined => false
    case Bool(b) => b
    case Num(x) => x != 0.0
    case Str(s) => s != ""
  }

  function Keys(r: Record): (ks: seq<string>)
    ensures |ks| == |r|
    ensures forall i :: 0 <= i < |r| ==> ks[i] == r[i].key
  {
    if r == [] then [] else [r[0].key] + Keys(r[1..])
  }

  /** Object keys are unique. */
  predicate DistinctKeys(r: Record) {
    forall i, j :: 0 <= i < j < |r| ==> r[i].key != r[j].key
  }

  /** `obj[k]`: the value under `k`, or undefined when `k` is not a key. */
  function Get(r: Record, k: string): Prim {
    if r == [] then Undefined
    else if r[0].key == k then r[0].value
    else Get(r[1..], k)
  }

  /** `obj[k] = v`: an existing key keeps its place, a new key is appended. */
  function Put(r: Record, k: string, v: Prim): Record {
    if r == [] then [Entry(k, v)]
    else if r[0].key == k then [Entry(k, v)] + r[1..]
    else [r[0]] + Put(r[1..], k, v)
  }

  /** After `obj[k] = v`, an existing key keeps its place and a new key comes last. */
  lemma {:induction false} PutKeys(r: Record, k: string, v: Prim)
    ensures Keys(Put(r, k, v)) == if k in Keys(r) then Keys(r) else Keys(r) + [k]
  {
    if r != [] {
      assert Keys(r) == [r[0].key] + Keys(r[1..]);
      if r[0].key == k {
        assert Keys(Put(r, k, v)) == [k] + Keys(r[1..]);
      } else {
        PutKeys(r[1..], k, v);
        assert Keys(Put(r, k, v)) == [r[0].key] + Keys(Put(r[1..], k, v));
        assert k in Keys(r) <==> k in Keys(r[1..]);
      }
    }
  }

  /** After `obj[k] = v`, `obj[k]` is `v` and every other key reads as before. */
  lemma {:induction false} PutGet(r: Record, k: string, v: Prim, k': string)
    ensures Get(Put(r, k, v), k') == if k' == k then v else Get(r, k')
  {
    if r != [] && r[0].key != k {
      PutGet(r[1..], k, v, k');
    }
  }

  lemma {:induction false} DistinctKeysTail(r: Record)
    requires r != []
    ensures DistinctKeys(r) <==> DistinctKeys(r[1..]) && r[0].key !in Keys(r[1..])
  {
    if DistinctKeys(r[1..]) && r[0].key !in Keys(r[1..]) {
      forall i, j | 0 <= i < j < |r| ensures r[i].key != r[j].key {
        if i > 0 {
          assert r[i].key == r[1..][i - 1].key && r[j].key == r[1..][j - 1].key;
        } else {
          assert r[j].key == Keys(r[1..])[j - 1];
        }
      }
    }
    if DistinctKeys(r) {
      forall j | 0 <= j < |r[1..]| ensures Keys(r[1..])[j] != r[0].key {
        assert r[j + 1].key != r[0].key;
      }
    }
  }

  /** Assigning to an object keeps its keys unique. */
  lemma PutDistinct(r: Record, k: string, v: Prim)
    requires DistinctKeys(r)
    ensures DistinctKeys(Put(r, k, v))
  {
    var r' := Put(r, k, v);
    PutKeys(r, k, v);
    forall i, j | 0 <= i < j < |r'| ensures r'[i].key != r'[j].key {
      assert r'[i].key == Keys(r')[i] && r'[j].key == Keys(r')[j];
    }
  }

  /** The keys of `ks` that are not in `present`, in order. */
  function NewKeys(present: seq<string>, ks: seq<string>): seq<string>
    decreases |ks|
  {
    if ks == [] then []
    else if ks[0] in present then NewKeys(present, ks[1..])
    else [ks[0]] + NewKeys(present + [ks[0]], ks[1..])
  }

  /**
   * `{...a, ...b}`: the entries of `b` assigned onto `a` in order. A key of `b` keeps
   * its place in `a` and takes `b`'s value; the new keys follow in `b`'s order.
   */
  function Spread(a: Record, b: Record): Record
    decreases |b|
  {
    if b == [] then a else Spread(Put(a, b[0].key, b[0].value), b[1..])
  }

  /** The keys of `a` stay in place; the new keys of `b` follow in `b`'s order. */
  lemma {:induction false} SpreadKeys(a: Record, b: Record)
    ensures Keys(Spread(a, b)) == Keys(a) + NewKeys(Keys(a), Keys(b))
    decreases |b|
  {
    if b != [] {
      var a' := Put(a, b[0].key, b[0].value);
      PutKeys(a, b[0].key, b[0].value);
      SpreadKeys(a', b[1..]);
      assert Keys(b) == [b[0].key] + Keys(b[1..]);
    }
  }

  /** A key of `b` reads as in `b`, any other key as in `a`. */
  lemma {:induction false} SpreadGet(a: Record, b: Record, k: string)
    requires DistinctKeys(b)
    ensures Get(Spread(a, b), k) == if k in Keys(b) then Get(b, k) else Get(a, k)
    decreases |b|
  {
    if b != [] {
      DistinctKeysTail(b);
      var a' := Put(a, b[0].key, b[0].value);
      SpreadGet(a', b[1..], k);
      PutGet(a, b[0].key, b[0].value, k);
      assert Keys(b) == [b[0].key] + Keys(b[1..]);
    }
  }

  /** A spread of objects is an object: its keys are unique. */
  lemma {:induction false} SpreadDistinct(a: Record, b: Record)
    requires DistinctKeys(a)
    ensures DistinctKeys(Spread(a, b))
    decreases |b|
  {
    if b != [] {
      PutDistinct(a, b[0].key, b[0].value);
      SpreadDistinct(Put(a, b[0].key, b[0].value), b[1..]);
    }
  }
}
