/**
 * The query-string builder of src/utils/buildPath.ts: a `reduce` over the keys of the
 * parameters, starting from "?", that appends `key=encodeURIComponent(value)` for every
 * key whose value is not undefined, with "&" before every pair but the first.
 *
 * `encodeURIComponent`, together with the conversion of a number or boolean to text that
 * precedes it, is a runtime function; it is the parameter `encode`.
 */
module QueryPath {
  import opened Records

  /** The text of one pair: the key as it is, "=", the encoded value. */
  function Pair(e: Entry, encode: Prim -> string): string {
    e.key + "=" + encode(e.value)
  }

  /** The reducer: `p.length === 1` holds exactly while no pair has been emitted. */
  function Step(p: string, e: Entry, encode: Prim -> string): string {
    if e.value != Undefined then
      if |p| == 1 then p + Pair(e, encode) else p + "&" + Pair(e, encode)
    else p + ""
  }

  function Reduce(p: string, entries: Record, encode: Prim -> string): string
    decreases |entries|
  {
    if entries == [] then p else Reduce(Step(p, entries[0], encode), entries[1..], encode)
  }

  /** buildPath(queryParams). */
  function BuildPath(queryParams: Record, encode: Prim -> string): string {
    Reduce("?", queryParams, encode)
  }

  // ---------------------------------------------------------------------------
  // Reference definition: the defined pairs, joined by "&", after "?"
  // ---------------------------------------------------------------------------

  /** The pairs of the entries whose value is defined, in key order. */
  function Pairs(entries: Record, encode: Prim -> string): seq<string> {
    if entries == [] then []
    else if entries[0].value != Undefined then [Pair(entries[0], encode)] + Pairs(entries[1..], encode)
    else Pairs(entries[1..], encode)
  }

  /** The (key, encoded value) fields of the defined entries, in key order. */
  function Fields(entries: Record, encode: Prim -> string): seq<seq<string>> {
    if entries == [] then []
    else if entries[0].value != Undefined then [[entries[0].key, encode(entries[0].value)]] + Fields(entries[1..], encode)
    else Fields(entries[1..], encode)
  }

  /** Each piece preceded by `sep`, concatenated. */
  function Prefixed(pieces: seq<string>, sep: char): string {
    if pieces == [] then "" else [sep] + pieces[0] + Prefixed(pieces[1..], sep)
  }

  /** `pieces.join(sep)`. */
  function Join(pieces: seq<string>, sep: char): string {
    if pieces == [] then "" else pieces[0] + Prefixed(pieces[1..], sep)
  }

  lemma JoinCons(pieces: seq<string>, sep: char)
    requires |pieces| >= 2
    ensures Join(pieces, sep) == pieces[0] + [sep] + Join(pieces[1..], sep)
  {
    assert pieces[1..][1..] == pieces[2..];
  }

  lemma JoinEmpty(pieces: seq<string>, sep: char)
    requires forall i :: 0 <= i < |pieces| ==> pieces[i] != ""
    ensures Join(pieces, sep) == "" <==> pieces == []
  {
    if pieces != [] {
      assert |Join(pieces, sep)| >= |pieces[0]|;
    }
  }

  lemma {:induction false} PairsNonEmpty(entries: Record, encode: Prim -> string)
    ensures forall i :: 0 <= i < |Pairs(entries, encode)| ==> '=' in Pairs(entries, encode)[i]
  {
    if entries != [] {
      PairsNonEmpty(entries[1..], encode);
      var e := entries[0];
      assert Pair(e, encode)[|e.key|] == '=';
    }
  }

  /** Once a pair has been emitted, every further defined entry adds "&" and its pair. */
  lemma {:induction false} ReduceAfterFirst(p: string, entries: Record, encode: Prim -> string)
    requires |p| > 1
    ensures Reduce(p, entries, encode) == p + Prefixed(Pairs(entries, encode), '&')
    decreases |entries|
  {
    if entries != [] {
      var e := entries[0];
      if e.value != Undefined {
        var x := Pair(e, encode);
        var p' := p + "&" + x;
        assert Step(p, e, encode) == p';
        ReduceAfterFirst(p', entries[1..], encode);
        assert Pairs(entries, encode) == [x] + Pairs(entries[1..], encode);
        assert Prefixed(Pairs(entries, encode), '&') == "&" + x + Prefixed(Pairs(entries[1..], encode), '&');
        assert p' + Prefixed(Pairs(entries[1..], encode), '&') == p + ("&" + x + Prefixed(Pairs(entries[1..], encode), '&'));
      } else {
        assert Step(p, e, encode) == p;
        ReduceAfterFirst(p, entries[1..], encode);
      }
    }
  }

  /** Before the first pair, entries with an undefined value leave the one-character start as it is. */
  lemma {:induction false} ReduceFromStart(p: string, entries: Record, encode: Prim -> string)
    requires |p| == 1
    ensures Reduce(p, entries, encode) == p + Join(Pairs(entries, encode), '&')
    decreases |entries|
  {
    if entries == [] {
      assert p + "" == p;
    } else if entries[0].value != Undefined {
      FirstPair(p, entries, encode);
    } else {
      assert Reduce(p, entries, encode) == Reduce(p, entries[1..], encode) by {
        assert Step(p, entries[0], encode) == p;
      }
      ReduceFromStart(p, entries[1..], encode);
    }
  }

  lemma FirstPair(p: string, entries: Record, encode: Prim -> string)
    requires |p| == 1 && entries != [] && entries[0].value != Undefined
    ensures Reduce(p, entries, encode) == p + Join(Pairs(entries, encode), '&')
  {
    var e := entries[0];
    var rest := Pairs(entries[1..], encode);
    var x := Pair(e, encode);
    assert Reduce(p, entries, encode) == p + x + Prefixed(rest, '&') by {
      assert x[|e.key|] == '=';
      assert Step(p, e, encode) == p + x;
      ReduceAfterFirst(p + x, entries[1..], encode);
    }
    assert Join(Pairs(entries, encode), '&') == x + Prefixed(rest, '&') by {
      assert Pairs(entries, encode) == [x] + rest;
      assert ([x] + rest)[1..] == rest;
    }
    assert p + x + Prefixed(rest, '&') == p + (x + Prefixed(rest, '&'));
  }

  /** buildPath is "?" followed by the pairs of the defined keys, in key order, joined by "&". */
  lemma BuildPathJoinsPairs(queryParams: Record, encode: Prim -> string)
    ensures BuildPath(queryParams, encode) == "?" + Join(Pairs(queryParams, encode), '&')
  {
    ReduceFromStart("?", queryParams, encode);
  }

  lemma {:induction false} PairsEmptyIff(entries: Record, encode: Prim -> string)
    ensures Pairs(entries, encode) == [] <==> forall i :: 0 <= i < |entries| ==> entries[i].value == Undefined
  {
    if entries != [] {
      PairsEmptyIff(entries[1..], encode);
      if entries[0].value == Undefined {
        assert forall i :: 1 <= i < |entries| ==> entries[i] == entries[1..][i - 1];
      }
    }
  }

  /** The path starts with "?", and is exactly "?" when no key has a defined value. */
  lemma BuildPathShape(queryParams: Record, encode: Prim -> string)
    ensures |BuildPath(queryParams, encode)| >= 1 && BuildPath(queryParams, encode)[0] == '?'
    ensures BuildPath(queryParams, encode) == "?" <==>
            forall i :: 0 <= i < |queryParams| ==> queryParams[i].value == Undefined
  {
    BuildPathJoinsPairs(queryParams, encode);
    PairsNonEmpty(queryParams, encode);
    JoinEmpty(Pairs(queryParams, encode), '&');
    PairsEmptyIff(queryParams, encode);
    var path := BuildPath(queryParams, encode);
    assert path == "?" <==> Join(Pairs(queryParams, encode), '&') == "";
  }

  // ---------------------------------------------------------------------------
  // Splitting the query back into its pairs
  // ---------------------------------------------------------------------------

  /** The index of the first `c` in `s`, or |s| when there is none. */
  function IndexOf(s: string, c: char): (i: nat)
    ensures i <= |s|
    ensures i < |s| ==> s[i] == c
    ensures forall j :: 0 <= j < i ==> s[j] != c
  {
    if s == [] then 0 else if s[0] == c then 0 else 1 + IndexOf(s[1..], c)
  }

  /** `s.split(sep)`. */
  function Split(s: string, sep: char): (parts: seq<string>)
    ensures |parts| >= 1
    decreases |s|
  {
    var i := IndexOf(s, sep);
    if i == |s| then [s] else [s[..i]] + Split(s[i + 1..], sep)
  }

  function SplitEach(pieces: seq<string>, sep: char): (r: seq<seq<string>>)
    ensures |r| == |pieces|
    ensures forall i :: 0 <= i < |r| ==> r[i] == Split(pieces[i], sep)
  {
    if pieces == [] then [] else [Split(pieces[0], sep)] + SplitEach(pieces[1..], sep)
  }

  /** The fields of a query: the text after a leading "?" split on "&", each piece split on "=". */
  function ParseQuery(path: string): seq<seq<string>> {
    var rest := if path != "" && path[0] == '?' then path[1..] else path;
    if rest == "" then [] else SplitEach(Split(rest, '&'), '=')
  }

  /** Splitting at the first separator: the text before it, then the split of the rest. */
  lemma SplitAtFirst(first: string, rest: string, sep: char)
    requires sep !in first
    ensures Split(first + [sep] + rest, sep) == [first] + Split(rest, sep)
  {
    var s := first + [sep] + rest;
    assert s[..|first|] == first;
    assert s[|first|] == sep;
    var i := IndexOf(s, sep);
    assert i == |first|;
    assert s[i + 1..] == rest;
  }

  lemma {:induction false} SplitJoin(pieces: seq<string>, sep: char)
    requires pieces != []
    requires forall i :: 0 <= i < |pieces| ==> sep !in pieces[i]
    ensures Split(Join(pieces, sep), sep) == pieces
  {
    if |pieces| == 1 {
      assert pieces[1..] == [];
      var s := Join(pieces, sep);
      assert s == pieces[0];
      assert IndexOf(s, sep) == |s|;
      assert pieces == [s];
    } else {
      JoinCons(pieces, sep);
      SplitAtFirst(pieces[0], Join(pieces[1..], sep), sep);
      SplitJoin(pieces[1..], sep);
    }
  }

  /** No key and no encoded value of a defined entry contains `c`. */
  ghost predicate Avoids(entries: Record, encode: Prim -> string, c: char) {
    forall i :: 0 <= i < |entries| && entries[i].value != Undefined ==>
      c !in entries[i].key && c !in encode(entries[i].value)
  }

  lemma {:induction false} PairsSplitToFields(entries: Record, encode: Prim -> string)
    requires Avoids(entries, encode, '&') && Avoids(entries, encode, '=')
    ensures forall i :: 0 <= i < |Pairs(entries, encode)| ==> '&' !in Pairs(entries, encode)[i]
    ensures SplitEach(Pairs(entries, encode), '=') == Fields(entries, encode)
  {
    if entries != [] {
      var e := entries[0];
      assert forall i :: 1 <= i < |entries| ==> entries[i] == entries[1..][i - 1];
      PairsSplitToFields(entries[1..], encode);
      if e.value != Undefined {
        var fields := [e.key, encode(e.value)];
        assert Join(fields, '=') == Pair(e, encode) by {
          assert fields[1..] == [encode(e.value)];
          assert fields[1..][1..] == [];
          assert Prefixed(fields[1..], '=') == "=" + encode(e.value) + "";
        }
        SplitJoin(fields, '=');
        assert '&' !in Pair(e, encode);
      }
    }
  }

  /**
   * Round trip: when no key and no encoded value contains "&" or "=", splitting the text
   * after "?" on "&" and each piece on "=" gives back the defined (key, encoded value)
   * pairs in key order.
   */
  lemma BuildPathRoundTrip(queryParams: Record, encode: Prim -> string)
    requires Avoids(queryParams, encode, '&') && Avoids(queryParams, encode, '=')
    ensures ParseQuery(BuildPath(queryParams, encode)) == Fields(queryParams, encode)
  {
    var pairs := Pairs(queryParams, encode);
    BuildPathJoinsPairs(queryParams, encode);
    PairsSplitToFields(queryParams, encode);
    PairsNonEmpty(queryParams, encode);
    JoinEmpty(pairs, '&');
    var path := BuildPath(queryParams, encode);
    assert path[1..] == Join(pairs, '&');
    if pairs != [] {
      SplitJoin(pairs, '&');
    }
  }

  /** buildPath({test: 1, foo: false, bar: undefined}) is "?test=1&foo=false". */
  lemma BuildPathExample(encode: Prim -> string)
    requires encode(Num(1.0)) == "1" && encode(Bool(false)) == "false"
    ensures BuildPath([Entry("test", Num(1.0)), Entry("foo", Bool(false)), Entry("bar", Undefined)], encode)
            == "?test=1&foo=false"
  {
    var q := [Entry("test", Num(1.0)), Entry("foo", Bool(false)), Entry("bar", Undefined)];
    assert q[1..] == [Entry("foo", Bool(false)), Entry("bar", Undefined)];
    assert q[1..][1..] == [Entry("bar", Undefined)];
    assert q[1..][1..][1..] == [];
    assert Step("?", q[0], encode) == "?test=1";
    assert Step("?test=1", q[1], encode) == "?test=1&foo=false";
  }
}
