/**
 * The request preparation of src/pvgis/pvgisClient.ts: default and forced parameters,
 * the (ineffective) parameter check, the rewriting of boolean flags to 0/1, the URL, and
 * the "look up, else fetch, then always store" sequence around the response cache.
 *
 * The runtime functions the client calls are parameters, gathered in `Runtime`:
 * `encodeURIComponent` with the conversion of a value to text, the HTTP fetch (an opaque
 * text for each URL), the truthiness of a parsed cached text, and the navigation into a
 * response (`outputs.hourly`, `inputs.mounting_system.fixed`). A response is identified
 * with its JSON text, so that `JSON.stringify` of what `getItem` parsed is the stored text.
 */
module Pvgis {
  import opened Wrappers
  import opened Records
  import QueryPath
  import Cache

  /** The default endpoint, written with a space after "https://". */
  const DefaultEndpoint: string := "https:// re.jrc.ec.europa.eu/api"

  /** `BOOLEAN_PARAMETERS`. */
  const BooleanParameters: seq<string> :=
    ["usehorizon", "pvcalculation", "optimalinclination", "optimalangles", "components"]

  /** The runtime functions and external values the client depends on. */
  datatype Runtime = Runtime(
    tool: string,                                 // PVGISTools.seriescalc
    encode: Prim -> string,                       // encodeURIComponent
    fetch: string -> string,                      // fetchJson(GET, url), as JSON text
    jsonTruthy: string -> bool,                   // !!JSON.parse(text)
    hourly: string -> Option<string>,             // response?.outputs?.hourly
    fixedAngles: string -> Option<(real, real)>)  // response?.inputs?.mounting_system?.fixed

  // ---------------------------------------------------------------------------
  // Parameters
  // ---------------------------------------------------------------------------

  /** `checkRequestParams(params)`: `false`, or `undefined` (None) when it falls off the end. */
  function CheckRequestParams(params: Record): Option<bool> {
    var lat := Get(params, "lat");
    var lon := Get(params, "lon");
    if !Truthy(lat) || !Truthy(lon) || !lat.Num? || !lon.Num? then Some(false) else None
  }

  /** `checkRequestParams` never returns a truthy value, whatever the parameters. */
  lemma CheckNeverFails(params: Record)
    ensures CheckRequestParams(params) != Some(true)
    ensures CheckRequestParams(params) == None <==>
            Get(params, "lat").Num? && Get(params, "lat").x != 0.0 &&
            Get(params, "lon").Num? && Get(params, "lon").x != 0.0
  {
  }

  /** `booleanToInt(v)`. */
  function BooleanToInt(v: Prim): Prim {
    if Truthy(v) then Num(1.0) else Num(0.0)
  }

  /** The `forEach` over the flags `flags`, writing into `adapted` values read from `params`. */
  function PutFlags(params: Record, adapted: Record, flags: seq<string>): Record
    decreases |flags|
  {
    if flags == [] then adapted
    else PutFlags(params, Put(adapted, flags[0], BooleanToInt(Get(params, flags[0]))), flags[1..])
  }

  /** The object `transformBooleanParamsToIntCode(params)` returns. */
  function Transformed(params: Record): Record {
    PutFlags(params, Spread([], params), BooleanParameters)
  }

  /** `transformBooleanParamsToIntCode(params)`: copy, then rewrite each flag in turn. */
  method TransformBooleanParamsToIntCode(params: Record) returns (adapted: Record)
    ensures adapted == Transformed(params)
  {
    adapted := Spread([], params);
    for i := 0 to |BooleanParameters|
      invariant PutFlags(params, adapted, BooleanParameters[i..]) == Transformed(params)
    {
      var b := BooleanParameters[i];
      assert BooleanParameters[i..][0] == b && BooleanParameters[i..][1..] == BooleanParameters[i + 1..];
      adapted := Put(adapted, b, BooleanToInt(Get(params, b)));
    }
  }

  lemma GetMissing(r: Record, k: string)
    requires k !in Keys(r)
    ensures Get(r, k) == Undefined
  {
    if r != [] {
      assert Keys(r)[0] == r[0].key;
      assert Keys(r[1..]) == Keys(r)[1..];
      GetMissing(r[1..], k);
    }
  }

  /** A flag in `flags` reads as its 0/1 code of the value in `params`; any other key as in `adapted`. */
  lemma {:induction false} PutFlagsGet(params: Record, adapted: Record, flags: seq<string>, k: string)
    ensures Get(PutFlags(params, adapted, flags), k) ==
            if k in flags then BooleanToInt(Get(params, k)) else Get(adapted, k)
    decreases |flags|
  {
    if flags != [] {
      var adapted' := Put(adapted, flags[0], BooleanToInt(Get(params, flags[0])));
      PutFlagsGet(params, adapted', flags[1..], k);
      PutGet(adapted, flags[0], BooleanToInt(Get(params, flags[0])), k);
    }
  }

  lemma {:induction false} PutFlagsDistinct(params: Record, adapted: Record, flags: seq<string>)
    requires DistinctKeys(adapted)
    ensures DistinctKeys(PutFlags(params, adapted, flags))
    decreases |flags|
  {
    if flags != [] {
      PutDistinct(adapted, flags[0], BooleanToInt(Get(params, flags[0])));
      PutFlagsDistinct(params, Put(adapted, flags[0], BooleanToInt(Get(params, flags[0]))), flags[1..]);
    }
  }

  /**
   * Each of the five flags becomes 1 when truthy and 0 otherwise, absent flags included;
   * every other key keeps its original value; the result is an object (unique keys).
   */
  lemma TransformedValues(params: Record, k: string)
    requires DistinctKeys(params)
    ensures Get(Transformed(params), k) ==
            if k in BooleanParameters then BooleanToInt(Get(params, k)) else Get(params, k)
    ensures DistinctKeys(Transformed(params))
  {
    PutFlagsGet(params, Spread([], params), BooleanParameters, k);
    SpreadGet([], params, k);
    if k !in Keys(params) {
      GetMissing(params, k);
    }
    SpreadDistinct([], params);
    PutFlagsDistinct(params, Spread([], params), BooleanParameters);
  }

  /** `{outputformat: 'json', ...params}` in `seriesCalc`. */
  function SeriesCalcParams(params: Record): Record {
    Spread([Entry("outputformat", Str("json"))], params)
  }

  /** `{outputformat: 'json', ...params, optimalangles: true, optimalinclination: true}`. */
  function OptimalAnglesParams(params: Record): Record {
    Put(Put(SeriesCalcParams(params), "optimalangles", Bool(true)), "optimalinclination", Bool(true))
  }

  /** `outputformat` is "json" only when the caller's parameters lack it; every other key is the caller's. */
  lemma SeriesCalcParamsValues(params: Record, k: string)
    requires DistinctKeys(params)
    ensures Get(SeriesCalcParams(params), k) ==
            if k in Keys(params) then Get(params, k)
            else if k == "outputformat" then Str("json") else Undefined
    ensures DistinctKeys(SeriesCalcParams(params))
  {
    SpreadGet([Entry("outputformat", Str("json"))], params, k);
    SpreadDistinct([Entry("outputformat", Str("json"))], params);
  }

  /** `calculateOptimalAngles` sends optimalangles=1 and optimalinclination=1, whatever the caller passed. */
  lemma OptimalAnglesForced(params: Record)
    ensures Get(Transformed(OptimalAnglesParams(params)), "optimalangles") == Num(1.0)
    ensures Get(Transformed(OptimalAnglesParams(params)), "optimalinclination") == Num(1.0)
  {
    var p := OptimalAnglesParams(params);
    var inner := Put(SeriesCalcParams(params), "optimalangles", Bool(true));
    SpreadDistinct([Entry("outputformat", Str("json"))], params);
    PutDistinct(SeriesCalcParams(params), "optimalangles", Bool(true));
    PutDistinct(inner, "optimalinclination", Bool(true));
    PutGet(inner, "optimalinclination", Bool(true), "optimalangles");
    PutGet(SeriesCalcParams(params), "optimalangles", Bool(true), "optimalangles");
    PutGet(inner, "optimalinclination", Bool(true), "optimalinclination");
    TransformedValues(p, "optimalangles");
    TransformedValues(p, "optimalinclination");
  }

  // ---------------------------------------------------------------------------
  // URL and cache sequence
  // ---------------------------------------------------------------------------

  /** `if (queryPath)`: the URL, or None on an empty query path. */
  function RequestUrl(endpoint: string, rt: Runtime, transformed: Record): Option<string> {
    var queryPath := QueryPath.BuildPath(transformed, rt.encode);
    if queryPath != "" then Some(endpoint + "/" + rt.tool + queryPath) else None
  }

  /** The query path is never empty, so the URL is always built. */
  lemma UrlAlwaysBuilt(endpoint: string, rt: Runtime, transformed: Record)
    ensures RequestUrl(endpoint, rt, transformed) ==
            Some(endpoint + "/" + rt.tool + QueryPath.BuildPath(transformed, rt.encode))
  {
    QueryPath.BuildPathShape(transformed, rt.encode);
  }

  /** The response the call works with: the cached text on a truthy hit, else the fetched text. */
  function Response(st: Cache.CacheState, url: string, rt: Runtime): string {
    var hit := Cache.Find(st, url);
    if hit.Some? && rt.jsonTruthy(hit.value) then hit.value else rt.fetch(url)
  }

  /** A truthy hit skips the fetch; a miss fetches. */
  lemma ResponseSource(st: Cache.CacheState, url: string, rt: Runtime)
    ensures Cache.Find(st, url).Some? && rt.jsonTruthy(Cache.Find(st, url).value) ==>
            Response(st, url, rt) == Cache.Find(st, url).value
    ensures url !in st.keys ==> Response(st, url, rt) == rt.fetch(url)
  {
  }

  /** `seriesCalc`'s reply: `{data, url}`, the callback's call, or the response. */
  datatype Reply =
    | Data(response: string)
    | WithUrl(data: string, url: string)
    | CalledBack(hourly: Option<string>)
    | NoQuery
    | IncorrectParams
    | HungInCache

  /** The second argument of `seriesCalc`. */
  datatype Param1 = Absent | Options(returnUrl: bool) | Callback

  function ReplyFor(param1: Param1, response: string, url: string, rt: Runtime): Reply {
    if param1.Options? && param1.returnUrl then WithUrl(response, url)
    else if param1.Callback? then CalledBack(rt.hourly(response))
    else Data(response)
  }

  datatype Call = Call(reply: Reply, state: Cache.CacheState)

  /** `seriesCalc(params, param1)` on a client with endpoint `endpoint` and cache state `st`. */
  function SeriesCalcCall(st: Cache.CacheState, endpoint: string, params: Record, param1: Param1, rt: Runtime): Call {
    var p := SeriesCalcParams(params);
    if CheckRequestParams(p) == Some(true) then Call(IncorrectParams, st)
    else
      match RequestUrl(endpoint, rt, Transformed(p))
      case None => Call(NoQuery, st)
      case Some(url) => SeriesCalcAt(st, url, param1, rt)
  }

  /** The rest of `seriesCalc` once the URL is built: the cache step, then the reply. */
  function SeriesCalcAt(st: Cache.CacheState, url: string, param1: Param1, rt: Runtime): Call {
    var response := Response(st, url, rt);
    match Cache.Store(st, url, response)
    case Hangs(s) => Call(HungInCache, s)
    case Returned(s) => Call(ReplyFor(param1, response, url, rt), s)
  }

  /** `calculateOptimalAngles`'s result. */
  datatype AnglesReply = Angles(azimuth: real, slope: real) | NoAngles | AnglesIncorrectParams | AnglesHung

  datatype AnglesCall = AnglesCall(reply: AnglesReply, state: Cache.CacheState)

  function OptimalAnglesCall(st: Cache.CacheState, endpoint: string, params: Record, rt: Runtime): AnglesCall {
    OptimalAnglesWith(st, endpoint, OptimalAnglesParams(params), rt)
  }

  /** `calculateOptimalAngles` from the check on, with the parameters `p` already defaulted and forced. */
  function OptimalAnglesWith(st: Cache.CacheState, endpoint: string, p: Record, rt: Runtime): AnglesCall {
    if CheckRequestParams(p) == Some(true) then AnglesCall(AnglesIncorrectParams, st)
    else
      match RequestUrl(endpoint, rt, Transformed(p))
      case None => AnglesCall(NoAngles, st)
      case Some(url) => OptimalAnglesAt(st, url, rt)
  }

  /** The rest of `calculateOptimalAngles` once the URL is built. */
  function OptimalAnglesAt(st: Cache.CacheState, url: string, rt: Runtime): AnglesCall {
    var response := Response(st, url, rt);
    match Cache.Store(st, url, response)
    case Hangs(s) => AnglesCall(AnglesHung, s)
    case Returned(s) =>
      match rt.fixedAngles(response)
      case Some(fixed) => AnglesCall(Angles(fixed.0, fixed.1), s)
      case None => AnglesCall(NoAngles, s)
  }

  /** The URL both tools request. */
  function SeriesCalcUrl(endpoint: string, rt: Runtime, p: Record): string {
    endpoint + "/" + rt.tool + QueryPath.BuildPath(Transformed(p), rt.encode)
  }

  /**
   * `seriesCalc` never throws for its parameters and always builds its URL; it stores the
   * response under that URL on every call, hit or miss, and the reply follows `param1`:
   * `returnUrl` first, then a callback, then the bare response.
   */
  lemma SeriesCalcSequence(st: Cache.CacheState, endpoint: string, params: Record, param1: Param1, rt: Runtime)
    ensures var url := SeriesCalcUrl(endpoint, rt, SeriesCalcParams(params));
            var response := Response(st, url, rt);
            var call := SeriesCalcCall(st, endpoint, params, param1, rt);
            && call.state == Cache.Store(st, url, response).state
            && call.reply == (if Cache.Store(st, url, response).Hangs? then HungInCache
                              else ReplyFor(param1, response, url, rt))
  {
    var p := SeriesCalcParams(params);
    CheckNeverFails(p);
    UrlAlwaysBuilt(endpoint, rt, Transformed(p));
  }

  /** `calculateOptimalAngles` also never throws, always builds its URL and always stores. */
  lemma OptimalAnglesSequence(st: Cache.CacheState, endpoint: string, params: Record, rt: Runtime)
    ensures var url := SeriesCalcUrl(endpoint, rt, OptimalAnglesParams(params));
            var response := Response(st, url, rt);
            var call := OptimalAnglesCall(st, endpoint, params, rt);
            && call.state == Cache.Store(st, url, response).state
            && call.reply == (if Cache.Store(st, url, response).Hangs? then AnglesHung
                              else if rt.fixedAngles(response).Some?
                              then Angles(rt.fixedAngles(response).value.0, rt.fixedAngles(response).value.1)
                              else NoAngles)
  {
    var p := OptimalAnglesParams(params);
    CheckNeverFails(p);
    UrlAlwaysBuilt(endpoint, rt, Transformed(p));
  }

  /**
   * Repeating a call whose response fits the limit appends its URL to `keys` once more
   * and adds the response's size to the counter again, even on a cache hit.
   */
  lemma RepeatedCallGrowsCache(st: Cache.CacheState, endpoint: string, params: Record, param1: Param1, rt: Runtime)
    requires
      var url := SeriesCalcUrl(endpoint, rt, SeriesCalcParams(params));
      st.size + 2 * |Response(st, url, rt)| <= st.maxSize
    ensures
      var url := SeriesCalcUrl(endpoint, rt, SeriesCalcParams(params));
      var call := SeriesCalcCall(st, endpoint, params, param1, rt);
      && call.state.keys == st.keys + [url]
      && call.state.size == st.size + 2 * |Response(st, url, rt)|
      && Cache.Find(call.state, url) == Some(Response(st, url, rt))
  {
    var url := SeriesCalcUrl(endpoint, rt, SeriesCalcParams(params));
    SeriesCalcSequence(st, endpoint, params, param1, rt);
    Cache.StoreWhenRoom(st, url, Response(st, url, rt));
  }

  // ---------------------------------------------------------------------------
  // The client
  // ---------------------------------------------------------------------------

  /** `PVGisCunstructorOptions`. */
  datatype ClientOptions = ClientOptions(pvgisEndPoint: Option<string>, enableCache: bool)

  /** The endpoint after construction: a given non-empty endpoint overrides the default. */
  function EndpointFor(options: Option<ClientOptions>): string {
    if options.Some? && options.value.pvgisEndPoint.Some? && options.value.pvgisEndPoint.value != ""
    then options.value.pvgisEndPoint.value
    else DefaultEndpoint
  }

  class PVGISClient {
    var pvgisEndPoint: string
    var cache: Cache.CacheHandler?

    ghost predicate Valid()
      reads this, cache
    {
      cache != null && cache.Valid()
    }

    /** A fresh cache is created whatever `enableCache` says. */
    constructor(options: Option<ClientOptions>)
      ensures pvgisEndPoint == EndpointFor(options)
      ensures Valid() && fresh(cache)
      ensures cache.State() == Cache.InitialState(None)
    {
      pvgisEndPoint := DefaultEndpoint;
      cache := null;
      new;
      if options.Some? && options.value.pvgisEndPoint.Some? && options.value.pvgisEndPoint.value != "" {
        SetPvgisEndPoint(options.value.pvgisEndPoint.value);
      }
      InitializeCache();
    }

    method SetPvgisEndPoint(endpoint: string)
      modifies this
      ensures pvgisEndPoint == endpoint && cache == old(cache)
    {
      pvgisEndPoint := endpoint;
    }

    /** `initializeCache()`: a new default cache replaces the old one. */
    method InitializeCache()
      modifies this
      ensures pvgisEndPoint == old(pvgisEndPoint)
      ensures Valid() && fresh(cache)
      ensures cache.State() == Cache.InitialState(None)
    {
      cache := new Cache.CacheHandler(None);
    }

    /** The cache step both tools share: `getItem`, else fetch, then `setItem` in any case. */
    method CachedFetch(url: string, rt: Runtime) returns (response: string, hangs: bool)
      requires Valid()
      modifies cache
      ensures Valid()
      ensures response == Response(old(cache.State()), url, rt)
      ensures cache.State() == Cache.Store(old(cache.State()), url, response).state
      ensures hangs == Cache.Store(old(cache.State()), url, response).Hangs?
    {
      var cached := cache.GetItem(url);
      if cached.Some? && rt.jsonTruthy(cached.value) {
        var again := cache.GetItem(url);
        response := again.value;
      } else {
        response := rt.fetch(url);
      }
      hangs := cache.SetItem(url, response);
    }

    /** `seriesCalc(params, param1)`. */
    method SeriesCalc(params: Record, param1: Param1, rt: Runtime) returns (reply: Reply)
      requires Valid()
      modifies cache
      ensures Valid()
      ensures reply == SeriesCalcCall(old(cache.State()), pvgisEndPoint, params, param1, rt).reply
      ensures cache.State() == SeriesCalcCall(old(cache.State()), pvgisEndPoint, params, param1, rt).state
    {
      var p := SeriesCalcParams(params);
      if CheckRequestParams(p) == Some(true) {
        reply := IncorrectParams;
        return;
      }
      var transformedParams := TransformBooleanParamsToIntCode(p);
      var queryPath := QueryPath.BuildPath(transformedParams, rt.encode);
      ghost var st0 := cache.State();
      assert RequestUrl(pvgisEndPoint, rt, transformedParams) ==
             if queryPath != "" then Some(pvgisEndPoint + "/" + rt.tool + queryPath) else None;
      if queryPath != "" {
        var url := pvgisEndPoint + "/" + rt.tool + queryPath;
        var response, hangs := CachedFetch(url, rt);
        assert response == Response(st0, url, rt);
        if hangs {
          reply := HungInCache;
        } else if param1.Options? && param1.returnUrl {
          reply := WithUrl(response, url);
        } else if param1.Callback? {
          reply := CalledBack(rt.hourly(response));
        } else {
          reply := Data(response);
        }
        assert reply == SeriesCalcAt(st0, url, param1, rt).reply;
      } else {
        reply := NoQuery;
      }
    }

    /** `calculateOptimalAngles(params)`. */
    method CalculateOptimalAngles(params: Record, rt: Runtime) returns (reply: AnglesReply)
      requires Valid()
      modifies cache
      ensures Valid()
      ensures reply == OptimalAnglesCall(old(cache.State()), pvgisEndPoint, params, rt).reply
      ensures cache.State() == OptimalAnglesCall(old(cache.State()), pvgisEndPoint, params, rt).state
    {
      ghost var st0 := cache.State();
      var p := OptimalAnglesParams(params);
      assert OptimalAnglesCall(st0, pvgisEndPoint, params, rt) == OptimalAnglesWith(st0, pvgisEndPoint, p, rt);
      if CheckRequestParams(p) == Some(true) {
        reply := AnglesIncorrectParams;
        return;
      }
      var transformedParams := TransformBooleanParamsToIntCode(p);
      var queryPath := QueryPath.BuildPath(transformedParams, rt.encode);
      ghost var call := if queryPath != "" then OptimalAnglesAt(st0, pvgisEndPoint + "/" + rt.tool + queryPath, rt)
                        else AnglesCall(NoAngles, st0);
      assert OptimalAnglesWith(st0, pvgisEndPoint, p, rt) == call;
      reply := NoAngles;
      if queryPath != "" {
        var url := pvgisEndPoint + "/" + rt.tool + queryPath;
        var response, hangs := CachedFetch(url, rt);
        assert response == Response(st0, url, rt);
        if hangs {
          reply := AnglesHung;
        } else {
          var fixed := rt.fixedAngles(response);
          if fixed.Some? {
            reply := Angles(fixed.value.0, fixed.value.1);
          }
        }
        assert reply == call.reply && cache.State() == call.state;
      }
      assert reply == call.reply && cache.State() == call.state;
    }
  }
}
