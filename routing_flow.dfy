/**
 * The route provider: a time-limited cache keyed by coordinates rounded to four
 * decimals, a call to the directions service whose answer is an input here, the
 * straight-line fallback, and the rule for which answers are cached.
 */
module RoutingFlow {
  import opened Maybe
  import opened Utils

  /** A coordinate as the directions service writes it: longitude first. */
  type LngLat = (real, real)

  datatype RouteResult = RouteResult(coordinates: seq<Location>)

  // ---------------------------------------------------------------------------
  // Cache keys

  function Abs(x: real): real {
    if x < 0.0 then -x else x
  }

  /**
   * What `x.toFixed(4)` keeps of a number: its sign (a "-" is printed whenever x < 0,
   * even when the digits round to zero) and |x| rounded to 4 decimals, halves upward.
   */
  datatype Fixed4 = Fixed4(negative: bool, units: nat)

  function ToFixed4(x: real): (f: Fixed4)
    ensures f.negative <==> x < 0.0
    ensures f.units as real - 0.5 <= Abs(x) * 10000.0 < f.units as real + 0.5
  {
    Fixed4(x < 0.0, (Abs(x) * 10000.0 + 0.5).Floor)
  }

  /** The number a printed 4-decimal string stands for. */
  function Fixed4Value(f: Fixed4): real {
    if f.negative then -(f.units as real / 10000.0) else f.units as real / 10000.0
  }

  /** Rounding moves a coordinate by at most half a unit of the fourth decimal. */
  lemma ToFixed4Close(x: real)
    ensures Abs(Fixed4Value(ToFixed4(x)) - x) <= 0.00005
  {
    var f := ToFixed4(x);
    if x < 0.0 {
      assert Fixed4Value(f) - x == (Abs(x) * 10000.0 - f.units as real) / 10000.0;
    } else {
      assert Fixed4Value(f) - x == (f.units as real - Abs(x) * 10000.0) / 10000.0;
    }
  }

  /** A coordinate that already has at most four decimals is printed exactly. */
  lemma ToFixed4Exact(f: Fixed4)
    requires f.negative ==> f.units > 0
    ensures ToFixed4(Fixed4Value(f)) == f
  {
    var g := ToFixed4(Fixed4Value(f));
    assert Abs(Fixed4Value(f)) * 10000.0 == f.units as real;
    assert g.units == f.units;
  }

  datatype CacheKey = CacheKey(startLat: Fixed4, startLng: Fixed4, endLat: Fixed4, endLng: Fixed4)

  /** The key names the route by its four coordinates as printed, each within half a unit of the fourth decimal. */
  function GetCacheKey(start: Location, end: Location): (key: CacheKey)
    ensures Abs(Fixed4Value(key.startLat) - start.lat) <= 0.00005 && Abs(Fixed4Value(key.startLng) - start.lng) <= 0.00005
    ensures Abs(Fixed4Value(key.endLat) - end.lat) <= 0.00005 && Abs(Fixed4Value(key.endLng) - end.lng) <= 0.00005
  {
    ToFixed4Close(start.lat);
    ToFixed4Close(start.lng);
    ToFixed4Close(end.lat);
    ToFixed4Close(end.lng);
    CacheKey(ToFixed4(start.lat), ToFixed4(start.lng), ToFixed4(end.lat), ToFixed4(end.lng))
  }

  /** Two requests share a key exactly when all four coordinates print alike. */
  lemma SameKeyIffSameRounding(s1: Location, e1: Location, s2: Location, e2: Location)
    ensures GetCacheKey(s1, e1) == GetCacheKey(s2, e2) <==>
      && ToFixed4(s1.lat) == ToFixed4(s2.lat) && ToFixed4(s1.lng) == ToFixed4(s2.lng)
      && ToFixed4(e1.lat) == ToFixed4(e2.lat) && ToFixed4(e1.lng) == ToFixed4(e2.lng)
  {
  }

  // ---------------------------------------------------------------------------
  // The cache

  const CacheTtl: int := 5 * 60 * 1000

  datatype CacheEntry = CacheEntry(data: RouteResult, timestamp: int)

  type RouteCache = map<CacheKey, CacheEntry>

  /** A cached answer is served while it is younger than the TTL (strictly). */
  function Lookup(cache: RouteCache, key: CacheKey, now: int): (hit: Option<RouteResult>)
    ensures hit.Some? ==> key in cache && hit.value == cache[key].data
    ensures hit.Some? <==> key in cache && now < cache[key].timestamp + CacheTtl
  {
    if key in cache && now - cache[key].timestamp < CacheTtl then Some(cache[key].data) else None
  }

  /** A write at time `t` is served, unchanged, to every lookup of that key before `t + TTL`. */
  lemma LookupAfterStore(cache: RouteCache, key: CacheKey, data: RouteResult, t: int, now: int)
    ensures now < t + CacheTtl ==> Lookup(cache[key := CacheEntry(data, t)], key, now) == Some(data)
    ensures now >= t + CacheTtl ==> Lookup(cache[key := CacheEntry(data, t)], key, now) == None
  {
  }

  /** A write leaves every other key's lookups as they were. */
  lemma StoreKeepsOtherKeys(cache: RouteCache, key: CacheKey, data: RouteResult, t: int, other: CacheKey, now: int)
    requires other != key
    ensures Lookup(cache[key := CacheEntry(data, t)], other, now) == Lookup(cache, other, now)
  {
  }

  // ---------------------------------------------------------------------------
  // The straight-line fallback

  const Steps: nat := 10

  /** Point `i` of the fallback: `start + (end - start) * i / steps` in each coordinate. */
  function Interpolate(start: Location, end: Location, i: nat): Location {
    var t := i as real / Steps as real;
    Location(Lerp(start.lat, end.lat, t), Lerp(start.lng, end.lng, t))
  }

  /** `a + (b - a) * t`, the coordinate a fraction `t` of the way from `a` to `b`. */
  function Lerp(a: real, b: real, t: real): real {
    a + (b - a) * t
  }

  ghost predicate IsFallbackRoute(start: Location, end: Location, coordinates: seq<Location>) {
    && |coordinates| == Steps + 1
    && forall i :: 0 <= i < |coordinates| ==> coordinates[i] == Interpolate(start, end, i)
  }

  method FallbackRoute(start: Location, end: Location) returns (coordinates: seq<Location>)
    ensures IsFallbackRoute(start, end, coordinates)
  {
    coordinates := [];
    for i := 0 to Steps + 1
      invariant |coordinates| == i
      invariant forall j :: 0 <= j < i ==> coordinates[j] == Interpolate(start, end, j)
    {
      var t := i as real / Steps as real;
      var point := Location(Lerp(start.lat, end.lat, t), Lerp(start.lng, end.lng, t));
      coordinates := coordinates + [point];
    }
  }

  /** The fallback has 11 points, runs from start to end and advances by a tenth each step. */
  lemma FallbackShape(start: Location, end: Location, coordinates: seq<Location>, i: nat)
    requires IsFallbackRoute(start, end, coordinates)
    requires i < Steps
    ensures |coordinates| == 11
    ensures coordinates[0] == start && coordinates[10] == end
    ensures coordinates[i + 1].lat - coordinates[i].lat == (end.lat - start.lat) / 10.0
    ensures coordinates[i + 1].lng - coordinates[i].lng == (end.lng - start.lng) / 10.0
  {
    assert coordinates[0] == Interpolate(start, end, 0);
    assert coordinates[10] == Interpolate(start, end, 10);
    assert coordinates[i] == Interpolate(start, end, i);
    assert coordinates[i + 1] == Interpolate(start, end, i + 1);
  }

  // ---------------------------------------------------------------------------
  // Coordinate order

  /** The `.map` that turns each `[lng, lat]` of the answer into `{lat, lng}`. */
  function ToLatLng(coords: seq<LngLat>): (r: seq<Location>)
    ensures |r| == |coords|
    ensures forall i :: 0 <= i < |coords| ==> r[i] == Location(coords[i].1, coords[i].0)
  {
    if coords == [] then [] else [Location(coords[0].1, coords[0].0)] + ToLatLng(coords[1..])
  }

  /** The request body writes each point longitude first. */
  function ToLngLat(locations: seq<Location>): (r: seq<LngLat>)
    ensures |r| == |locations|
    ensures forall i :: 0 <= i < |locations| ==> r[i] == (locations[i].lng, locations[i].lat)
  {
    if locations == [] then [] else [(locations[0].lng, locations[0].lat)] + ToLngLat(locations[1..])
  }

  /** Swapping the order of the request body back gives the caller's points, in order. */
  lemma LatLngRoundTrip(locations: seq<Location>)
    ensures ToLatLng(ToLngLat(locations)) == locations
  {
  }

  // ---------------------------------------------------------------------------
  // What the directions service answers

  /**
   * The outcome of the request, as an input: no API key configured (no request is
   * made), the request threw, the response was not ok, or a JSON body with its
   * features (a missing body or feature list reads as an empty one); each feature is
   * the coordinate list of its geometry.
   */
  datatype Upstream = NoApiKey | Threw | HttpError(status: int) | Answered(features: seq<seq<LngLat>>)

  /** Only a successful answer with at least one feature is written to the cache. */
  function Cacheable(upstream: Upstream): (cacheable: bool)
    ensures upstream.NoApiKey? || upstream.Threw? || upstream.HttpError? ==> !cacheable
    ensures upstream.Answered? ==> (cacheable <==> upstream.features != [])
  {
    upstream.Answered? && |upstream.features| > 0
  }

  /** The route the flow returns on a cache miss, for each outcome. */
  ghost predicate IsOutcome(start: Location, end: Location, upstream: Upstream, result: RouteResult) {
    match upstream
    case Answered(features) =>
      result.coordinates == if |features| > 0 then ToLatLng(features[0]) else []
    case _ => IsFallbackRoute(start, end, result.coordinates)
  }

  /** The part of getRouteFlow after a cache miss: it never fails, it falls back. */
  method FetchRoute(start: Location, end: Location, upstream: Upstream) returns (result: RouteResult, cacheable: bool)
    ensures cacheable == Cacheable(upstream)
    ensures IsOutcome(start, end, upstream, result)
  {
    if upstream.NoApiKey? {
      var coordinates := FallbackRoute(start, end);
      return RouteResult(coordinates), false;
    }
    match upstream
    case Threw =>
      var coordinates := FallbackRoute(start, end);
      result, cacheable := RouteResult(coordinates), false;
    case HttpError(_) =>
      var coordinates := FallbackRoute(start, end);
      result, cacheable := RouteResult(coordinates), false;
    case Answered(features) =>
      if |features| > 0 {
        result, cacheable := RouteResult(ToLatLng(features[0])), true;
      } else {
        result, cacheable := RouteResult([]), false;
      }
  }

  /** The module-level cache, owned here by one provider object. */
  class RouteProvider {
    var cache: RouteCache

    constructor ()
      ensures cache == map[]
    {
      cache := map[];
    }

    /**
     * getRouteFlow: `now` is the clock at the lookup, `doneAt` the clock when the
     * answer has arrived and is written.
     */
    method GetRoute(start: Location, end: Location, now: int, upstream: Upstream, doneAt: int)
      returns (result: RouteResult)
      modifies this
      ensures var key := GetCacheKey(start, end);
        match Lookup(old(cache), key, now)
        case Some(cached) => result == cached && cache == old(cache)
        case None =>
          && IsOutcome(start, end, upstream, result)
          && cache == if Cacheable(upstream) then old(cache)[key := CacheEntry(result, doneAt)] else old(cache)
    {
      var key := GetCacheKey(start, end);
      var cached := Lookup(cache, key, now);
      if cached.Some? {
        return cached.value;
      }
      var cacheable;
      result, cacheable := FetchRoute(start, end, upstream);
      if cacheable {
        cache := cache[key := CacheEntry(result, doneAt)];
      }
    }
  }

  /**
   * Two requests whose coordinates print alike, the second inside the TTL of the first
   * answer, get the same route, whatever the service would answer the second time.
   */
  method RepeatedRequestHitsCache(s1: Location, e1: Location, s2: Location, e2: Location,
                                  first: Upstream, second: Upstream, t0: int, t1: int, t2: int)
    returns (r1: RouteResult, r2: RouteResult)
    requires GetCacheKey(s1, e1) == GetCacheKey(s2, e2)
    requires Cacheable(first) && t2 < t1 + CacheTtl
    ensures r1.coordinates == ToLatLng(first.features[0])
    ensures r2 == r1
  {
    var provider := new RouteProvider();
    r1 := provider.GetRoute(s1, e1, t0, first, t1);
    r2 := provider.GetRoute(s2, e2, t2, second, t2);
  }
}
