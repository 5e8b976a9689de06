/**
 * The bulk autofill of `lbgt_autofill_addresses`, as a specification on
 * values: one `Step` per listing id (read the place id, consult the cache,
 * fetch on a miss, cache a successful fetch, write the listing back,
 * record one outcome), and `Run` over an ordered list of ids. The class
 * in module Plugin implements the loop imperatively and is proved equal to
 * `Run`; the lemmas here are what `Run` guarantees.
 */
module Autofill {
  import opened Wrappers
  import opened Php
  import opened PlacesApi

  /**
   * The post meta of one listing that the plugin touches: `_place_id`
   * (the empty string when unset), `_address`, `_geolocation_lat` and
   * `_geolocation_long` (None when unset).
   */
  datatype Listing = Listing(placeId: string, address: string, lat: Option<real>, lng: Option<real>)

  /** A transient: the cached detail and the time (in seconds) after which it has expired. */
  datatype CacheEntry = CacheEntry(detail: PlaceDetail, expiresAt: int)

  /** One row of `$processed_listings['success']`. */
  datatype SuccessRecord = SuccessRecord(id: nat, address: string, placeId: string, lat: real, lng: real, url: string)

  /** What happened to one listing id: a success record, or an error message naming the id. */
  datatype Outcome = Succeeded(record: SuccessRecord) | Failed(listingId: nat, message: string) {
    function Id(): nat {
      match this
      case Succeeded(rec) => rec.id
      case Failed(id, _) => id
    }
  }

  /**
   * What a batch depends on besides the stored state: the API key option,
   * the Places service, the md5 function, `get_permalink`, and the time at
   * which the batch runs.
   */
  datatype Env = Env(apiKey: string, api: (string, string) -> Response, md5: string -> string,
                     permalink: nat -> string, now: int)

  /**
   * The state a batch reads and writes: the listings' post meta by post id,
   * the transients by key, and the place ids sent to the service, in order.
   */
  datatype SiteState = SiteState(listings: map<nat, Listing>, cache: map<string, CacheEntry>, requests: seq<string>)

  const DayInSeconds := 86400
  /** Cached details are kept for 30 days. */
  const CacheLifetime := 30 * DayInSeconds
  const CacheKeyPrefix := "lbgt_place_"

  ghost predicate Injective(f: string -> string) {
    forall a, b :: f(a) == f(b) ==> a == b
  }

  /** `'lbgt_place_' . md5($place_id)`. */
  function CacheKey(md5: string -> string, placeId: string): string {
    CacheKeyPrefix + md5(placeId)
  }

  /** With an injective hash, distinct place ids never share a cache key. */
  lemma CacheKeyInjective(md5: string -> string, p: string, q: string)
    requires Injective(md5)
    ensures CacheKey(md5, p) == CacheKey(md5, q) ==> p == q
  {
    if CacheKey(md5, p) == CacheKey(md5, q) {
      var n := |CacheKeyPrefix|;
      assert md5(p) == CacheKey(md5, p)[n..];
      assert md5(q) == CacheKey(md5, q)[n..];
    }
  }

  /** `get_post_meta($id, '_place_id', true)`: the empty string for an unknown post or an unset field. */
  function PlaceIdOf(listings: map<nat, Listing>, id: nat): (p: string)
    ensures !IsEmpty(p) ==> id in listings
  {
    if id in listings then listings[id].placeId else ""
  }

  /** `get_transient($key)`: the cached detail while the entry has not expired, otherwise nothing (false). */
  function CacheGet(cache: map<string, CacheEntry>, key: string, now: int): (r: Option<PlaceDetail>)
    ensures r.Some? <==> key in cache && now <= cache[key].expiresAt
    ensures r.Some? ==> r.value == cache[key].detail
  {
    if key in cache && now <= cache[key].expiresAt then Some(cache[key].detail) else None
  }

  /** The requests one call of the fetcher sends: one for the place id, unless the API key is empty. */
  function RequestLog(apiKey: string, placeId: string): seq<string> {
    if SendsRequest(apiKey) then [placeId] else []
  }

  function NoPlaceIdMessage(id: nat): string {
    "Post ID " + NatToString(id) + ": No _place_id found."
  }

  function FetchFailedMessage(id: nat, placeId: string): string {
    "Post ID " + NatToString(id) + ": Failed to fetch details for Place ID '" + placeId + "'."
  }

  /** The three `update_post_meta` calls: address, latitude and longitude from the detail; the place id is kept. */
  function WithDetail(listing: Listing, d: PlaceDetail): Listing {
    listing.(address := d.formattedAddress, lat := Some(d.lat), lng := Some(d.lng))
  }

  /**
   * Obtaining a detail for a non-empty place id: a live cache entry is used
   * as it is; otherwise the fetcher is called, and only a successful fetch
   * is stored, for `CacheLifetime` seconds.
   */
  function Resolve(env: Env, s: SiteState, placeId: string): (SiteState, Option<PlaceDetail>) {
    var key := CacheKey(env.md5, placeId);
    var cached := CacheGet(s.cache, key, env.now);
    if cached.Some? then (s, cached)
    else
      var fetched := FetchPlaceDetails(env.apiKey, placeId, env.api);
      var cache := if fetched.Some? then s.cache[key := CacheEntry(fetched.value, env.now + CacheLifetime)] else s.cache;
      (SiteState(s.listings, cache, s.requests + RequestLog(env.apiKey, placeId)), fetched)
  }

  /** Writing a resolved detail back and recording a success, or recording the fetch error. */
  function Settle(env: Env, listings: map<nat, Listing>, id: nat, placeId: string, result: Option<PlaceDetail>)
    : (map<nat, Listing>, Outcome)
    requires id in listings
  {
    match result
    case Some(d) =>
      (listings[id := WithDetail(listings[id], d)],
       Succeeded(SuccessRecord(id, d.formattedAddress, placeId, d.lat, d.lng, env.permalink(id))))
    case None =>
      (listings, Failed(id, FetchFailedMessage(id, placeId)))
  }

  /** One iteration of the `foreach` over the listing ids. */
  function Step(env: Env, s: SiteState, id: nat): (SiteState, Outcome) {
    var placeId := PlaceIdOf(s.listings, id);
    if IsEmpty(placeId) then (s, Failed(id, NoPlaceIdMessage(id)))
    else
      var resolved := Resolve(env, s, placeId);
      var settled := Settle(env, resolved.0.listings, id, placeId, resolved.1);
      (resolved.0.(listings := settled.0), settled.1)
  }

  /** The whole batch: the final state and one outcome per id, in input order. */
  function Run(env: Env, s: SiteState, ids: seq<nat>): (SiteState, seq<Outcome>)
    decreases |ids|
  {
    if ids == [] then (s, [])
    else
      var before := Run(env, s, ids[..|ids| - 1]);
      var after := Step(env, before.0, ids[|ids| - 1]);
      (after.0, before.1 + [after.1])
  }

  /** `$processed_listings['success']`: the success records, in order. */
  function Successes(outs: seq<Outcome>): (r: seq<SuccessRecord>)
    ensures forall rec :: rec in r <==> Succeeded(rec) in outs
  {
    if outs == [] then []
    else
      var last := outs[|outs| - 1];
      Successes(outs[..|outs| - 1]) + (if last.Succeeded? then [last.record] else [])
  }

  /** `$processed_listings['errors']`: the error messages, in order. */
  function Errors(outs: seq<Outcome>): (r: seq<string>)
    ensures forall k :: 0 <= k < |outs| && outs[k].Failed? ==> outs[k].message in r
    ensures forall m :: m in r ==> exists k :: 0 <= k < |outs| && outs[k].Failed? && outs[k].message == m
  {
    if outs == [] then []
    else
      var last := outs[|outs| - 1];
      Errors(outs[..|outs| - 1]) + (if last.Failed? then [last.message] else [])
  }

  /** One more id extends the batch by one `Step`. */
  lemma RunOfNextPrefix(env: Env, s: SiteState, ids: seq<nat>, i: nat)
    requires i < |ids|
    ensures var before := Run(env, s, ids[..i]); var after := Step(env, before.0, ids[i]);
      Run(env, s, ids[..i + 1]) == (after.0, before.1 + [after.1])
  {
    assert ids[..i + 1][..i] == ids[..i];
  }

  /** One more outcome adds its record, if any, at the end of the success list. */
  lemma SuccessesOfNext(outs: seq<Outcome>, o: Outcome)
    ensures Successes(outs + [o]) == Successes(outs) + (if o.Succeeded? then [o.record] else [])
  {
    assert (outs + [o])[..|outs|] == outs;
  }

  /** One more outcome adds its message, if any, at the end of the error list. */
  lemma ErrorsOfNext(outs: seq<Outcome>, o: Outcome)
    ensures Errors(outs + [o]) == Errors(outs) + (if o.Failed? then [o.message] else [])
  {
    assert (outs + [o])[..|outs|] == outs;
  }

  // ---------------------------------------------------------------------
  // One listing id

  /** A listing without a place id (unset, "" or "0") gets exactly one error and nothing else happens: no cache lookup, no request, no write. */
  lemma StepWithoutPlaceId(env: Env, s: SiteState, id: nat)
    requires IsEmpty(PlaceIdOf(s.listings, id))
    ensures Step(env, s, id) == (s, Failed(id, "Post ID " + NatToString(id) + ": No _place_id found."))
  {
  }

  /**
   * On a live cache entry the fetcher is not called and the cache is left
   * alone; the cached detail is written to exactly the address, latitude
   * and longitude of this listing and reported as a success.
   */
  lemma StepOnCacheHit(env: Env, s: SiteState, id: nat, d: PlaceDetail)
    requires !IsEmpty(PlaceIdOf(s.listings, id))
    requires CacheGet(s.cache, CacheKey(env.md5, PlaceIdOf(s.listings, id)), env.now) == Some(d)
    ensures var p := PlaceIdOf(s.listings, id);
      Step(env, s, id) ==
        (SiteState(s.listings[id := Listing(p, d.formattedAddress, Some(d.lat), Some(d.lng))], s.cache, s.requests),
         Succeeded(SuccessRecord(id, d.formattedAddress, p, d.lat, d.lng, env.permalink(id))))
  {
  }

  /**
   * On a miss the fetcher is called (sending a request when a key is set).
   * A successful fetch is cached under the place id's key for 30 days and
   * written to the listing; a failed one leaves the listings and the cache
   * as they were and records one error naming the id and the place id.
   */
  lemma StepOnCacheMiss(env: Env, s: SiteState, id: nat)
    requires !IsEmpty(PlaceIdOf(s.listings, id))
    requires CacheGet(s.cache, CacheKey(env.md5, PlaceIdOf(s.listings, id)), env.now) == None
    ensures var p := PlaceIdOf(s.listings, id);
      var after := Step(env, s, id);
      && after.0.requests == s.requests + (if SendsRequest(env.apiKey) then [p] else [])
      && match FetchPlaceDetails(env.apiKey, p, env.api)
         case Some(d) =>
           && after.0.cache == s.cache[CacheKey(env.md5, p) := CacheEntry(d, env.now + 30 * 86400)]
           && after.0.listings == s.listings[id := Listing(p, d.formattedAddress, Some(d.lat), Some(d.lng))]
           && after.1 == Succeeded(SuccessRecord(id, d.formattedAddress, p, d.lat, d.lng, env.permalink(id)))
         case None =>
           && after.0.cache == s.cache
           && after.0.listings == s.listings
           && after.1 == Failed(id, "Post ID " + NatToString(id) + ": Failed to fetch details for Place ID '" + p + "'.")
  {
  }

  /** A cache entry written 31 days ago has expired: the place id is fetched again. */
  lemma StepAfterExpiry(env: Env, s: SiteState, id: nat, d: PlaceDetail, writtenAt: int)
    requires !IsEmpty(PlaceIdOf(s.listings, id)) && SendsRequest(env.apiKey)
    requires var key := CacheKey(env.md5, PlaceIdOf(s.listings, id));
      key in s.cache && s.cache[key] == CacheEntry(d, writtenAt + CacheLifetime)
    requires env.now == writtenAt + 31 * DayInSeconds
    ensures Step(env, s, id).0.requests == s.requests + [PlaceIdOf(s.listings, id)]
  {
  }

  // ---------------------------------------------------------------------
  // The whole batch

  lemma StepOutcomeId(env: Env, s: SiteState, id: nat)
    ensures Step(env, s, id).1.Id() == id
  {
  }

  /** One outcome per input id, in input order; duplicate ids each get their own. */
  lemma {:induction false} RunFollowsInput(env: Env, s: SiteState, ids: seq<nat>)
    ensures |Run(env, s, ids).1| == |ids|
    ensures forall k :: 0 <= k < |ids| ==> Run(env, s, ids).1[k].Id() == ids[k]
    decreases |ids|
  {
    if ids != [] {
      var init := ids[..|ids| - 1];
      RunFollowsInput(env, s, init);
      StepOutcomeId(env, Run(env, s, init).0, ids[|ids| - 1]);
    }
  }

  /** Every outcome lands in exactly one of the two lists. */
  lemma {:induction false} OutcomesPartition(outs: seq<Outcome>)
    ensures |Successes(outs)| + |Errors(outs)| == |outs|
  {
    if outs != [] {
      OutcomesPartition(outs[..|outs| - 1]);
    }
  }

  /** |success| + |errors| is the number of input ids. */
  lemma RunCounts(env: Env, s: SiteState, ids: seq<nat>)
    ensures var outs := Run(env, s, ids).1; |Successes(outs)| + |Errors(outs)| == |ids|
  {
    RunFollowsInput(env, s, ids);
    OutcomesPartition(Run(env, s, ids).1);
  }

  /**
   * `after` differs from `before` only at the listings named in `ids`, and
   * even there the set of posts and their place ids are the same.
   */
  ghost predicate OnlyNamedWritten(before: map<nat, Listing>, after: map<nat, Listing>, ids: seq<nat>) {
    && after.Keys == before.Keys
    && forall id :: id in before ==> after[id].placeId == before[id].placeId && (id !in ids ==> after[id] == before[id])
  }

  lemma StepWritesOnlyItsListing(env: Env, s: SiteState, id: nat)
    ensures OnlyNamedWritten(s.listings, Step(env, s, id).0.listings, [id])
  {
  }

  /** Only listings named in the input are ever written, and place ids are never written. */
  lemma {:induction false} RunWritesOnlyNamed(env: Env, s: SiteState, ids: seq<nat>)
    ensures OnlyNamedWritten(s.listings, Run(env, s, ids).0.listings, ids)
    decreases |ids|
  {
    if ids != [] {
      var init := ids[..|ids| - 1];
      RunWritesOnlyNamed(env, s, init);
      StepWritesOnlyItsListing(env, Run(env, s, init).0, ids[|ids| - 1]);
      assert forall id :: id in init ==> id in ids;
    }
  }

  /** The place ids of the listings named in `ids`. */
  function PlaceIdsOf(listings: map<nat, Listing>, ids: seq<nat>): set<string> {
    set k | 0 <= k < |ids| :: PlaceIdOf(listings, ids[k])
  }

  /**
   * A batch only appends to the request log: at most one request per id,
   * each for the place id of a listing in the input, and none at all when
   * the API key is empty.
   */
  lemma {:induction false} RunRequests(env: Env, s: SiteState, ids: seq<nat>)
    ensures var r := Run(env, s, ids).0.requests;
      && |s.requests| <= |r| <= |s.requests| + |ids|
      && r[..|s.requests|] == s.requests
      && (forall k :: |s.requests| <= k < |r| ==> r[k] in PlaceIdsOf(s.listings, ids))
      && (!SendsRequest(env.apiKey) ==> r == s.requests)
    decreases |ids|
  {
    if ids != [] {
      var init := ids[..|ids| - 1];
      var mid := Run(env, s, init).0;
      RunRequests(env, s, init);
      RunWritesOnlyNamed(env, s, init);
      var id := ids[|ids| - 1];
      assert PlaceIdOf(mid.listings, id) == PlaceIdOf(s.listings, id);
      assert PlaceIdOf(s.listings, ids[|ids| - 1]) in PlaceIdsOf(s.listings, ids);
      forall k | 0 <= k < |init|
        ensures PlaceIdOf(s.listings, init[k]) in PlaceIdsOf(s.listings, ids)
      {
        assert init[k] == ids[k];
      }
    }
  }

  /** Running two batches back to back is running their concatenation. */
  lemma {:induction false} RunConcat(env: Env, s: SiteState, xs: seq<nat>, ys: seq<nat>)
    ensures Run(env, s, xs + ys).0 == Run(env, Run(env, s, xs).0, ys).0
    ensures Run(env, s, xs + ys).1 == Run(env, s, xs).1 + Run(env, Run(env, s, xs).0, ys).1
    decreases |ys|
  {
    if ys == [] {
      assert xs + ys == xs;
    } else {
      var ys' := ys[..|ys| - 1];
      assert (xs + ys)[..|xs + ys| - 1] == xs + ys';
      RunConcat(env, s, xs, ys');
    }
  }

  /** A live cache entry is neither overwritten nor dropped by a step run at the same time. */
  lemma StepKeepsLiveEntries(env: Env, s: SiteState, id: nat, key: string)
    requires CacheGet(s.cache, key, env.now).Some?
    ensures CacheGet(Step(env, s, id).0.cache, key, env.now) == CacheGet(s.cache, key, env.now)
    ensures key in Step(env, s, id).0.cache && Step(env, s, id).0.cache[key] == s.cache[key]
  {
  }

  lemma {:induction false} RunKeepsLiveEntries(env: Env, s: SiteState, ids: seq<nat>, key: string)
    requires CacheGet(s.cache, key, env.now).Some?
    ensures CacheGet(Run(env, s, ids).0.cache, key, env.now) == CacheGet(s.cache, key, env.now)
    ensures key in Run(env, s, ids).0.cache && Run(env, s, ids).0.cache[key] == s.cache[key]
    decreases |ids|
  {
    if ids != [] {
      RunKeepsLiveEntries(env, s, ids[..|ids| - 1], key);
      StepKeepsLiveEntries(env, Run(env, s, ids[..|ids| - 1]).0, ids[|ids| - 1], key);
    }
  }

  /** After a success the place id's cache entry is live. */
  lemma StepSuccessCaches(env: Env, s: SiteState, id: nat)
    requires Step(env, s, id).1.Succeeded?
    ensures CacheGet(Step(env, s, id).0.cache, CacheKey(env.md5, PlaceIdOf(s.listings, id)), env.now).Some?
  {
  }

  /**
   * Once a listing's place id has been resolved, a later listing in the same
   * batch with the same place id is served from the cache: its step sends
   * no request.
   */
  lemma NoRefetchWithinBatch(env: Env, s: SiteState, ids: seq<nat>, k: nat, j: nat)
    requires k < j < |ids|
    requires PlaceIdOf(s.listings, ids[k]) == PlaceIdOf(s.listings, ids[j])
    requires Step(env, Run(env, s, ids[..k]).0, ids[k]).1.Succeeded?
    ensures var before := Run(env, s, ids[..j]).0; Step(env, before, ids[j]).0.requests == before.requests
  {
    var p := PlaceIdOf(s.listings, ids[k]);
    var key := CacheKey(env.md5, p);
    LiveAfterSuccess(env, s, ids, k);
    LiveUntil(env, s, ids, k + 1, j, key);
    var atJ := Run(env, s, ids[..j]).0;
    RunWritesOnlyNamed(env, s, ids[..j]);
    assert PlaceIdOf(atJ.listings, ids[j]) == p;
    StepOnHitSendsNothing(env, atJ, ids[j]);
  }

  lemma StepOnHitSendsNothing(env: Env, s: SiteState, id: nat)
    requires CacheGet(s.cache, CacheKey(env.md5, PlaceIdOf(s.listings, id)), env.now).Some?
    ensures Step(env, s, id).0.requests == s.requests
  {
  }

  /** A cache entry live after the first `m` ids is still live after the first `j`. */
  lemma LiveUntil(env: Env, s: SiteState, ids: seq<nat>, m: nat, j: nat, key: string)
    requires m <= j <= |ids|
    requires CacheGet(Run(env, s, ids[..m]).0.cache, key, env.now).Some?
    ensures CacheGet(Run(env, s, ids[..j]).0.cache, key, env.now).Some?
  {
    var xs, ys := ids[..m], ids[m..j];
    assert ids[..j] == xs + ys;
    LiveAcrossConcat(env, s, xs, ys, key);
  }

  lemma LiveAcrossConcat(env: Env, s: SiteState, xs: seq<nat>, ys: seq<nat>, key: string)
    requires CacheGet(Run(env, s, xs).0.cache, key, env.now).Some?
    ensures CacheGet(Run(env, s, xs + ys).0.cache, key, env.now).Some?
  {
    RunConcat(env, s, xs, ys);
    RunKeepsLiveEntries(env, Run(env, s, xs).0, ys, key);
  }

  lemma LiveAfterSuccess(env: Env, s: SiteState, ids: seq<nat>, k: nat)
    requires k < |ids|
    requires Step(env, Run(env, s, ids[..k]).0, ids[k]).1.Succeeded?
    ensures CacheGet(Run(env, s, ids[..k + 1]).0.cache, CacheKey(env.md5, PlaceIdOf(s.listings, ids[k])), env.now).Some?
  {
    var before := Run(env, s, ids[..k]).0;
    assert ids[..k + 1][..k] == ids[..k];
    StepSuccessCaches(env, before, ids[k]);
    RunWritesOnlyNamed(env, s, ids[..k]);
  }

  // ---------------------------------------------------------------------
  // The cache does not change what a batch does

  /** The reference behaviour: every listing with a place id is fetched directly, with no cache. */
  function DirectStep(env: Env, listings: map<nat, Listing>, id: nat): (map<nat, Listing>, Outcome) {
    var placeId := PlaceIdOf(listings, id);
    if IsEmpty(placeId) then (listings, Failed(id, NoPlaceIdMessage(id)))
    else Settle(env, listings, id, placeId, FetchPlaceDetails(env.apiKey, placeId, env.api))
  }

  function DirectRun(env: Env, listings: map<nat, Listing>, ids: seq<nat>): (map<nat, Listing>, seq<Outcome>)
    decreases |ids|
  {
    if ids == [] then (listings, [])
    else
      var before := DirectRun(env, listings, ids[..|ids| - 1]);
      var after := DirectStep(env, before.0, ids[|ids| - 1]);
      (after.0, before.1 + [after.1])
  }

  /** Every cache entry under a place id's key holds what fetching that place id now gives. */
  ghost predicate Coherent(env: Env, cache: map<string, CacheEntry>) {
    forall p {:trigger CacheKey(env.md5, p)} :: CacheKey(env.md5, p) in cache ==>
      FetchPlaceDetails(env.apiKey, p, env.api) == Some(cache[CacheKey(env.md5, p)].detail)
  }

  lemma StepIsTransparent(env: Env, s: SiteState, id: nat)
    requires Injective(env.md5) && Coherent(env, s.cache)
    ensures Step(env, s, id).0.listings == DirectStep(env, s.listings, id).0
    ensures Step(env, s, id).1 == DirectStep(env, s.listings, id).1
    ensures Coherent(env, Step(env, s, id).0.cache)
  {
    var p := PlaceIdOf(s.listings, id);
    if !IsEmpty(p) {
      var key := CacheKey(env.md5, p);
      var fetched := FetchPlaceDetails(env.apiKey, p, env.api);
      if CacheGet(s.cache, key, env.now).None? && fetched.Some? {
        var cache' := s.cache[key := CacheEntry(fetched.value, env.now + CacheLifetime)];
        forall q | CacheKey(env.md5, q) in cache'
          ensures FetchPlaceDetails(env.apiKey, q, env.api) == Some(cache'[CacheKey(env.md5, q)].detail)
        {
          CacheKeyInjective(env.md5, p, q);
        }
      }
    }
  }

  /**
   * As long as the cache only holds what the service would answer now (as
   * it does when it starts empty), the cache is invisible: a batch writes
   * the same listings and reports the same outcomes as fetching every
   * place id afresh, and it leaves the cache coherent.
   */
  lemma {:induction false} CachingIsTransparent(env: Env, s: SiteState, ids: seq<nat>)
    requires Injective(env.md5) && Coherent(env, s.cache)
    ensures Run(env, s, ids).0.listings == DirectRun(env, s.listings, ids).0
    ensures Run(env, s, ids).1 == DirectRun(env, s.listings, ids).1
    ensures Coherent(env, Run(env, s, ids).0.cache)
    decreases |ids|
  {
    if ids != [] {
      var init := ids[..|ids| - 1];
      CachingIsTransparent(env, s, init);
      StepIsTransparent(env, Run(env, s, init).0, ids[|ids| - 1]);
    }
  }

  // ---------------------------------------------------------------------
  // A worked example

  /**
   * Listing 101 has place id "ChIJabc" and no cache entry, and the service
   * answers with "Corfu, Greece" at (39.6, 19.9); listing 102 has no place
   * id. The batch [101, 102] gives one success and one error, and caches
   * the detail.
   */
  lemma CorfuExample(env: Env, s: SiteState)
    requires PlaceIdOf(s.listings, 101) == "ChIJabc" && PlaceIdOf(s.listings, 102) == ""
    requires s.cache == map[] && SendsRequest(env.apiKey)
    requires env.api("ChIJabc", env.apiKey) == OkResponse(PlaceDetail("Corfu, Greece", 39.6, 19.9))
    ensures var result := Run(env, s, [101, 102]);
      && Successes(result.1) == [SuccessRecord(101, "Corfu, Greece", "ChIJabc", 39.6, 19.9, env.permalink(101))]
      && Errors(result.1) == ["Post ID 102: No _place_id found."]
      && CacheKey(env.md5, "ChIJabc") in result.0.cache
      && result.0.requests == s.requests + ["ChIJabc"]
  {
    var first := Step(env, s, 101);
    CorfuFirstStep(env, s);
    var second := Step(env, first.0, 102);
    CorfuSecondStep(env, first.0);
    RunOfTwo(env, s, 101, 102);
    OutcomeListsOfTwo(first.1, second.1);
  }

  lemma CorfuSecondStep(env: Env, s: SiteState)
    requires PlaceIdOf(s.listings, 102) == ""
    ensures Step(env, s, 102) == (s, Failed(102, "Post ID 102: No _place_id found."))
  {
    StepWithoutPlaceId(env, s, 102);
    DecimalOf102();
    assert "Post ID " + "102" + ": No _place_id found." == "Post ID 102: No _place_id found.";
  }

  lemma DecimalOf102()
    ensures NatToString(102) == "102"
  {
    assert NatToString(1) == "1";
    assert NatToString(10) == "10";
  }

  lemma CorfuFirstStep(env: Env, s: SiteState)
    requires PlaceIdOf(s.listings, 101) == "ChIJabc" && PlaceIdOf(s.listings, 102) == ""
    requires s.cache == map[] && SendsRequest(env.apiKey)
    requires env.api("ChIJabc", env.apiKey) == OkResponse(PlaceDetail("Corfu, Greece", 39.6, 19.9))
    ensures var first := Step(env, s, 101);
      && first.1 == Succeeded(SuccessRecord(101, "Corfu, Greece", "ChIJabc", 39.6, 19.9, env.permalink(101)))
      && CacheKey(env.md5, "ChIJabc") in first.0.cache
      && first.0.requests == s.requests + ["ChIJabc"]
      && PlaceIdOf(first.0.listings, 102) == ""
  {
    var d := PlaceDetail("Corfu, Greece", 39.6, 19.9);
    assert FetchPlaceDetails(env.apiKey, "ChIJabc", env.api) == Some(d);
  }

  lemma RunOfTwo(env: Env, s: SiteState, a: nat, b: nat)
    ensures var first := Step(env, s, a);
      var second := Step(env, first.0, b);
      Run(env, s, [a, b]) == (second.0, [first.1, second.1])
  {
    var ids: seq<nat> := [a, b];
    var one: seq<nat> := [a];
    var none: seq<nat> := [];
    assert ids[..1] == one && one[..0] == none;
    var first := Step(env, s, a);
    assert [] + [first.1] == [first.1];
    assert Run(env, s, one) == (first.0, [first.1]);
    var second := Step(env, first.0, b);
    assert [first.1] + [second.1] == [first.1, second.1];
  }

  lemma OutcomeListsOfTwo(o1: Outcome, o2: Outcome)
    ensures Successes([o1, o2]) == (if o1.Succeeded? then [o1.record] else []) + (if o2.Succeeded? then [o2.record] else [])
    ensures Errors([o1, o2]) == (if o1.Failed? then [o1.message] else []) + (if o2.Failed? then [o2.message] else [])
  {
    var both, one, none := [o1, o2], [o1], [];
    assert both[..1] == one && one[..0] == none;
    assert Successes(one) == [] + (if o1.Succeeded? then [o1.record] else []);
    assert Errors(one) == [] + (if o1.Failed? then [o1.message] else []);
  }
}
