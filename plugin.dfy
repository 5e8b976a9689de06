/**
 * The site as the plugin sees it: the listings' post meta, the transients,
 * the two options, and a log of the requests sent to the Places service.
 * `AutofillAddresses` is the `foreach` loop of `lbgt_autofill_addresses`,
 * step by step, proved to do what `Autofill.Run` specifies.
 */
module Plugin {
  import opened Wrappers
  import opened Php
  import opened PlacesApi
  import opened Autofill
  import Admin

  class Site {
    /** Post meta of the listings, by post id. */
    var listings: map<nat, Listing>
    /** Transients, by key. */
    var cache: map<string, CacheEntry>
    /** Place ids sent to the Places service, in order. */
    var requests: seq<string>
    /** The `lbgt_api_key` option (empty until saved). */
    var apiKey: string
    /** The `lbgt_listings_per_page` option (unset until saved). */
    var perPageOption: Option<int>

    /** The Places service, md5 and `get_permalink`, which the plugin only calls. */
    const api: (string, string) -> Response
    const md5: string -> string
    const permalink: nat -> string

    /** Only the settings page writes the page size, and it never stores less than 1. */
    ghost predicate Valid()
      reads this
    {
      perPageOption.Some? ==> perPageOption.value >= 1
    }

    /** The state a batch reads and writes. */
    function State(): SiteState
      reads this
    {
      SiteState(listings, cache, requests)
    }

    /** What a batch run at time `now` depends on. */
    function EnvAt(now: int): Env
      reads this
    {
      Env(apiKey, api, md5, permalink, now)
    }

    /** A fresh install: no transients, no options saved, nothing requested. */
    constructor (listings: map<nat, Listing>, api: (string, string) -> Response, md5: string -> string,
                 permalink: nat -> string)
      ensures Valid()
      ensures this.listings == listings && cache == map[] && requests == []
      ensures apiKey == "" && perPageOption == None
      ensures this.api == api && this.md5 == md5 && this.permalink == permalink
    {
      this.listings := listings;
      this.api := api;
      this.md5 := md5;
      this.permalink := permalink;
      cache := map[];
      requests := [];
      apiKey := "";
      perPageOption := None;
    }

    /** Saving the settings form: the key as submitted and the page size clamped to at least 1. */
    method SaveSettings(submittedKey: string, submittedPerPage: int)
      requires Valid()
      modifies this`apiKey, this`perPageOption
      ensures Valid()
      ensures apiKey == submittedKey
      ensures perPageOption == Some(Admin.AtLeastOne(submittedPerPage))
    {
      apiKey := submittedKey;
      perPageOption := Some(Admin.AtLeastOne(submittedPerPage));
    }

    /** The page size the admin page uses: the saved one, or 50; never less than 1. */
    function PerPage(): (r: int)
      reads this
      requires Valid()
      ensures r >= 1
      ensures perPageOption.None? ==> r == Admin.DefaultPerPage
      ensures perPageOption.Some? ==> r == perPageOption.value
    {
      Admin.ListingsPerPage(perPageOption)
    }

    /**
     * `lbgt_fetch_place_details`: with an empty key nothing is sent and the
     * call fails; otherwise one request goes out and its answer is validated.
     */
    method FetchDetails(placeId: string) returns (r: Option<PlaceDetail>)
      modifies this`requests
      ensures r == FetchPlaceDetails(apiKey, placeId, api)
      ensures requests == old(requests) + RequestLog(apiKey, placeId)
    {
      if IsEmpty(apiKey) {
        return None;
      }
      requests := requests + [placeId];
      r := ValidateResponse(api(placeId, apiKey));
    }

    /**
     * One pass of the `foreach` in `lbgt_autofill_addresses`: read the place
     * id, consult the cache, fetch on a miss and cache a success, write the
     * listing back; the outcome says which list gets an entry.
     */
    method AutofillOne(id: nat, now: int) returns (outcome: Outcome)
      modifies this`listings, this`cache, this`requests
      ensures var step := Step(EnvAt(now), old(State()), id);
        State() == step.0 && outcome == step.1
    {
      var placeId := PlaceIdOf(listings, id);
      if IsEmpty(placeId) {
        return Failed(id, NoPlaceIdMessage(id));
      }
      var key := CacheKey(md5, placeId);
      var result := CacheGet(cache, key, now);
      if result.None? {
        result := FetchDetails(placeId);
        if result.Some? {
          cache := cache[key := CacheEntry(result.value, now + CacheLifetime)];
        }
      }
      if result.Some? {
        var d := result.value;
        listings := listings[id := WithDetail(listings[id], d)];
        outcome := Succeeded(SuccessRecord(id, d.formattedAddress, placeId, d.lat, d.lng, permalink(id)));
      } else {
        outcome := Failed(id, FetchFailedMessage(id, placeId));
      }
    }

    /**
     * `lbgt_autofill_addresses`, run at time `now`: the new listings, cache
     * and request log, and the success and error lists, are those of
     * `Run` on the old state; in particular there is one entry in one of the
     * two lists per id.
     */
    method AutofillAddresses(ids: seq<nat>, now: int) returns (success: seq<SuccessRecord>, errors: seq<string>)
      modifies this`listings, this`cache, this`requests
      ensures var result := Run(EnvAt(now), old(State()), ids);
        && State() == result.0
        && success == Successes(result.1)
        && errors == Errors(result.1)
      ensures |success| + |errors| == |ids|
    {
      ghost var env := EnvAt(now);
      ghost var start := State();
      success, errors := [], [];
      var i := 0;
      while i < |ids|
        invariant 0 <= i <= |ids|
        invariant env == EnvAt(now)
        invariant State() == Run(env, start, ids[..i]).0
        invariant success == Successes(Run(env, start, ids[..i]).1)
        invariant errors == Errors(Run(env, start, ids[..i]).1)
      {
        ghost var outs := Run(env, start, ids[..i]).1;
        RunOfNextPrefix(env, start, ids, i);
        var outcome := AutofillOne(ids[i], now);
        SuccessesOfNext(outs, outcome);
        ErrorsOfNext(outs, outcome);
        if outcome.Succeeded? {
          success := success + [outcome.record];
        } else {
          errors := errors + [outcome.message];
        }
        i := i + 1;
      }
      assert ids[..i] == ids;
      RunCounts(env, start, ids);
    }

    /**
     * The data flow of `lbgt_autofill_admin_page`: a posted autofill action
     * with a non-empty selection runs the batch, and the listing query is
     * built from the filters with the saved page size.
     */
    method AdminPage(action: Option<string>, selected: seq<nat>, paged: Option<int>, placeIdFilter: Option<string>,
                     locationFilter: Option<string>, now: int)
      returns (success: seq<SuccessRecord>, errors: seq<string>, args: Admin.QueryArgs)
      requires Valid()
      modifies this`listings, this`cache, this`requests
      ensures Valid()
      ensures var runs := action == Some("autofill_addresses") && selected != [];
        var result := Run(EnvAt(now), old(State()), if runs then selected else []);
        && State() == result.0
        && success == Successes(result.1)
        && errors == Errors(result.1)
      ensures args.postsPerPage >= 1
      ensures Admin.QueryArgsFor(PerPage(), paged, placeIdFilter, locationFilter, args)
    {
      success, errors := [], [];
      if action == Some("autofill_addresses") && selected != [] {
        success, errors := AutofillAddresses(selected, now);
      }
      args := Admin.BuildQueryArgs(PerPage(), paged, placeIdFilter, locationFilter);
    }
  }
}
