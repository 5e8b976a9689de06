# Listeo Bulk Address Autofill, modelled in Dafny

The WordPress plugin "Listeo Bulk Address Autofill" (one PHP file,
`listeo-bulk-geocode.php`) lets an administrator filter and page through
"listing" posts, select some, and fill in each selected listing's `_address`,
`_geolocation_lat` and `_geolocation_long` post meta from the Google Places
"details" service. The service is looked up by the listing's `_place_id`.
Successful lookups are cached as transients for 30 days.

This project models the logic inside that file and proves what it guarantees:

- `wrappers.dfy` (module `Wrappers`): the `Option` datatype.
- `php.dfy` (module `Php`): the PHP primitives the plugin relies on, with
  their PHP semantics. `empty()` on strings counts `"0"` as empty. `trim()`
  uses its default character list. `explode()` is proved to be the inverse of
  `implode()`, both ways. Integers are rendered in decimal.
- `location.dfy` (module `Location`): `lbgt_extract_location`.
- `places.dfy` (module `PlacesApi`): the success/failure gate of
  `lbgt_fetch_place_details`. The HTTP call and `json_decode` become an oracle
  that maps a place id and API key to a decoded response.
- `autofill.dfy` (module `Autofill`): the bulk autofill loop as a
  specification on values. `Step` handles one listing id and `Run` handles a
  batch. The lemmas cover order, counts, which listings are written, the
  request log, and cache discipline and expiry. They also prove that,
  starting from a cache that holds only what the service would answer (an
  empty one, say) and with an injective md5, a batch writes the same
  listings and reports the same outcomes as fetching every place id
  directly; the request log does differ, since cache hits send nothing. A
  worked example is included.
- `plugin.dfy` (module `Plugin`): class `Site` holds the listings, the
  transients, the two options and the log of requests sent to the service.
  Its methods are the imperative code: saving the settings, fetching, the
  `foreach` loop of `lbgt_autofill_addresses` (proved equal to `Run`), and the
  data flow of the admin page.
- `admin.dfy` (module `Admin`): the admin pages' arithmetic. This covers
  clamping the page size and the page number, building the `WP_Query`
  arguments from the filters, and the page count.

The md5 function, the Places service and `get_permalink` are constants of
the `Site` object: the plugin only calls them. The clock is a `now`
parameter of a batch. A transient is live while `now <= expiresAt`, as in
WordPress, where an entry expires once its timeout is earlier than the
current time.

Three behaviours of the code that are easy to misread, and which the model follows:

- A place id of `"0"` is "missing", because the code tests it with `empty()`.
  The same holds for an address of `"0"` (shown as `N/A`), an API key of
  `"0"` (no request is sent) and a location filter of `"0"` (no `LIKE`
  clause).
- The code treats a non-2xx HTTP status as a normal body: only a transport
  error (`is_wp_error`) fails before decoding. A non-2xx answer therefore
  fails only through its `status` field.
- The code never deletes a transient. An expired entry simply reads as
  absent (`get_transient` returns `false`), and a later successful fetch
  overwrites it.

## Model

| member | source | states |
|---|---|---|
| `Php.Trim` | listeo-bulk-geocode.php:77 | `trim()` leaves no trimmable character at either end, keeps only characters of its input, and never lengthens it |
| `Php.TrimOfPadded` | listeo-bulk-geocode.php:77 | `trim()` is determined by what it keeps: trimming a string whose ends are not whitespace, padded with whitespace on both sides, gives that string back |
| `Php.Explode` | listeo-bulk-geocode.php:77 | `explode(',', s)` yields at least one piece, no piece contains the separator, and joining the pieces with the separator gives `s` back |
| `Php.ExplodeAtSeparator` | listeo-bulk-geocode.php:77 | exploding `a . ',' . b` gives the pieces of `a` followed by the pieces of `b` |
| `Php.ExplodeOfJoin` | listeo-bulk-geocode.php:77 | exploding pieces that were joined with the separator, none containing it, gives the pieces back: `explode` and `implode` are mutual inverses |
| `Php.ExplodeWithoutSeparator` | listeo-bulk-geocode.php:77 | a string without the separator explodes into exactly itself |
| `Php.NatToString` | listeo-bulk-geocode.php:306 | the `{$listing_id}` interpolation of lines 306 and 335: at least one decimal digit, with no leading zero; `NatToStringRoundTrip` proves it reads back as the id |
| `Php.NatToStringRoundTrip` | listeo-bulk-geocode.php:306 | the decimal text interpolated into error messages reads back as the same id, so messages for different ids differ |
| `Location.ExtractLocation` | listeo-bulk-geocode.php:72-79 | a PHP-empty address (`""` or `"0"`) gives `"N/A"`; any other address gives a part that contains no comma and has no whitespace at either end |
| `Location.TrimAll` | listeo-bulk-geocode.php:77 | `array_map('trim', …)`: one part per input part, in order, each the `trim()` of the part at the same position |
| `Location.ExtractLocationOfEmpty` | listeo-bulk-geocode.php:73-75 | `""` and `"0"` both give `"N/A"` |
| `Location.ExtractLocationOfSinglePart` | listeo-bulk-geocode.php:77-78 | a non-empty address without a comma gives the whole address, trimmed |
| `Location.ExtractLocationOfSecondToLast` | listeo-bulk-geocode.php:77-78 | an address `part, last` or `head, part, last` (no comma in `part` or `last`) gives `part`, trimmed: the second-to-last part, whatever precedes it |
| `PlacesApi.ValidateResponse` | listeo-bulk-geocode.php:355-374 | a transport error, undecodable JSON, a status other than `"OK"` and an empty result each fail; a response is accepted exactly when it is the OK response for some detail, and the result is that detail (formatted address, `geometry.location.lat`/`lng`) |
| `PlacesApi.FetchPlaceDetails` | listeo-bulk-geocode.php:343-374 | an empty API key fails without consulting the service; otherwise the result is the gate applied to the service's answer for this place id and key |
| `PlacesApi.FetchSucceedsExactly` | listeo-bulk-geocode.php:343-374 | the fetch yields a detail iff a key is set and the service answers with the OK response carrying that detail |
| `Autofill.CacheKey` | listeo-bulk-geocode.php:310 | `'lbgt_place_' . md5($place_id)`; no contract of its own: `CacheKeyInjective` proves distinct place ids get distinct keys under an injective md5 |
| `Autofill.Resolve` | listeo-bulk-geocode.php:310-319 | the cache lookup and the fetch on a miss; no contract of its own: `StepOnCacheHit`, `StepOnCacheMiss` and `StepAfterExpiry` give its effect on the cache and the request log in every case |
| `Autofill.Settle` | listeo-bulk-geocode.php:321-336 | the write-back and the outcome; no contract of its own: `StepOnCacheHit` and `StepOnCacheMiss` give the listing write and the success record or the failure message in every case |
| `Autofill.Step` | listeo-bulk-geocode.php:303-337 | one pass of the `foreach`; no contract of its own: `StepWithoutPlaceId`, `StepOnCacheHit` and `StepOnCacheMiss` give its result on every input, and `StepIsTransparent` equates it with the cache-free `DirectStep` |
| `Autofill.Run` | listeo-bulk-geocode.php:300-339 | the whole loop; no contract of its own: `RunFollowsInput`, `RunCounts`, `RunWritesOnlyNamed`, `RunRequests`, `RunKeepsLiveEntries`, `NoRefetchWithinBatch` and `CachingIsTransparent` state what it guarantees |
| `Autofill.Successes` | listeo-bulk-geocode.php:301-332 | `$processed_listings['success']`: a record is in the list exactly when some outcome is a success carrying it; `OutcomesPartition` adds that the two lists together have one entry per outcome |
| `Autofill.Errors` | listeo-bulk-geocode.php:301-335 | `$processed_listings['errors']`: every failed outcome's message is in the list, and every message in it is some failed outcome's message |
| `Autofill.StepIsTransparent` | listeo-bulk-geocode.php:303-337 | one pass of the loop over a cache that holds only what the service would answer writes the same listings and reports the same outcome as fetching directly, and leaves the cache that way (the one-step case of `CachingIsTransparent`) |
| `Autofill.CacheKeyInjective` | listeo-bulk-geocode.php:310 | with an injective md5, distinct place ids get distinct `lbgt_place_` keys |
| `Autofill.CacheGet` | listeo-bulk-geocode.php:311-312 | a lookup finds a detail iff an entry exists under the key and has not expired, and then it returns that entry's detail |
| `Autofill.PlaceIdOf` | listeo-bulk-geocode.php:304 | a non-empty place id is only read from an existing listing (an unknown post reads as `""`) |
| `Autofill.StepWithoutPlaceId` | listeo-bulk-geocode.php:304-308 | a listing with an empty place id gets exactly the error `Post ID {id}: No _place_id found.`, and nothing else changes: no cache write, no request, no listing write |
| `Autofill.StepOnCacheHit` | listeo-bulk-geocode.php:310-333 | on a live cache entry no request is sent and the cache is unchanged; exactly the address, latitude and longitude of that listing are set from the cached detail, and the success record {ID, address, place_id, lat, lng, url} is produced |
| `Autofill.StepOnCacheMiss` | listeo-bulk-geocode.php:314-336 | on a miss one request is sent when a key is set; a successful fetch is cached under the place id's key for 30 days, written to the listing and reported as a success; a failed fetch leaves listings and cache unchanged and yields `Post ID {id}: Failed to fetch details for Place ID '{place_id}'.` |
| `Autofill.StepAfterExpiry` | listeo-bulk-geocode.php:311-317 | an entry written 31 days ago has expired, so the place id is requested again |
| `Autofill.RunFollowsInput` | listeo-bulk-geocode.php:301-339 | a batch yields one outcome per input id, in input order, each naming its own id; duplicate ids are each processed |
| `Autofill.OutcomesPartition` | listeo-bulk-geocode.php:306-335 | every outcome goes into exactly one of the success and error lists |
| `Autofill.RunCounts` | listeo-bulk-geocode.php:301-339 | the success list and the error list together have as many entries as there are input ids |
| `Autofill.RunWritesOnlyNamed` | listeo-bulk-geocode.php:321-324 | a batch writes only listings named in the input, never creates or removes a listing, and never changes a place id |
| `Autofill.RunRequests` | listeo-bulk-geocode.php:303-319 | a batch only appends to the request log, at most one request per id, each for the place id of an input listing, and none when the API key is empty |
| `Autofill.RunKeepsLiveEntries` | listeo-bulk-geocode.php:311-319 | a live cache entry is neither overwritten nor lost during a batch: the same entry, detail and expiry time, is still stored under its key afterwards, so lookups keep returning its detail |
| `Autofill.NoRefetchWithinBatch` | listeo-bulk-geocode.php:310-319 | once a place id has been resolved in a batch, a later listing with the same place id sends no request |
| `Autofill.CachingIsTransparent` | listeo-bulk-geocode.php:310-336 | starting from a cache that holds only what the service would answer (an empty one, say), a batch writes the same listings and reports the same outcomes as fetching every place id directly, and the cache stays that way |
| `Autofill.CorfuExample` | listeo-bulk-geocode.php:300-339 | input `[101, 102]` (101 uncached with the service answering "Corfu, Greece", 102 without a place id) yields one success for 101, the error `Post ID 102: No _place_id found.`, one request, and a cache entry for 101's place id |
| `Plugin.Site.SaveSettings` | listeo-bulk-geocode.php:41-43 | the API key is stored as submitted and the page size as `max(1, n)`, so the stored page size is never below 1 |
| `Plugin.Site.PerPage` | listeo-bulk-geocode.php:89 | the page size in use is the saved one, or 50 when none is saved, and is at least 1 |
| `Plugin.Site.FetchDetails` | listeo-bulk-geocode.php:343-374 | returns the gated fetch result and logs one request exactly when the API key is non-empty |
| `Plugin.Site.AutofillOne` | listeo-bulk-geocode.php:304-336 | one pass of the loop changes the listings, cache and request log exactly as `Step` says and returns its outcome |
| `Plugin.Site.AutofillAddresses` | listeo-bulk-geocode.php:300-340 | the loop leaves listings, cache and request log as `Run` specifies, and returns its success and error lists, which together hold one entry per input id |
| `Plugin.Site.AdminPage` | listeo-bulk-geocode.php:87-147 | the batch runs only for a posted `autofill_addresses` action with a non-empty selection; the query arguments are those `BuildQueryArgs` promises for the filters and page given, with the saved page size (at least 1) |
| `Admin.AtLeastOne` | listeo-bulk-geocode.php:43 | `max(1, n)`: at least 1, and `n` itself when `n` is positive |
| `Admin.ListingsPerPage` | listeo-bulk-geocode.php:48 | the saved page size, or 50 when none is saved |
| `Admin.CurrentPage` | listeo-bulk-geocode.php:90 | the page number is at least 1: the requested page when it is positive, 1 when it is missing or not positive |
| `Admin.BuildQueryArgs` | listeo-bulk-geocode.php:103-142 | `with` gives one `_place_id EXISTS` clause, `without` one `NOT EXISTS` clause, any other value none; a non-empty location filter appends one `_address LIKE` clause after it; the page is at least 1 |
| `Admin.TotalPages` | listeo-bulk-geocode.php:147 | `ceil(total / per_page)`: the fewest pages of `per_page` listings that hold all `total` listings |

## Left out

- HTML and JavaScript rendering, the settings form markup, the
  `paginate_links` widget and the select-all script (lines 49-68, 149-296):
  presentation only.
- `current_user_can` and `check_admin_referer` (lines 36, 41, 83, 95):
  WordPress access control. The model assumes the request is authorised.
- Building the request URL with `urlencode`, `wp_remote_get`, the body's
  JSON decoding and `error_log` (lines 350-362): network, parsing and
  logging. The service is an oracle from (place id, API key) to the decoded
  response, and logging has no effect on the outcome.
- PlacesApi.ValidateResponse: a `result` object that lacks
  `formatted_address` or `geometry.location` (PHP would then copy `null`),
  and a `result` that is a non-array value, are not modelled. The result is
  either absent or PHP-empty, or it carries all three fields.
- md5 itself: the hash is an arbitrary function. Only `CacheKeyInjective`,
  `CachingIsTransparent` and its one-step case `StepIsTransparent` assume it
  is injective.
- Autofill.CacheGet: transient storage is reduced to a map with expiry
  times. Deleting an expired entry when it is read, and a value under the
  key written by other code, are not modelled. The clock does not advance
  during a batch: one `now` is used for every step.
- `WP_Query` execution and `get_permalink` (lines 144-146, 332): the query
  is modelled up to its arguments. The permalink is an opaque function of
  the post id.
- Latitude and longitude are `real` values that are copied verbatim. No
  arithmetic is done on them, and floating point is not modelled.
- `intval` and `sanitize_text_field` (lines 42-43, 90-92): submitted values
  arrive already converted, as an `int` or a sanitised string. PHP integer
  overflow (of `intval` or of the expiry time) is not modelled.
- Listing ids are natural numbers, and the error messages print them in
  canonical decimal. A posted id spelled differently (such as `007`) would
  be echoed as posted by the source. That is not modelled.
- Admin.TotalPages requires a page size of at least 1. The settings page
  guarantees this (`Site.Valid`), and so does the default of 50. A page-size
  option written by other code is not modelled.
