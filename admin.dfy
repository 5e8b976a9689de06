/**
 * The arithmetic and list logic of the two admin pages: the saved page
 * size, the current page, the `WP_Query` arguments built from the filters,
 * and the number of pages.
 */
module Admin {
  import opened Wrappers
  import opened Php

  /** The page size used until one is saved. */
  const DefaultPerPage := 50

  /**
   * `max(1, $n)`: how both pages clamp a submitted number (the saved page
   * size and the requested page) to a positive one.
   */
  function AtLeastOne(n: int): (r: int)
    ensures r >= 1
    ensures n >= 1 ==> r == n
    ensures n < 1 ==> r == 1
  {
    if n >= 1 then n else 1
  }

  /** `get_option('lbgt_listings_per_page', 50)`. */
  function ListingsPerPage(saved: Option<int>): (r: int)
    ensures saved.None? ==> r == DefaultPerPage
    ensures saved.Some? ==> r == saved.value
  {
    saved.GetOr(DefaultPerPage)
  }

  /** The current page: `max(1, intval($_GET['paged']))` when given, 1 otherwise. */
  function CurrentPage(paged: Option<int>): (r: int)
    ensures r >= 1
    ensures paged.Some? && paged.value >= 1 ==> r == paged.value
    ensures paged.None? || paged.value < 1 ==> r == 1
  {
    if paged.Some? then AtLeastOne(paged.value) else 1
  }

  datatype Compare = Exists | NotExists | Like

  /** One entry of `meta_query`; `value` is only given for LIKE. */
  datatype MetaClause = MetaClause(key: string, value: Option<string>, compare: Compare)

  /**
   * The `WP_Query` arguments. `metaQuery` is empty when the source leaves
   * `meta_query` unset (it never sets it to an empty list).
   */
  datatype QueryArgs = QueryArgs(postType: string, postsPerPage: int, paged: int, postStatus: string,
                                 metaQuery: seq<MetaClause>)

  /**
   * The query arguments the admin page builds: a missing place-id filter
   * reads as "all" and a missing location filter as "". The filter "with"
   * gives one `_place_id EXISTS` clause, "without" one `_place_id NOT
   * EXISTS` clause, anything else none; a location filter that is not
   * PHP-empty then appends one `_address LIKE` clause.
   */
  ghost predicate QueryArgsFor(perPage: int, paged: Option<int>, placeIdFilter: Option<string>,
                               locationFilter: Option<string>, args: QueryArgs)
  {
    var byPlaceId := placeIdFilter == Some("with") || placeIdFilter == Some("without");
    var byLocation := locationFilter.Some? && !IsEmpty(locationFilter.value);
    && args.postType == "listing" && args.postStatus == "any"
    && args.postsPerPage == perPage
    && args.paged >= 1 && args.paged == CurrentPage(paged)
    && |args.metaQuery| == (if byPlaceId then 1 else 0) + (if byLocation then 1 else 0)
    && (byPlaceId ==> args.metaQuery[0].key == "_place_id" && args.metaQuery[0].value == None)
    && (placeIdFilter == Some("with") ==> args.metaQuery[0].compare == Exists)
    && (placeIdFilter == Some("without") ==> args.metaQuery[0].compare == NotExists)
    && (byLocation ==> args.metaQuery[|args.metaQuery| - 1] == MetaClause("_address", locationFilter, Like))
  }

  /** Builds the query arguments step by step, as lines 103-142 of the source do. */
  method BuildQueryArgs(perPage: int, paged: Option<int>, placeIdFilter: Option<string>, locationFilter: Option<string>)
    returns (args: QueryArgs)
    ensures QueryArgsFor(perPage, paged, placeIdFilter, locationFilter, args)
  {
    var filter := placeIdFilter.GetOr("all");
    var location := locationFilter.GetOr("");
    args := QueryArgs("listing", perPage, CurrentPage(paged), "any", []);
    if filter == "with" {
      args := args.(metaQuery := [MetaClause("_place_id", None, Exists)]);
    } else if filter == "without" {
      args := args.(metaQuery := [MetaClause("_place_id", None, NotExists)]);
    }
    if !IsEmpty(location) {
      args := args.(metaQuery := args.metaQuery + [MetaClause("_address", Some(location), Like)]);
    }
  }

  /** `ceil($total / $per_page)`: the fewest pages of `perPage` listings that hold `total` listings. */
  function TotalPages(total: nat, perPage: int): (pages: nat)
    requires perPage >= 1
    ensures pages * perPage >= total
    ensures pages == 0 || (pages - 1) * perPage < total
  {
    (total + perPage - 1) / perPage
  }
}
