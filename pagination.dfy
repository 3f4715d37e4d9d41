/**
 * The generic paginated query of the database service: optional filters,
 * a count of every matching row, an ordering, and one page of the ordered
 * rows with the page arithmetic.
 */
module Pagination {
  import opened Common
  import opened Rows

  /** The query parameters; a number of 0 counts as absent, as in `params.page || 1`. */
  datatype QueryParams = QueryParams(
    page: Option<nat>,
    limit: Option<nat>,
    sortBy: Option<string>,
    sortOrder: Option<Direction>,
    vault_id: Option<string>,
    user_id: Option<string>,
    status: Option<string>,
    date_from: Option<int>,
    date_to: Option<int>)

  datatype PageInfo = PageInfo(page: nat, limit: nat, total: nat, totalPages: nat)

  datatype PageResult = PageResult(data: seq<Row>, total: nat, pagination: PageInfo)

  /** The page in use: 1 when absent or 0. */
  function EffectivePage(page: Option<nat>): (p: nat)
    ensures p >= 1
    ensures page.None? || page.value == 0 ==> p == 1
    ensures page.Some? && page.value != 0 ==> p == page.value
  {
    if page.None? || page.value == 0 then 1 else page.value
  }

  /** The page size in use: 10 when absent or 0. */
  function EffectiveLimit(limit: Option<nat>): (l: nat)
    ensures l >= 1
    ensures limit.None? || limit.value == 0 ==> l == 10
    ensures limit.Some? && limit.value != 0 ==> l == limit.value
  {
    if limit.None? || limit.value == 0 then 10 else limit.value
  }

  /** The number of rows the pages before `page` cover. */
  function Offset(page: nat, limit: nat): (o: nat)
    requires page >= 1
    ensures page == 1 ==> o == 0
  {
    (page - 1) * limit
  }

  /** Consecutive pages adjoin: each page starts where the one before it ends. */
  lemma PagesAdjoin(page: nat, limit: nat)
    requires page >= 1
    ensures Offset(page + 1, limit) == Offset(page, limit) + limit
  {
  }

  /** `Math.ceil(total / limit)`. */
  function PageCount(total: nat, limit: nat): (n: nat)
    requires limit >= 1
    ensures total == 0 <==> n == 0
    ensures n > 0 ==> (n - 1) * limit < total <= n * limit
  {
    (total + limit - 1) / limit
  }

  /** A time column at or after `bound`; NULL never compares. */
  predicate NotBefore(row: Row, bound: int)
  {
    Get(row, "created_at").Time? && Get(row, "created_at").t >= bound
  }

  predicate NotAfter(row: Row, bound: int)
  {
    Get(row, "created_at").Time? && Get(row, "created_at").t <= bound
  }

  /** The date conditions as row predicates, one per bound. */
  function Since(bound: int): Row -> bool
  {
    row => NotBefore(row, bound)
  }

  function Until(bound: int): Row -> bool
  {
    row => NotAfter(row, bound)
  }

  /** Every filter that was given holds of the row. */
  predicate MatchesFilters(params: QueryParams, row: Row)
  {
    && (Given(params.vault_id) ==> Get(row, "vault_id") == Str(params.vault_id.value))
    && (Given(params.user_id) ==> Get(row, "user_id") == Str(params.user_id.value))
    && (Given(params.status) ==> Get(row, "status") == Str(params.status.value))
    && (params.date_from.Some? ==> NotBefore(row, params.date_from.value))
    && (params.date_to.Some? ==> NotAfter(row, params.date_to.value))
  }

  /** The column and direction of the ordering: `sortBy` (default direction desc), else newest first. */
  function SortColumn(params: QueryParams): string
  {
    if Given(params.sortBy) then params.sortBy.value else "created_at"
  }

  function SortDirection(params: QueryParams): Direction
  {
    if Given(params.sortBy) && params.sortOrder.Some? then params.sortOrder.value else Desc
  }

  /** Each filter stage applies its condition only when its parameter is given. */
  function ByVault(rows: seq<Row>, params: QueryParams): seq<Row>
  {
    if Given(params.vault_id) then Filter(rows, Eq("vault_id", Str(params.vault_id.value))) else rows
  }

  function ByUser(rows: seq<Row>, params: QueryParams): seq<Row>
  {
    if Given(params.user_id) then Filter(rows, Eq("user_id", Str(params.user_id.value))) else rows
  }

  function ByStatus(rows: seq<Row>, params: QueryParams): seq<Row>
  {
    if Given(params.status) then Filter(rows, Eq("status", Str(params.status.value))) else rows
  }

  function ByDateFrom(rows: seq<Row>, params: QueryParams): seq<Row>
  {
    if params.date_from.Some? then Filter(rows, Since(params.date_from.value)) else rows
  }

  function ByDateTo(rows: seq<Row>, params: QueryParams): seq<Row>
  {
    if params.date_to.Some? then Filter(rows, Until(params.date_to.value)) else rows
  }

  /** The filters applied one after another, in the order the query builds them. */
  function Filtered(rows: seq<Row>, params: QueryParams): (r: seq<Row>)
  {
    ByDateTo(ByDateFrom(ByStatus(ByUser(ByVault(rows, params), params), params), params), params)
  }

  /** The chain of filters keeps exactly the rows that match every given filter, with their multiplicity. */
  lemma FilteredMatches(rows: seq<Row>, params: QueryParams)
    ensures forall row :: multiset(Filtered(rows, params))[row] ==
              if MatchesFilters(params, row) then multiset(rows)[row] else 0
  {
    var q1 := ByVault(rows, params);
    var q2 := ByUser(q1, params);
    var q3 := ByStatus(q2, params);
    var q4 := ByDateFrom(q3, params);
    var q5 := ByDateTo(q4, params);
    forall row ensures multiset(q5)[row] == if MatchesFilters(params, row) then multiset(rows)[row] else 0 {
      assert multiset(q1)[row] == if !Given(params.vault_id) || Get(row, "vault_id") == Str(params.vault_id.value) then multiset(rows)[row] else 0;
      assert multiset(q2)[row] == if !Given(params.user_id) || Get(row, "user_id") == Str(params.user_id.value) then multiset(q1)[row] else 0;
      assert multiset(q3)[row] == if !Given(params.status) || Get(row, "status") == Str(params.status.value) then multiset(q2)[row] else 0;
      assert multiset(q4)[row] == if params.date_from.None? || NotBefore(row, params.date_from.value) then multiset(q3)[row] else 0;
    }
  }

  /** The rows of the requested page: the filtered rows, ordered, then windowed. */
  function Page(source: seq<Row>, params: QueryParams): seq<Row>
  {
    Window(SortBy(Filtered(source, params), SortColumn(params), SortDirection(params)),
           Offset(EffectivePage(params.page), EffectiveLimit(params.limit)),
           EffectiveLimit(params.limit))
  }

  /** A page holds at most `limit` rows, all matching source rows, still in the requested order. */
  lemma PageOfFiltered(source: seq<Row>, params: QueryParams)
    ensures |Page(source, params)| <= EffectiveLimit(params.limit)
    ensures Sorted(Page(source, params), SortColumn(params), SortDirection(params))
    ensures forall k :: 0 <= k < |Page(source, params)| ==>
              Page(source, params)[k] in source && MatchesFilters(params, Page(source, params)[k])
  {
    var filtered := Filtered(source, params);
    var ordered := SortBy(filtered, SortColumn(params), SortDirection(params));
    var data := Page(source, params);
    var offset := Offset(EffectivePage(params.page), EffectiveLimit(params.limit));
    FilteredMatches(source, params);
    WindowOfSorted(ordered, offset, EffectiveLimit(params.limit), SortColumn(params), SortDirection(params));
    forall k | 0 <= k < |data| ensures data[k] in source && MatchesFilters(params, data[k]) {
      assert data[k] in ordered;
      assert multiset(filtered)[data[k]] > 0;
    }
  }

  /** Page `p` starts right after the rows of the pages before it. */
  lemma PageAt(source: seq<Row>, params: QueryParams)
    ensures var ordered := SortBy(Filtered(source, params), SortColumn(params), SortDirection(params));
            var offset := Offset(EffectivePage(params.page), EffectiveLimit(params.limit));
            forall k :: 0 <= k < |Page(source, params)| ==>
              offset + k < |ordered| && Page(source, params)[k] == ordered[offset + k]
  {
    var ordered := SortBy(Filtered(source, params), SortColumn(params), SortDirection(params));
    var offset := Offset(EffectivePage(params.page), EffectiveLimit(params.limit));
    assert Page(source, params) == Window(ordered, offset, EffectiveLimit(params.limit));
  }

  /**
   * The paginated query over the rows of `source` (the given base query, or
   * the whole table).
   */
  method GetPaginatedResults(source: seq<Row>, params: QueryParams) returns (result: PageResult)
    ensures result.data == Page(source, params)
    ensures result.total == |Filtered(source, params)|
    ensures result.pagination == PageInfo(EffectivePage(params.page), EffectiveLimit(params.limit),
                                          result.total, PageCount(result.total, EffectiveLimit(params.limit)))
  {
    var page := EffectivePage(params.page);
    var limit := EffectiveLimit(params.limit);
    var offset := Offset(page, limit);

    var query := source;
    if Given(params.vault_id) {
      query := Filter(query, Eq("vault_id", Str(params.vault_id.value)));
    }
    assert query == ByVault(source, params);
    ghost var q1 := query;
    if Given(params.user_id) {
      query := Filter(query, Eq("user_id", Str(params.user_id.value)));
    }
    assert query == ByUser(q1, params);
    ghost var q2 := query;
    if Given(params.status) {
      query := Filter(query, Eq("status", Str(params.status.value)));
    }
    assert query == ByStatus(q2, params);
    ghost var q3 := query;
    if params.date_from.Some? {
      query := Filter(query, Since(params.date_from.value));
    }
    assert query == ByDateFrom(q3, params);
    ghost var q4 := query;
    if params.date_to.Some? {
      query := Filter(query, Until(params.date_to.value));
    }
    assert query == ByDateTo(q4, params);

    var total := |query|;

    var column, direction;
    if Given(params.sortBy) {
      column := params.sortBy.value;
      direction := if params.sortOrder.Some? then params.sortOrder.value else Desc;
    } else {
      column, direction := "created_at", Desc;
    }
    assert column == SortColumn(params) && direction == SortDirection(params);
    query := SortBy(query, column, direction);

    var data := Window(query, offset, limit);
    result := PageResult(data, total, PageInfo(page, limit, total, PageCount(total, limit)));
  }

}
