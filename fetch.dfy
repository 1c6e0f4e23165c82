/**
 * The data-fetch hooks `useFetch` and `usePaginatedFetch`: a record of
 * data/loading/error, and for the paginated hook a pagination record that the
 * view moves through with goToPage, nextPage, prevPage and changeLimit.
 *
 * Each request is two explicit steps: `Begin` (the synchronous part of
 * `fetchData` before the `await`) and `ResolveSuccess`/`ResolveFailure` (what
 * runs when the API client settles). The hooks keep no request token, so a
 * resolution is applied whatever was started after it.
 */
module Fetch {
  import opened Common

  const DefaultErrorMessage := "An error occurred"
  const DefaultPage := 1
  const DefaultLimit := 10

  /** A rejected request: the server payload's `message` and the exception's own `message`. */
  datatype Failure = Failure(payloadMessage: Option<string>, exceptionMessage: Option<string>)

  /** The `error` a failed request leaves behind. */
  function ErrorMessage(f: Failure): (r: string)
    ensures r != ""
    ensures r == DefaultErrorMessage || (Present(f.payloadMessage) && r == f.payloadMessage.value)
            || (Present(f.exceptionMessage) && r == f.exceptionMessage.value)
    ensures Present(f.payloadMessage) ==> r == f.payloadMessage.value
    ensures !Present(f.payloadMessage) && Present(f.exceptionMessage) ==> r == f.exceptionMessage.value
    ensures !Present(f.payloadMessage) && !Present(f.exceptionMessage) ==> r == DefaultErrorMessage
  {
    StringOr(f.payloadMessage, StringOr(f.exceptionMessage, DefaultErrorMessage))
  }

  // ===================== single-resource fetch =====================

  class Single<T> {
    var data: Option<T>
    var loading: bool
    var error: Option<string>

    /** The first render: nothing fetched yet, a request about to start. */
    constructor ()
      ensures data == None && loading && error == None
    {
      data := None;
      loading := true;
      error := None;
    }

    /** `fetchData` up to its `await` (run on mount and by `refetch`). */
    method Begin()
      modifies this
      ensures loading && error == None && data == old(data)
    {
      loading := true;
      error := None;
    }

    /** The request resolved with `response.data == d`; `fetchData` returns `d`. */
    method ResolveSuccess(d: T) returns (r: Option<T>)
      modifies this
      ensures data == Some(d) && r == Some(d)
      ensures !loading && error == old(error)
    {
      data := Some(d);
      r := Some(d);
      loading := false;
    }

    /** The request rejected; `fetchData` returns `null` and keeps the old data. */
    method ResolveFailure(f: Failure) returns (r: Option<T>)
      modifies this
      ensures r == None && data == old(data)
      ensures error == Some(ErrorMessage(f)) && !loading
    {
      error := Some(ErrorMessage(f));
      r := None;
      loading := false;
    }
  }

  // ===================== paginated fetch =====================

  datatype Pagination = Pagination(page: int, limit: int, total: int, totalPages: int)

  const InitialPagination := Pagination(DefaultPage, DefaultLimit, 0, 0)

  /** The `params` of one call of `fetchData`. */
  datatype Query = Query(page: int, limit: int)

  /** `fetchData()` with its default arguments, i.e. `refetch()`. */
  const DefaultQuery := Query(DefaultPage, DefaultLimit)

  /** The body of a paginated response; a missing or 0 number is `None`/0 (falsy). */
  datatype PageBody<T> = PageBody(data: Option<seq<T>>, page: Option<int>, limit: Option<int>,
                                  total: Option<int>, totalPages: Option<int>)

  /** The rows a successful response installs: `response.data.data || []`. */
  function RowsOf<T>(body: PageBody<T>): (r: seq<T>)
    ensures body.data.Some? ==> r == body.data.value
    ensures body.data.None? ==> r == []
  {
    if body.data.Some? then body.data.value else []
  }

  /** The pagination a successful response installs, replacing the old one wholesale. */
  function PaginationOf<T>(body: PageBody<T>): (r: Pagination)
    ensures r.page == (if PresentNumber(body.page) then body.page.value else DefaultPage)
    ensures r.limit == (if PresentNumber(body.limit) then body.limit.value else DefaultLimit)
    ensures r.total == (if PresentNumber(body.total) then body.total.value else 0)
    ensures r.totalPages == (if PresentNumber(body.totalPages) then body.totalPages.value else 0)
  {
    Pagination(NumberOr(body.page, DefaultPage), NumberOr(body.limit, DefaultLimit),
               NumberOr(body.total, 0), NumberOr(body.totalPages, 0))
  }

  /** `goToPage(n)`: moves only to a page between 1 and `totalPages`. */
  function GoToPage(p: Pagination, n: int): (r: Pagination)
    ensures r.limit == p.limit && r.total == p.total && r.totalPages == p.totalPages
    ensures 1 <= n <= p.totalPages ==> r.page == n
    ensures !(1 <= n <= p.totalPages) ==> r == p
  {
    if 1 <= n <= p.totalPages then p.(page := n) else p
  }

  /** `nextPage()` */
  function NextPage(p: Pagination): (r: Pagination)
    ensures r.limit == p.limit && r.total == p.total && r.totalPages == p.totalPages
    ensures p.page >= p.totalPages || p.page < 0 ==> r == p
    ensures 0 <= p.page < p.totalPages ==> r.page == p.page + 1
  {
    GoToPage(p, p.page + 1)
  }

  /** `prevPage()` */
  function PrevPage(p: Pagination): (r: Pagination)
    ensures r.limit == p.limit && r.total == p.total && r.totalPages == p.totalPages
    ensures p.page <= 1 || p.page > p.totalPages + 1 ==> r == p
    ensures 2 <= p.page <= p.totalPages + 1 ==> r.page == p.page - 1
  {
    GoToPage(p, p.page - 1)
  }

  /** `changeLimit(n)`: takes any `n`, and goes back to page 1. */
  function ChangeLimit(p: Pagination, n: int): (r: Pagination)
    ensures r.limit == n && r.page == 1
    ensures r.total == p.total && r.totalPages == p.totalPages
  {
    p.(limit := n, page := 1)
  }

  /**
   * The page-change effect: the hook re-runs `fetchData(page, limit)` when,
   * and only when, `page` or `limit` differs from the previous render.
   */
  function EffectRequests(before: Pagination, after: Pagination): (r: seq<Query>)
    ensures r == [] <==> before.page == after.page && before.limit == after.limit
    ensures r != [] ==> r == [Query(after.page, after.limit)]
  {
    if before.page == after.page && before.limit == after.limit then []
    else [Query(after.page, after.limit)]
  }

  class Paginated<T> {
    var data: seq<T>
    var loading: bool
    var error: Option<string>
    var pagination: Pagination
    /** Every call of `fetchData`, in the order the calls started. */
    var requests: seq<Query>

    /** The first render, before the mount effect has run. */
    constructor ()
      ensures data == [] && loading && error == None
      ensures pagination == InitialPagination && requests == []
    {
      data := [];
      loading := true;
      error := None;
      pagination := InitialPagination;
      requests := [];
    }

    /** `fetchData(q.page, q.limit)` up to its `await`. */
    method Begin(q: Query)
      modifies this
      ensures loading && error == None
      ensures requests == old(requests) + [q]
      ensures data == old(data) && pagination == old(pagination)
    {
      loading := true;
      error := None;
      requests := requests + [q];
    }

    /** The mount effect: `fetchData(pagination.page, pagination.limit)`. */
    method Mount()
      modifies this
      ensures loading && error == None
      ensures requests == old(requests) + [Query(old(pagination).page, old(pagination).limit)]
      ensures data == old(data) && pagination == old(pagination)
    {
      Begin(Query(pagination.page, pagination.limit));
    }

    /** `refetch()` with no arguments: always page 1, limit 10. */
    method Refetch()
      modifies this
      ensures loading && error == None
      ensures requests == old(requests) + [DefaultQuery]
      ensures data == old(data) && pagination == old(pagination)
    {
      Begin(DefaultQuery);
    }

    /** Installs a new pagination and runs the page-change effect. */
    method Commit(next: Pagination)
      modifies this
      ensures pagination == next
      ensures requests == old(requests) + EffectRequests(old(pagination), next)
      ensures data == old(data)
      ensures EffectRequests(old(pagination), next) != [] ==> loading && error == None
      ensures EffectRequests(old(pagination), next) == [] ==> loading == old(loading) && error == old(error)
    {
      var before := pagination;
      pagination := next;
      if EffectRequests(before, next) != [] {
        Begin(Query(next.page, next.limit));
      }
    }

    /**
     * The request resolved with `body`: rows and pagination are replaced,
     * loading ends, and a changed page or limit re-triggers the effect.
     */
    method ResolveSuccess(body: PageBody<T>) returns (r: Option<PageBody<T>>)
      modifies this
      ensures r == Some(body)
      ensures data == RowsOf(body) && pagination == PaginationOf(body)
      ensures requests == old(requests) + EffectRequests(old(pagination), PaginationOf(body))
      ensures EffectRequests(old(pagination), PaginationOf(body)) == [] ==> !loading && error == old(error)
      ensures EffectRequests(old(pagination), PaginationOf(body)) != [] ==> loading && error == None
    {
      data := RowsOf(body);
      loading := false;
      Commit(PaginationOf(body));
      r := Some(body);
    }

    /** The request rejected: only `error` and `loading` change; the call returns `null`. */
    method ResolveFailure(f: Failure) returns (r: Option<PageBody<T>>)
      modifies this
      ensures r == None && !loading && error == Some(ErrorMessage(f))
      ensures data == old(data) && pagination == old(pagination) && requests == old(requests)
    {
      error := Some(ErrorMessage(f));
      r := None;
      loading := false;
    }

    method GoTo(n: int)
      modifies this
      ensures pagination == GoToPage(old(pagination), n)
      ensures requests == old(requests) + EffectRequests(old(pagination), pagination)
      ensures data == old(data)
      ensures EffectRequests(old(pagination), pagination) != [] ==> loading && error == None
      ensures EffectRequests(old(pagination), pagination) == [] ==> loading == old(loading) && error == old(error)
    {
      Commit(GoToPage(pagination, n));
    }

    method Next()
      modifies this
      ensures pagination == NextPage(old(pagination))
      ensures requests == old(requests) + EffectRequests(old(pagination), pagination)
      ensures data == old(data)
      ensures EffectRequests(old(pagination), pagination) != [] ==> loading && error == None
      ensures EffectRequests(old(pagination), pagination) == [] ==> loading == old(loading) && error == old(error)
    {
      Commit(NextPage(pagination));
    }

    method Prev()
      modifies this
      ensures pagination == PrevPage(old(pagination))
      ensures requests == old(requests) + EffectRequests(old(pagination), pagination)
      ensures data == old(data)
      ensures EffectRequests(old(pagination), pagination) != [] ==> loading && error == None
      ensures EffectRequests(old(pagination), pagination) == [] ==> loading == old(loading) && error == old(error)
    {
      Commit(PrevPage(pagination));
    }

    method SetLimit(n: int)
      modifies this
      ensures pagination == ChangeLimit(old(pagination), n)
      ensures requests == old(requests) + EffectRequests(old(pagination), pagination)
      ensures data == old(data)
      ensures EffectRequests(old(pagination), pagination) != [] ==> loading && error == None
      ensures EffectRequests(old(pagination), pagination) == [] ==> loading == old(loading) && error == old(error)
    {
      Commit(ChangeLimit(pagination, n));
    }
  }

  // ===================== properties of navigation =====================

  /** One navigation call made by the view. */
  datatype Nav = GoToNav(n: int) | NextNav | PrevNav | LimitNav(n: int)

  function Step(p: Pagination, op: Nav): Pagination
  {
    match op
    case GoToNav(n) => GoToPage(p, n)
    case NextNav => NextPage(p)
    case PrevNav => PrevPage(p)
    case LimitNav(n) => ChangeLimit(p, n)
  }

  function Run(p: Pagination, ops: seq<Nav>): Pagination
    decreases |ops|
  {
    if ops == [] then p else Run(Step(p, ops[0]), ops[1..])
  }

  /** `1 <= page <= max(1, totalPages)` */
  predicate PageInRange(p: Pagination)
  {
    1 <= p.page <= Max(1, p.totalPages)
  }

  /** No navigation call ever moves the page out of range. */
  lemma {:induction false} NavigationKeepsPageInRange(p: Pagination, ops: seq<Nav>)
    requires PageInRange(p)
    ensures PageInRange(Run(p, ops))
    decreases |ops|
  {
    if ops != [] {
      NavigationKeepsPageInRange(Step(p, ops[0]), ops[1..]);
    }
  }

  /** Navigation never touches `total` or `totalPages`: only a response does. */
  lemma {:induction false} NavigationKeepsTotals(p: Pagination, ops: seq<Nav>)
    ensures Run(p, ops).total == p.total && Run(p, ops).totalPages == p.totalPages
    decreases |ops|
  {
    if ops != [] {
      NavigationKeepsTotals(Step(p, ops[0]), ops[1..]);
    }
  }

  /** With no pages at all, page moves are all no-ops. */
  lemma {:induction false} EmptyResultPinsPage(p: Pagination, ops: seq<Nav>)
    requires p.totalPages == 0
    requires forall i :: 0 <= i < |ops| ==> !ops[i].LimitNav?
    ensures Run(p, ops) == p
    decreases |ops|
  {
    if ops != [] {
      assert Step(p, ops[0]) == p;
      EmptyResultPinsPage(p, ops[1..]);
    }
  }

  function CeilDiv(a: int, b: int): int
    requires b > 0
  {
    (a + b - 1) / b
  }

  /**
   * `changeLimit` replaces the limit without recomputing `totalPages`, so until
   * the next response arrives `totalPages` need not be `ceil(total / limit)`.
   */
  lemma ChangeLimitLeavesTotalPagesStale()
    ensures var p := Pagination(1, 10, 25, 3);
            CeilDiv(p.total, p.limit) == p.totalPages
            && ChangeLimit(p, 5).totalPages != CeilDiv(25, 5)
  {
  }

  /** `changeLimit` accepts a limit below 1. */
  lemma ChangeLimitAcceptsZero(p: Pagination)
    ensures ChangeLimit(p, 0).limit == 0
  {
  }

  /** A server response can install a page outside `[1, totalPages]`. */
  lemma ResponseMayLeaveRange()
    ensures var body: PageBody<int> := PageBody(None, Some(5), None, Some(12), Some(2));
            !PageInRange(PaginationOf(body))
  {
  }
}
