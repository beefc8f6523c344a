/**
 * The issue list page (frontend/src/pages/Issues.tsx): pages of ten issues, the page
 * count and the "Showing a to b of n" range, the Previous/Next controls and the badge
 * colours of status and priority.
 */
module IssuesPage {
  import opened Common
  import opened Client
  import opened Views

  /** Issues per page. */
  const Limit: nat := 10

  /** The `skip` requested for a page (pages count from 1). */
  function SkipFor(page: int): (skip: int)
    ensures page >= 1 ==> skip >= 0 && skip == (page - 1) * Limit
  {
    (page - 1) * Limit
  }

  /** `Math.ceil(total / limit)`: the fewest pages of `Limit` that hold `total` issues. */
  function TotalPages(total: nat): (n: nat)
    ensures n * Limit >= total
    ensures n == 0 || (n - 1) * Limit < total
  {
    (total + Limit - 1) / Limit
  }

  /** The controls are shown only when there is more than one page. */
  predicate PaginationVisible(total: nat) {
    TotalPages(total) > 1
  }

  function RangeFirst(page: int): int {
    (page - 1) * Limit + 1
  }

  function RangeLast(page: int, total: nat): int {
    Min(page * Limit, total)
  }

  /** On an existing page the shown range is non-empty and within the total. */
  lemma RangeWithinTotal(page: int, total: nat)
    requires 1 <= page <= TotalPages(total)
    ensures 1 <= RangeFirst(page) <= RangeLast(page, total) <= total
  {
  }

  /** The Previous click: one page back, never below the first. */
  function PreviousPage(page: int): (p: int)
    ensures p >= 1
    ensures page > 1 ==> p == page - 1
    ensures page <= 1 ==> p == 1
  {
    Max(1, page - 1)
  }

  /** The Next click: one page on, never past the last. */
  function NextPage(page: int, totalPages: int): (p: int)
    ensures p <= totalPages
    ensures page < totalPages ==> p == page + 1
    ensures page >= totalPages ==> p == totalPages
  {
    Min(totalPages, page + 1)
  }

  predicate PreviousDisabled(page: int, loading: bool) {
    page == 1 || loading
  }

  predicate NextDisabled(page: int, totalPages: int, loading: bool) {
    page == totalPages || loading
  }

  /** From any existing page both controls lead to an existing page. */
  lemma ControlsStayInRange(page: int, totalPages: int)
    requires 1 <= page <= totalPages
    ensures 1 <= PreviousPage(page) <= totalPages
    ensures 1 <= NextPage(page, totalPages) <= totalPages
  {
  }

  /** `getStatusBadgeVariant`. */
  function StatusBadgeVariant(status: string): (v: Variant)
    ensures status == "open" ==> v == Default
    ensures status == "in_progress" ==> v == Secondary
    ensures status == "resolved" || status == "closed" ==> v == Outline
    ensures status !in ["open", "in_progress", "resolved", "closed"] ==> v == Default
  {
    match status
    case "open" => Default
    case "in_progress" => Secondary
    case "resolved" => Outline
    case "closed" => Outline
    case _ => Default
  }

  /** `getPriorityBadgeVariant`: there is no case for `critical`, which gets the fallback. */
  function PriorityBadgeVariant(priority: string): (v: Variant)
    ensures priority == "low" ==> v == Outline
    ensures priority == "medium" ==> v == Secondary
    ensures priority == "high" ==> v == Destructive
    ensures priority !in ["low", "medium", "high"] ==> v == Default
  {
    match priority
    case "low" => Outline
    case "medium" => Secondary
    case "high" => Destructive
    case _ => Default
  }

  /** The page's state: the issues shown, the server's total, the current page and the loading flag. */
  class IssuesView {
    var issues: seq<IssueData>
    var total: nat
    var page: int
    var loading: bool
    const api: Api

    constructor (api: Api)
      ensures this.api == api
      ensures issues == [] && total == 0 && page == 1 && loading
    {
      this.api := api;
      issues := [];
      total := 0;
      page := 1;
      loading := true;
    }

    /**
     * `fetchIssues`: one request for the page's slice. Success shows the returned items and
     * total; a failure keeps what was shown. Loading ends either way.
     */
    method FetchIssues(currentPage: int, reply: Reply<IssueListData>)
      modifies this, api, api.browser
      ensures api.sent == old(api.sent) + [Request("GET", "/issues/",
        [("skip", JNumber(SkipFor(currentPage))), ("limit", JNumber(Limit))],
        WithBearer(DefaultHeaders, old(api.browser.token)), NoBody)]
      ensures reply.Success? ==> issues == reply.data.items && total == reply.data.total
      ensures reply.Failure? ==> issues == old(issues) && total == old(total)
      ensures page == old(page) && !loading
      ensures api.browser.token == TokenAfter(old(api.browser.token), reply)
      ensures api.browser.path == PathAfter(old(api.browser.path), reply)
    {
      loading := true;
      var skip := (currentPage - 1) * Limit;
      var result := api.Send("GET", "/issues/", [("skip", JNumber(skip)), ("limit", JNumber(Limit))], NoBody, reply);
      if result.Success? {
        issues := result.data.items;
        total := result.data.total;
      }
      loading := false;
    }

    /**
     * A click on Previous, which is only on screen while there is more than one page; a
     * disabled button does nothing, and a page within range stays within range.
     */
    method ClickPrevious()
      modifies this
      requires PaginationVisible(total)
      ensures 1 <= old(page) <= TotalPages(total) ==> 1 <= page <= TotalPages(total)
      ensures PreviousDisabled(old(page), loading) ==> page == old(page)
      ensures !PreviousDisabled(old(page), loading) ==> page == PreviousPage(old(page))
      ensures issues == old(issues) && total == old(total) && loading == old(loading)
    {
      if !(page == 1 || loading) {
        if 1 <= page <= TotalPages(total) {
          ControlsStayInRange(page, TotalPages(total));
        }
        page := Max(1, page - 1);
      }
    }

    /**
     * A click on Next, which is only on screen while there is more than one page; a
     * disabled button does nothing, and a page within range stays within range.
     */
    method ClickNext()
      modifies this
      requires PaginationVisible(total)
      ensures 1 <= old(page) <= TotalPages(total) ==> 1 <= page <= TotalPages(total)
      ensures NextDisabled(old(page), TotalPages(total), loading) ==> page == old(page)
      ensures !NextDisabled(old(page), TotalPages(total), loading) ==> page == NextPage(old(page), TotalPages(total))
      ensures issues == old(issues) && total == old(total) && loading == old(loading)
    {
      var totalPages := (total + Limit - 1) / Limit;
      if !(page == totalPages || loading) {
        if 1 <= page <= totalPages {
          ControlsStayInRange(page, totalPages);
        }
        page := Min(totalPages, page + 1);
      }
    }
  }
}
