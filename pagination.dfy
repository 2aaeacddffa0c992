/** Page-count arithmetic shared by the list views, and the `PaginationBar`
    component, which renders a pager only when there is more than one page. */
module Pagination {
  import opened Common

  /** The page size the public views ask for and fall back to. */
  const DefaultLimit: nat := 12

  /** `Math.ceil(n / d)` on naturals: the least page count whose pages hold `n`
      items at `d` per page. */
  function CeilDiv(n: nat, d: nat): (r: nat)
    requires d > 0
    ensures r * d >= n
    ensures r == 0 || (r - 1) * d < n
    ensures r == 0 <==> n == 0
  {
    var q := (n + d - 1) / d;
    assert n + d - 1 == q * d + (n + d - 1) % d;
    q
  }

  /** `Math.ceil((total || 0) / (limit || 12))`, the page count of the Search and
      Home views: an absent or zero limit means 12, so it never divides by zero. */
  function PageCount(total: Option<nat>, limit: Option<nat>): (r: nat)
    ensures var t, l := NatOr(total, 0), NatOr(limit, DefaultLimit);
      l > 0 && r * l >= t && (r == 0 || (r - 1) * l < t)
    ensures total.None? ==> r == 0
    ensures r == 0 <==> total.None? || total.value == 0
  {
    CeilDiv(NatOr(total, 0), NatOr(limit, DefaultLimit))
  }

  /** What `PaginationBar` renders: MUI's `Pagination` with these props. */
  datatype Pager = Pager(page: Option<nat>, count: nat)

  /** `PaginationBar({ page, totalPages })`: nothing when `totalPages` is absent,
      zero or one; otherwise a pager whose count is `totalPages` and whose current
      page is `page`. The pager's `onChange` hands the chosen page to the view
      unchanged; each view models that as its `SelectPage(p)` event. */
  function PaginationBar(page: Option<nat>, totalPages: Option<int>): (r: Option<Pager>)
    ensures r.Some? <==> totalPages.Some? && totalPages.value > 1
    ensures r.Some? ==> r.value.count == totalPages.value && r.value.page == page
  {
    if totalPages.None? || totalPages.value == 0 || totalPages.value <= 1 then None
    else Some(Pager(page, totalPages.value))
  }
}
