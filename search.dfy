/** The Search view: a free-text search whose text field is debounced, a
    fetch that keeps the last result when a request fails, a page count, and a
    client-side sort of the current result page. */
module Search {
  import opened Common
  import opened Movies
  import opened SortSelect
  import opened Debounce
  import opened Pagination
  import opened Sorting

  /** The page size the search endpoint is asked for. */
  const SearchLimit: nat := 12

  const SearchFailed := "Failed to search movies."

  /** The query string of `GET /movies/search`. */
  datatype SearchRequest = SearchRequest(q: string, page: nat, limit: nat)

  /** What the result area shows. */
  datatype ResultView = Skeleton | NoMoviesFound | Grid(movies: seq<Movie>)

  class SearchPage {
    var q: string
    var data: PageBody
    var sort: SortSpec
    var loading: bool
    var err: string
    /** `tRef.current`: at most one debounced search is pending. */
    var timer: Timer
    /** The logical clock, in milliseconds. */
    var now: int

    /** The pending search, if any, is for the current text and fires within one
        delay from now. */
    ghost predicate Valid()
      reads this
    {
      timer.Pending? ==> timer.query == q && now < timer.due <= now + DelayMs
    }

    /** Mounting the view: initial state, and the query effect's first run arms a
        search for the empty text. */
    constructor ()
      ensures Valid()
      ensures q == "" && data == InitialPage && sort == DefaultSort
      ensures !loading && err == "" && now == 0 && timer == Rearm(0, "")
    {
      q, data, sort := "", InitialPage, DefaultSort;
      loading, err := false, "";
      now := 0;
      timer := Rearm(0, "");
    }

    /** `fetchSearch(page, query)` up to its `await`: the error is cleared and
        the view is loading; the request carries the text, the page and 12. */
    method BeginSearch(page: nat, query: string) returns (req: SearchRequest)
      requires Valid()
      modifies this
      ensures Valid()
      ensures req == SearchRequest(query, page, SearchLimit)
      ensures err == "" && loading
      ensures q == old(q) && data == old(data) && sort == old(sort)
      ensures timer == old(timer) && now == old(now)
    {
      err := "";
      loading := true;
      req := SearchRequest(query, page, SearchLimit);
    }

    /** `fetchSearch` after its `await`: a success replaces `data` wholesale; a
        failure keeps `data` and shows the server's message or the fixed text;
        `loading` ends false on both paths. */
    method EndSearch(resp: Response<PageBody>)
      requires Valid()
      modifies this
      ensures Valid()
      ensures !loading
      ensures resp.Success? ==> data == resp.body && err == old(err)
      ensures resp.Failure? ==> data == old(data) && err == ServerMessageOr(resp, SearchFailed)
      ensures q == old(q) && sort == old(sort) && timer == old(timer) && now == old(now)
    {
      if resp.Success? {
        data := resp.body;
      } else {
        err := ServerMessageOr(resp, SearchFailed);
      }
      loading := false;
    }

    /** Typing in the search field. A different text re-runs the query effect: the
        pending search is cleared and one search, of page 1 for the new text, is
        armed one delay from now. The same text changes nothing. */
    method Type(text: string)
      requires Valid()
      modifies this
      ensures Valid()
      ensures q == text
      ensures text != old(q) ==> timer == Rearm(now, text)
      ensures text == old(q) ==> timer == old(timer)
      ensures data == old(data) && sort == old(sort) && loading == old(loading)
      ensures err == old(err) && now == old(now)
    {
      if text != q {
        q := text;
        timer := Rearm(now, text);
      }
    }

    /** The clear button: the same as typing the empty text. */
    method ClearSearch()
      requires Valid()
      modifies this
      ensures Valid()
      ensures q == ""
      ensures old(q) != "" ==> timer == Rearm(now, "")
      ensures old(q) == "" ==> timer == old(timer)
      ensures data == old(data) && sort == old(sort) && loading == old(loading)
      ensures err == old(err) && now == old(now)
    {
      Type("");
    }

    /** The clock reaches `t`. A due timer fires `fetchSearch(1, query)` for the
        text it was armed with, which is the current text. */
    method Tick(t: int) returns (req: Option<SearchRequest>)
      requires Valid()
      requires now <= t
      modifies this
      ensures Valid()
      ensures now == t && timer == Advance(old(timer), t).0
      ensures req.Some? <==> Due(old(timer), t)
      ensures req.Some? ==> req.value == SearchRequest(q, 1, SearchLimit) && err == "" && loading
      ensures req.None? ==> loading == old(loading) && err == old(err)
      ensures q == old(q) && data == old(data) && sort == old(sort)
    {
      now := t;
      if Due(timer, t) {
        var query := timer.query;
        timer := Idle;
        var r := BeginSearch(1, query);
        req := Some(r);
      } else {
        req := None;
      }
    }

    /** Enter in the field or the Search button: page 1 with the current text,
        at once. The pending debounced search is left armed, so it also runs. */
    method Submit() returns (req: SearchRequest)
      requires Valid()
      modifies this
      ensures Valid()
      ensures req == SearchRequest(q, 1, SearchLimit) && err == "" && loading
      ensures timer == old(timer)
      ensures q == old(q) && data == old(data) && sort == old(sort) && now == old(now)
    {
      req := BeginSearch(1, q);
    }

    /** The refresh button: the page last returned, or 1. */
    method Refresh() returns (req: SearchRequest)
      requires Valid()
      modifies this
      ensures Valid()
      ensures req == SearchRequest(q, NatOr(old(data).page, 1), SearchLimit) && req.page >= 1
      ensures err == "" && loading
      ensures q == old(q) && data == old(data) && sort == old(sort)
      ensures timer == old(timer) && now == old(now)
    {
      req := BeginSearch(NatOr(data.page, 1), q);
    }

    /** A page chosen in the pager, searched with the current text. */
    method SelectPage(p: nat) returns (req: SearchRequest)
      requires Valid()
      modifies this
      ensures Valid()
      ensures req == SearchRequest(q, p, SearchLimit) && err == "" && loading
      ensures q == old(q) && data == old(data) && sort == old(sort)
      ensures timer == old(timer) && now == old(now)
    {
      req := BeginSearch(p, q);
    }

    /** A choice in the sort drop-downs; the sort is client-side, so nothing is
        fetched. */
    method ChooseSort(spec: SortSpec)
      requires Valid()
      modifies this
      ensures Valid()
      ensures sort == spec
      ensures q == old(q) && data == old(data) && loading == old(loading)
      ensures err == old(err) && timer == old(timer) && now == old(now)
    {
      sort := spec;
    }

    /** Leaving the view clears the pending timer, so no search runs afterwards. */
    method Unmount()
      requires Valid()
      modifies this
      ensures Valid()
      ensures timer == Idle
      ensures forall t :: !Due(timer, t)
      ensures q == old(q) && data == old(data) && sort == old(sort)
      ensures loading == old(loading) && err == old(err) && now == old(now)
    {
      timer := Idle;
    }

    /** `totalPages`: the page count of the current result. */
    function TotalPages(): (r: nat)
      reads this
      ensures r * NatOr(data.limit, DefaultLimit) >= NatOr(data.total, 0)
      ensures r == 0 || (r - 1) * NatOr(data.limit, DefaultLimit) < NatOr(data.total, 0)
      ensures data.total.None? ==> r == 0
    {
      PageCount(data.total, data.limit)
    }

    /** `sortedItems`: a sorted copy of `data.items || []`; it holds the same
        movies, in the order of the chosen field and direction. */
    function SortedItems(rt: Runtime): (r: seq<Movie>)
      reads this
      ensures multiset(r) == multiset(ItemsOr(data))
      ensures forall i, j :: 0 <= i < j < |r| ==> InOrder(sort, rt, r[i], r[j])
    {
      SortedItemsInOrder(sort, rt, ItemsOr(data));
      Sort(sort, rt, ItemsOr(data))
    }

    /** The result area: the skeleton while loading, else "No movies found" for
        an empty result, else the sorted grid. */
    function Results(rt: Runtime): (v: ResultView)
      reads this
      ensures v == Skeleton <==> loading
      ensures v == NoMoviesFound <==> !loading && ItemsOr(data) == []
      ensures v.Grid? ==> v.movies == SortedItems(rt) && v.movies != []
    {
      if loading then Skeleton
      else
        var items := SortedItems(rt);
        if items == [] then NoMoviesFound else Grid(items)
    }

    /** The pager, shown only when there is more than one page, on the page the
        server last returned. */
    function PagerShown(): (r: Option<Pager>)
      reads this
      ensures r.Some? <==> TotalPages() > 1
      ensures r.Some? ==> r.value.count == TotalPages() && r.value.page == data.page
    {
      if TotalPages() > 1 then PaginationBar(data.page, Some(TotalPages())) else None
    }
  }
}
