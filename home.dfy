/** The Home view: the sorted catalogue, fetched page by page from the server.
    A skeleton is shown only during the first fetch; after that a fetch keeps
    the current grid on screen. `loadedOk` tells an empty catalogue apart from a
    failed fetch. */
module Home {
  import opened Common
  import opened Movies
  import opened SortSelect
  import opened Pagination

  const HomeLimit: nat := 12

  const LoadFailed := "Failed to load movies."

  /** The query string of `GET /movies/sorted`: `{ page, limit: 12, ...sort }`
      (`by` is named `field`). */
  datatype SortedRequest = SortedRequest(page: nat, limit: nat, field: string, order: string)

  /** The three mutually exclusive states of the list area. */
  datatype ListView = Skeleton | NoMoviesAvailable | Grid(movies: Option<seq<Movie>>)

  /** The list area for the given flags and items: the skeleton exactly while the
      first fetch is loading, otherwise "No movies available" exactly for an empty
      successful result, otherwise the grid. */
  function View(initialLoad: bool, loading: bool, loadedOk: bool, items: Option<seq<Movie>>): (v: ListView)
    ensures v == Skeleton <==> initialLoad && loading
    ensures v == NoMoviesAvailable <==> !(initialLoad && loading) && loadedOk && items == Some([])
    ensures v.Grid? <==> !(initialLoad && loading) && !(loadedOk && items == Some([]))
    ensures v.Grid? ==> v.movies == items
  {
    if initialLoad && loading then Skeleton
    else if loadedOk && items == Some([]) then NoMoviesAvailable
    else Grid(items)
  }

  /** The error text of a failed fetch: the server's message, else the transport
      error's message, else the fixed text. */
  function FetchError(resp: Response<PageBody>): (e: string)
    requires resp.Failure?
    ensures e != ""
    ensures Truthy(resp.serverMessage) ==> e == resp.serverMessage.value
    ensures !Truthy(resp.serverMessage) && Truthy(resp.transportMessage) ==> e == resp.transportMessage.value
    ensures !Truthy(resp.serverMessage) && !Truthy(resp.transportMessage) ==> e == LoadFailed
  {
    TextOr(resp.serverMessage, TextOr(resp.transportMessage, LoadFailed))
  }

  class HomePage {
    var data: PageBody
    var sort: SortSpec
    var initialLoad: bool
    var loading: bool
    var err: string
    var loadedOk: bool

    /** `loading` is only ever set during the first fetch. */
    ghost predicate Valid()
      reads this
    {
      loading ==> initialLoad
    }

    constructor ()
      ensures Valid()
      ensures data == InitialPage && sort == DefaultSort
      ensures initialLoad && !loading && err == "" && !loadedOk
    {
      data, sort := InitialPage, DefaultSort;
      initialLoad, loading, err, loadedOk := true, false, "", false;
    }

    /** The sort effect's first run, on mount: `fetchMovies(1)` with the sort
        the view starts with. It is the first fetch, so `loading` is raised and
        the skeleton shows. */
    method Mount() returns (req: SortedRequest)
      requires Valid()
      requires initialLoad
      modifies this
      ensures Valid()
      ensures req == SortedRequest(1, HomeLimit, sort.field, sort.order)
      ensures loading && initialLoad && err == ""
      ensures ListArea() == Skeleton
      ensures data == old(data) && sort == old(sort) && loadedOk == old(loadedOk)
    {
      req := BeginFetch(1);
    }

    /** `fetchMovies(page)` up to its `await`: the error is cleared, `loading` is
        raised only while this is the first fetch, and the request carries the
        page, 12 and the current sort. */
    method BeginFetch(page: nat) returns (req: SortedRequest)
      requires Valid()
      modifies this
      ensures Valid()
      ensures req == SortedRequest(page, HomeLimit, sort.field, sort.order)
      ensures err == ""
      ensures loading == (old(initialLoad) || old(loading))
      ensures data == old(data) && sort == old(sort)
      ensures initialLoad == old(initialLoad) && loadedOk == old(loadedOk)
    {
      err := "";
      if initialLoad {
        loading := true;
      }
      req := SortedRequest(page, HomeLimit, sort.field, sort.order);
    }

    /** `fetchMovies` after its `await`. A success replaces `data` and marks the
        load good; a failure keeps `data`, marks it not good and shows the error.
        On both paths the skeleton is gone for good. */
    method EndFetch(resp: Response<PageBody>)
      requires Valid()
      modifies this
      ensures Valid()
      ensures !loading && !initialLoad
      ensures resp.Success? ==> data == resp.body && loadedOk && err == old(err)
      ensures resp.Failure? ==> data == old(data) && !loadedOk && err == FetchError(resp)
      ensures sort == old(sort)
    {
      if resp.Success? {
        data := resp.body;
        loadedOk := true;
      } else {
        loadedOk := false;
        err := FetchError(resp);
      }
      loading := false;
      initialLoad := false;
    }

    /** A choice in the sort drop-downs. When the field or the order changed, the
        sort effect fetches page 1 with the new specification. */
    method ChooseSort(spec: SortSpec) returns (req: Option<SortedRequest>)
      requires Valid()
      modifies this
      ensures Valid()
      ensures sort == spec
      ensures req.Some? <==> spec != old(sort)
      ensures req.Some? ==> req.value == SortedRequest(1, HomeLimit, spec.field, spec.order) && err == ""
      ensures req.Some? ==> loading == (old(initialLoad) || old(loading))
      ensures req.None? ==> err == old(err) && loading == old(loading)
      ensures data == old(data) && initialLoad == old(initialLoad) && loadedOk == old(loadedOk)
    {
      var changed := spec != sort;
      sort := spec;
      if changed {
        var r := BeginFetch(1);
        req := Some(r);
      } else {
        req := None;
      }
    }

    /** A page chosen in the pager. */
    method SelectPage(p: nat) returns (req: SortedRequest)
      requires Valid()
      modifies this
      ensures Valid()
      ensures req == SortedRequest(p, HomeLimit, sort.field, sort.order) && err == ""
      ensures loading == (old(initialLoad) || old(loading))
      ensures data == old(data) && sort == old(sort)
      ensures initialLoad == old(initialLoad) && loadedOk == old(loadedOk)
    {
      req := BeginFetch(p);
    }

    /** `totalPages = ceil((total || 0) / (limit || 12))`. */
    function TotalPages(): (r: nat)
      reads this
      ensures r * NatOr(data.limit, DefaultLimit) >= NatOr(data.total, 0)
      ensures r == 0 || (r - 1) * NatOr(data.limit, DefaultLimit) < NatOr(data.total, 0)
    {
      PageCount(data.total, data.limit)
    }

    function ListArea(): (v: ListView)
      requires Valid()
      reads this
      ensures v == Skeleton <==> loading
      ensures v == NoMoviesAvailable <==> !loading && loadedOk && data.items == Some([])
      ensures v.Grid? ==> !loading && v.movies == data.items
      ensures !initialLoad ==> v != Skeleton
    {
      View(initialLoad, loading, loadedOk, data.items)
    }

    /** The pager appears only after a successful fetch and when there is more
        than one page. */
    function PagerShown(): (r: Option<Pager>)
      reads this
      ensures r.Some? <==> loadedOk && TotalPages() > 1
      ensures r.Some? ==> r.value.count == TotalPages() && r.value.page == data.page
    {
      if loadedOk && TotalPages() > 1 then PaginationBar(data.page, Some(TotalPages())) else None
    }
  }
}
