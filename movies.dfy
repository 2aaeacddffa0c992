/** The records exchanged with the backend: a movie as the views read it, and
    the body of a list or search response. Every field the backend may leave
    out is optional, because the views read each one through a default. */
module Movies {
  import opened Common

  datatype Movie = Movie(
    id: Option<string>,
    title: Option<string>,
    description: Option<string>,
    rating: Option<real>,
    releaseDate: Option<string>,
    durationMinutes: Option<int>,
    posterUrl: Option<string>,
    imdbRank: Option<int>)

  /** The body of `GET /movies/sorted` and `GET /movies/search`. */
  datatype PageBody = PageBody(
    items: Option<seq<Movie>>,
    total: Option<nat>,
    page: Option<nat>,
    limit: Option<nat>)

  /** The `data` state every list view starts with:
      `{ items: [], total: 0, page: 1, limit: 12 }`. */
  const InitialPage := PageBody(Some([]), Some(0), Some(1), Some(12))

  /** `data.items || []`. */
  function ItemsOr(body: PageBody): (r: seq<Movie>)
    ensures body.items.Some? ==> r == body.items.value
    ensures body.items.None? ==> r == []
  {
    body.items.GetOr([])
  }

  /** A value a numeric field of a form holds: a number the form was filled
      with, or the text typed into the field since. */
  datatype FieldValue = Number(n: real) | Text(s: string)

  /** `Number(v)`: a number stays itself, typed text goes through the runtime's
      parser, and a missing field is NaN. */
  function NumberOf(rt: Runtime, v: Option<FieldValue>): (r: Numeric)
    ensures v.None? ==> r == NaN
    ensures v.Some? && v.value.Number? ==> r == Num(v.value.n)
    ensures v.Some? && v.value.Text? ==> r == ToNumber(rt, v.value.s)
  {
    match v
    case None => NaN
    case Some(Number(n)) => Num(n)
    case Some(Text(s)) => ToNumber(rt, s)
  }
}
