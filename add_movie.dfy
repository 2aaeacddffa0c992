/** The admin Add Movie view: a form of seven fields, posted with its numeric
    fields coerced, and reset to its initial contents after a success. */
module AddMovie {
  import opened Common
  import opened Movies

  const Added := "Movie added!"
  const AddFailed := "Failed to add movie"

  /** The form. Its numeric fields start as numbers and hold the typed text once
      edited. */
  datatype MovieForm = MovieForm(
    title: string,
    description: string,
    rating: FieldValue,
    releaseDate: string,
    durationMinutes: FieldValue,
    posterUrl: string,
    imdbRank: FieldValue)

  /** The initial form, to which a successful submit also resets it. */
  const InitialForm := MovieForm("", "", Number(0.0), "", Number(120.0), "", Number(0.0))

  /** The keys `set(k, v)` is called with. */
  datatype Key = Title | Description | Rating | ReleaseDate | DurationMinutes | PosterUrl | ImdbRank

  /** The value stored under a key, a text field's as text. */
  function Get(f: MovieForm, k: Key): FieldValue {
    match k
    case Title => Text(f.title)
    case Description => Text(f.description)
    case Rating => f.rating
    case ReleaseDate => Text(f.releaseDate)
    case DurationMinutes => f.durationMinutes
    case PosterUrl => Text(f.posterUrl)
    case ImdbRank => f.imdbRank
  }

  /** Two forms that agree on every key are the same form. */
  lemma FormsAgreeingOnKeysAreEqual(a: MovieForm, b: MovieForm)
    requires forall k :: Get(a, k) == Get(b, k)
    ensures a == b
  {
    assert Get(a, Title) == Get(b, Title);
    assert Get(a, Description) == Get(b, Description);
    assert Get(a, ReleaseDate) == Get(b, ReleaseDate);
    assert Get(a, PosterUrl) == Get(b, PosterUrl);
    assert Get(a, Rating) == Get(b, Rating);
    assert Get(a, DurationMinutes) == Get(b, DurationMinutes);
    assert Get(a, ImdbRank) == Get(b, ImdbRank);
  }

  /** `set(k, v)` with the text `v` of an input: key `k` now holds `v` and every
      other key holds what it held. */
  function Set(f: MovieForm, k: Key, v: string): (r: MovieForm)
    ensures Get(r, k) == Text(v)
    ensures forall j :: j != k ==> Get(r, j) == Get(f, j)
  {
    match k
    case Title => f.(title := v)
    case Description => f.(description := v)
    case Rating => f.(rating := Text(v))
    case ReleaseDate => f.(releaseDate := v)
    case DurationMinutes => f.(durationMinutes := Text(v))
    case PosterUrl => f.(posterUrl := v)
    case ImdbRank => f.(imdbRank := Text(v))
  }

  /** Setting a key to the text it already holds changes nothing. */
  lemma SetSameIsIdentity(f: MovieForm, k: Key, v: string)
    requires Get(f, k) == Text(v)
    ensures Set(f, k, v) == f
  {
    FormsAgreeingOnKeysAreEqual(Set(f, k, v), f);
  }

  /** The integer part of a number, truncated toward zero. */
  function Truncate(x: real): (i: int)
    ensures 0.0 <= x ==> i as real <= x < i as real + 1.0
    ensures x < 0.0 ==> i as real - 1.0 < x <= i as real
  {
    if 0.0 <= x then x.Floor else -((-x).Floor)
  }

  /** `parseInt(v, 10)`: typed text goes through the runtime's parser; a number
      the form was filled with keeps its integer part. */
  function IntOf(rt: Runtime, v: FieldValue): (r: Numeric)
    ensures v.Text? ==> r == ParseInt10(rt, v.s)
    ensures r.Num? ==> r.n.Floor as real == r.n
    ensures v.Number? ==> r.Num? && r.n == Truncate(v.n) as real
  {
    match v
    case Number(n) => Num(Truncate(n) as real)
    case Text(s) => ParseInt10(rt, s)
  }

  /** The body of `POST /movies`; an omitted release date is `None`. */
  datatype AddPayload = AddPayload(
    title: string,
    description: string,
    rating: Numeric,
    releaseDate: Option<string>,
    durationMinutes: Numeric,
    posterUrl: string,
    imdbRank: Numeric)

  /** The payload of `submit`: the form's fields with the rating and duration
      made numbers, the rank parsed as a base-10 integer, and an empty release
      date left out. */
  function Payload(rt: Runtime, f: MovieForm): (p: AddPayload)
    ensures p.title == f.title && p.description == f.description && p.posterUrl == f.posterUrl
    ensures p.rating == NumberOf(rt, Some(f.rating))
    ensures p.durationMinutes == NumberOf(rt, Some(f.durationMinutes))
    ensures p.releaseDate.Some? <==> f.releaseDate != ""
    ensures p.releaseDate.Some? ==> p.releaseDate.value == f.releaseDate
    ensures p.imdbRank == IntOf(rt, f.imdbRank)
    ensures p.imdbRank.Num? ==> p.imdbRank.n.Floor as real == p.imdbRank.n
  {
    AddPayload(
      f.title, f.description,
      NumberOf(rt, Some(f.rating)),
      if f.releaseDate != "" then Some(f.releaseDate) else None,
      NumberOf(rt, Some(f.durationMinutes)),
      f.posterUrl,
      IntOf(rt, f.imdbRank))
  }

  /** Submitting the untouched form sends an untitled movie rated 0, lasting 120
      minutes, ranked 0, with no release date, whatever the runtime's parsers. */
  lemma InitialPayload(rt: Runtime)
    ensures Payload(rt, InitialForm) == AddPayload("", "", Num(0.0), None, Num(120.0), "", Num(0.0))
  {
    assert Truncate(0.0) == 0;
  }

  class AddMoviePage {
    var form: MovieForm
    var msg: string
    var err: string

    constructor ()
      ensures form == InitialForm && msg == "" && err == ""
    {
      form, msg, err := InitialForm, "", "";
    }

    /** Typing in one field. */
    method Edit(k: Key, v: string)
      modifies this
      ensures form == Set(old(form), k, v)
      ensures Get(form, k) == Text(v) && forall j :: j != k ==> Get(form, j) == Get(old(form), j)
      ensures msg == old(msg) && err == old(err)
    {
      form := Set(form, k, v);
    }

    /** `submit` up to its `await`: both notices are cleared and the coerced
        payload is posted. */
    method BeginSubmit(rt: Runtime) returns (req: AddPayload)
      modifies this
      ensures req == Payload(rt, form)
      ensures msg == "" && err == ""
      ensures form == old(form)
    {
      msg := "";
      err := "";
      req := Payload(rt, form);
    }

    /** `submit` after its `await`. A success says so and resets the form to
        its initial contents; a failure leaves the form as it was, so nothing
        typed is lost, and shows the server's message or the fixed text. */
    method EndSubmit<T>(resp: Response<T>)
      modifies this
      ensures resp.Success? ==> msg == Added && form == InitialForm && err == old(err)
      ensures resp.Failure? ==>
        && form == old(form) && msg == old(msg)
        && err == ServerMessageOr(resp, AddFailed) && err != ""
    {
      if resp.Success? {
        msg := Added;
        form := InitialForm;
      } else {
        err := ServerMessageOr(resp, AddFailed);
      }
    }
  }
}
