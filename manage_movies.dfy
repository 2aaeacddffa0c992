/** The admin Manage Movies view: a searchable, paged table of movies with an
    edit dialog and a confirmed delete. After a delete the view reloads, stepping
    back one page when the deleted movie was the only one on a page after the
    first. */
module ManageMovies {
  import opened Common
  import opened Movies
  import opened Debounce
  import opened Pagination
  import opened JsText

  /** The fixed page size of the table. */
  const AdminLimit: nat := 10

  const LoadFailed := "Failed to load movies."
  const DeleteFailed := "Delete failed."
  const UpdateFailed := "Update failed."
  const Deleted := "Movie deleted."
  const Updated := "Movie updated."

  /** `GET /movies/search` with `{ page, limit, q }`. */
  datatype LoadRequest = LoadRequest(page: nat, limit: nat, q: string)

  /** `DELETE /movies/{id}`. */
  datatype DeleteRequest = DeleteRequest(id: string)

  /** `PUT /movies/{id}` with the normalised fields. */
  datatype UpdateRequest = UpdateRequest(id: string, payload: UpdatePayload)

  // ---------------------------------------------------------------------------
  // Page arithmetic

  /** `totalPages = Math.ceil((total || 0) / limit)` with the limit fixed at 10. */
  function AdminPageCount(total: nat): (r: nat)
    ensures r * AdminLimit >= total && (r == 0 || (r - 1) * AdminLimit < total)
  {
    CeilDiv(total, AdminLimit)
  }

  /** The number of rows page `page` (from 1) holds when `total` movies match. */
  function RowsOnPage(total: nat, page: nat): nat
    requires page >= 1
  {
    var offset := (page - 1) * AdminLimit;
    if total <= offset then 0
    else if total - offset < AdminLimit then total - offset
    else AdminLimit
  }

  /** `nextPage`: one page back when the page after the first showed a single
      row, which the delete removes; otherwise the same page. */
  function NextPage(page: nat, shown: nat): (r: nat)
    ensures r == page - 1 <==> page > 1 && shown == 1
    ensures r != page - 1 ==> r == page
    ensures page >= 1 ==> r >= 1
  {
    if page > 1 && shown == 1 then page - 1 else page
  }

  /** The page-correction rule never reloads an empty page when movies remain,
      and never goes past the last page: when the table showed the rows of `page`
      out of `total` and one of them is deleted, `nextPage` is a page holding rows
      of the `total - 1` remaining movies, or page 1 when none remain. */
  lemma NextPageHasRows(total: nat, page: nat, shown: nat)
    requires page >= 1 && shown >= 1
    requires shown == RowsOnPage(total, page)
    ensures var next := NextPage(page, shown);
      && 1 <= next
      && (total - 1 == 0 ==> next == 1)
      && (total - 1 > 0 ==> RowsOnPage(total - 1, next) > 0 && next <= AdminPageCount(total - 1))
  {
    var offset := (page - 1) * AdminLimit;
    var next := NextPage(page, shown);
    assert total > offset;
    if page > 1 && shown == 1 {
      assert (next - 1) * AdminLimit == offset - AdminLimit;
      assert RowsOnPage(total - 1, next) == AdminLimit;
    }
    var after := (next - 1) * AdminLimit;
    if total - 1 > 0 {
      assert after < total - 1;
      var n := AdminPageCount(total - 1);
      assert (next - 1) * AdminLimit < n * AdminLimit;
    }
  }

  /** Deleting the single row of page 3 out of 21 movies reloads page 2;
      deleting one of the five rows of page 3 out of 25 reloads page 3. */
  lemma NextPageExamples()
    ensures NextPage(3, RowsOnPage(21, 3)) == 2
    ensures NextPage(3, RowsOnPage(25, 3)) == 3
  {
  }

  // ---------------------------------------------------------------------------
  // The edit dialog's form

  /** The edit dialog's `form`; each field may be missing. */
  datatype EditForm = EditForm(
    title: Option<string>,
    description: Option<string>,
    rating: Option<FieldValue>,
    imdbRank: Option<FieldValue>,
    releaseDate: Option<string>,
    durationMinutes: Option<FieldValue>,
    posterUrl: Option<string>)

  /** `{}`: the form when no movie is being edited. */
  const EmptyForm := EditForm(None, None, None, None, None, None, None)

  /** `setForm(movie)`: the form starts from the movie's own values; the text
      fields are the movie's, and each number field holds the movie's number
      exactly when the movie has one. */
  function FormOf(m: Movie): (r: EditForm)
    ensures r.title == m.title && r.description == m.description
    ensures r.releaseDate == m.releaseDate && r.posterUrl == m.posterUrl
    ensures r.rating.Some? <==> m.rating.Some?
    ensures r.rating.Some? ==> r.rating.value == Number(m.rating.value)
    ensures r.imdbRank.Some? <==> m.imdbRank.Some?
    ensures r.imdbRank.Some? ==> r.imdbRank.value == Number(m.imdbRank.value as real)
    ensures r.durationMinutes.Some? <==> m.durationMinutes.Some?
    ensures r.durationMinutes.Some? ==> r.durationMinutes.value == Number(m.durationMinutes.value as real)
  {
    EditForm(
      m.title, m.description,
      if m.rating.Some? then Some(Number(m.rating.value)) else None,
      if m.imdbRank.Some? then Some(Number(m.imdbRank.value as real)) else None,
      m.releaseDate,
      if m.durationMinutes.Some? then Some(Number(m.durationMinutes.value as real)) else None,
      m.posterUrl)
  }

  /** The dialog's seven inputs, the keys of `set(k, v)`. */
  datatype EditKey = TitleKey | DescriptionKey | RatingKey | ImdbRankKey
                   | ReleaseDateKey | DurationKey | PosterUrlKey

  /** `set(k, v)`: the input's text `v` replaces field `k`, and only it; the
      number inputs hold their text too, as the browser gives it. */
  function SetField(f: EditForm, k: EditKey, v: string): (r: EditForm)
    ensures k == TitleKey ==> r.title == Some(v)
    ensures k == DescriptionKey ==> r.description == Some(v)
    ensures k == RatingKey ==> r.rating == Some(Text(v))
    ensures k == ImdbRankKey ==> r.imdbRank == Some(Text(v))
    ensures k == ReleaseDateKey ==> r.releaseDate == Some(v)
    ensures k == DurationKey ==> r.durationMinutes == Some(Text(v))
    ensures k == PosterUrlKey ==> r.posterUrl == Some(v)
    ensures k != TitleKey ==> r.title == f.title
    ensures k != DescriptionKey ==> r.description == f.description
    ensures k != RatingKey ==> r.rating == f.rating
    ensures k != ImdbRankKey ==> r.imdbRank == f.imdbRank
    ensures k != ReleaseDateKey ==> r.releaseDate == f.releaseDate
    ensures k != DurationKey ==> r.durationMinutes == f.durationMinutes
    ensures k != PosterUrlKey ==> r.posterUrl == f.posterUrl
  {
    match k
    case TitleKey => f.(title := Some(v))
    case DescriptionKey => f.(description := Some(v))
    case RatingKey => f.(rating := Some(Text(v)))
    case ImdbRankKey => f.(imdbRank := Some(Text(v)))
    case ReleaseDateKey => f.(releaseDate := Some(v))
    case DurationKey => f.(durationMinutes := Some(Text(v)))
    case PosterUrlKey => f.(posterUrl := Some(v))
  }

  /** Typing a title with something other than white space into the dialog
      enables Save whenever no save is in flight, whatever else the form holds. */
  lemma TypedTitleEnablesSave(f: EditForm, v: string)
    requires !AllSpace(v)
    ensures SaveEnabled(false, SetField(f, TitleKey, v))
    ensures forall k :: k != TitleKey ==> SaveEnabled(false, SetField(f, k, v)) == SaveEnabled(false, f)
  {
  }

  /** JavaScript truthiness of a field value (NaN is not a value a field holds). */
  predicate TruthyValue(v: Option<FieldValue>) {
    v.Some? && match v.value
      case Number(n) => n != 0.0
      case Text(s) => s != ""
  }

  /** `Number(v) || 0`. */
  function NumberOrZero(rt: Runtime, v: Option<FieldValue>): (r: real)
    ensures NumberOf(rt, v).NaN? ==> r == 0.0
    ensures NumberOf(rt, v).Num? ==> r == NumberOf(rt, v).n
  {
    match NumberOf(rt, v)
    case Num(n) => n
    case NaN => 0.0
  }

  /** The body of the update request. An omitted field is `None`. */
  datatype UpdatePayload = UpdatePayload(
    title: string,
    description: string,
    rating: real,
    imdbRank: real,
    releaseDate: Option<string>,
    durationMinutes: Option<Numeric>,
    posterUrl: string)

  /** The normalised payload `save` sends. */
  function EditPayload(rt: Runtime, form: EditForm): (p: UpdatePayload)
    ensures p.title == if form.title.Some? then Trim(form.title.value) else ""
    ensures p.description == TextOr(form.description, "")
    ensures p.rating == NumberOrZero(rt, form.rating)
    ensures p.imdbRank == NumberOrZero(rt, form.imdbRank)
    ensures p.releaseDate.Some? <==> Truthy(form.releaseDate)
    ensures p.releaseDate.Some? ==> p.releaseDate.value == Prefix(form.releaseDate.value, 10)
    ensures p.durationMinutes.Some? <==> TruthyValue(form.durationMinutes)
    ensures p.durationMinutes.Some? ==> p.durationMinutes.value == NumberOf(rt, form.durationMinutes)
    ensures p.posterUrl == TextOr(form.posterUrl, "")
  {
    UpdatePayload(
      if form.title.Some? then TextOr(Some(Trim(form.title.value)), "") else "",
      TextOr(form.description, ""),
      NumberOrZero(rt, form.rating),
      NumberOrZero(rt, form.imdbRank),
      if Truthy(form.releaseDate) then Some(Prefix(form.releaseDate.value, 10)) else None,
      if TruthyValue(form.durationMinutes) then Some(NumberOf(rt, form.durationMinutes)) else None,
      TextOr(form.posterUrl, ""))
  }

  /** Saving the form of a movie without touching it sends the movie's own values
      back: numbers unchanged (a missing one as 0), the title trimmed, the date cut
      to its first ten characters, a missing or zero duration left out. */
  lemma UntouchedFormSendsMovie(rt: Runtime, m: Movie)
    ensures var p := EditPayload(rt, FormOf(m));
      && p.rating == m.rating.GetOr(0.0)
      && p.imdbRank == m.imdbRank.GetOr(0) as real
      && p.title == Trim(m.title.GetOr(""))
      && (Truthy(m.releaseDate) ==> p.releaseDate == Some(Prefix(m.releaseDate.value, 10)))
      && (m.durationMinutes.Some? && m.durationMinutes.value != 0 ==>
            p.durationMinutes == Some(Num(m.durationMinutes.value as real)))
      && (m.durationMinutes.None? || m.durationMinutes.value == 0 ==> p.durationMinutes.None?)
  {
  }

  /** The Save button's enable rule: not while saving, and not while the title is
      blank after trimming. */
  predicate SaveEnabled(saving: bool, form: EditForm): (b: bool)
    ensures b <==> !saving && form.title.Some? && !AllSpace(form.title.value)
  {
    !saving && Trim(TextOr(form.title, "")) != ""
  }

  /** Whenever Save is enabled, the payload's title is not empty and carries no
      surrounding white space. */
  lemma EnabledSaveSendsTitle(rt: Runtime, saving: bool, form: EditForm)
    requires SaveEnabled(saving, form)
    ensures var t := EditPayload(rt, form).title;
      t != "" && !IsSpace(t[0]) && !IsSpace(t[|t| - 1])
  {
  }

  /** Conversely, Save is enabled exactly when nothing is being saved and the
      payload it would send has a non-empty title. */
  lemma SaveEnabledIffTitleSent(rt: Runtime, saving: bool, form: EditForm)
    ensures SaveEnabled(saving, form) <==> !saving && EditPayload(rt, form).title != ""
  {
  }

  // ---------------------------------------------------------------------------
  // The view

  class ManageMoviesPage {
    var movies: seq<Movie>
    var q: string
    var loading: bool
    var msg: string
    var err: string
    var page: nat
    var total: nat
    /** The movie whose edit dialog is open, and the dialog's own state. */
    var edit: Option<Movie>
    var form: EditForm
    var saving: bool
    /** The movie awaiting delete confirmation. */
    var delTarget: Option<Movie>
    var deleting: bool
    /** The debounce timer of the search field, and the logical clock. */
    var timer: Timer
    var now: int

    /** Pages count from 1, and the pending search reload, if any, is for the
        current text and comes within one delay. */
    ghost predicate Valid()
      reads this
    {
      && page >= 1
      && (timer.Pending? ==> timer.query == q && now < timer.due <= now + DelayMs)
    }

    /** Mounting: the initial state, with the page effect's `load(1, "")` in
        flight and the search effect's timer armed for the empty text. */
    constructor ()
      ensures Valid()
      ensures movies == [] && q == "" && loading && msg == "" && err == ""
      ensures page == 1 && total == 0 && edit.None? && form == EmptyForm && !saving
      ensures delTarget.None? && !deleting && now == 0 && timer == Rearm(0, "")
    {
      movies, q, loading, msg, err := [], "", true, "", "";
      page, total := 1, 0;
      edit, form, saving := None, EmptyForm, false;
      delTarget, deleting := None, false;
      now, timer := 0, Rearm(0, "");
    }

    /** `load(p, query)` up to its `await`. */
    method BeginLoad(p: nat, query: string) returns (req: LoadRequest)
      requires Valid()
      modifies this
      ensures Valid()
      ensures req == LoadRequest(p, AdminLimit, query)
      ensures loading && err == ""
      ensures movies == old(movies) && q == old(q) && msg == old(msg) && page == old(page)
      ensures total == old(total) && edit == old(edit) && form == old(form) && saving == old(saving)
      ensures delTarget == old(delTarget) && deleting == old(deleting)
      ensures timer == old(timer) && now == old(now)
    {
      loading := true;
      err := "";
      req := LoadRequest(p, AdminLimit, query);
    }

    /** `load` after its `await`. A success takes the rows (or none), the total
        (or 0) and the server's page (or the one asked for); a failure changes none
        of them and shows the error. `loading` ends false, unless the success moved
        `page`: then the page effect runs `load(page, q)` at once, and that
        follow-up request is returned. */
    method EndLoad(req: LoadRequest, resp: Response<PageBody>) returns (followUp: Option<LoadRequest>)
      requires Valid()
      requires req.page >= 1
      modifies this
      ensures Valid()
      ensures resp.Success? ==>
        && movies == ItemsOr(resp.body)
        && total == NatOr(resp.body.total, 0)
        && page == NatOr(resp.body.page, req.page)
      ensures resp.Failure? ==>
        && movies == old(movies) && total == old(total) && page == old(page)
        && err == ServerMessageOr(resp, LoadFailed)
      ensures followUp.Some? <==> page != old(page)
      ensures followUp.Some? ==> followUp.value == LoadRequest(page, AdminLimit, q) && loading && err == ""
      ensures followUp.None? ==> !loading && (resp.Success? ==> err == old(err))
      ensures q == old(q) && msg == old(msg) && edit == old(edit) && form == old(form)
      ensures saving == old(saving) && delTarget == old(delTarget) && deleting == old(deleting)
      ensures timer == old(timer) && now == old(now)
    {
      var before := page;
      if resp.Success? {
        movies := ItemsOr(resp.body);
        total := NatOr(resp.body.total, 0);
        page := NatOr(resp.body.page, req.page);
      } else {
        err := ServerMessageOr(resp, LoadFailed);
      }
      loading := false;
      if page != before {
        var r := BeginLoad(page, q);
        followUp := Some(r);
      } else {
        followUp := None;
      }
    }

    /** Typing in the search field: a different text clears the pending timer and
        arms one for the new text. */
    method Type(text: string)
      requires Valid()
      modifies this
      ensures Valid()
      ensures q == text
      ensures text != old(q) ==> timer == Rearm(now, text)
      ensures text == old(q) ==> timer == old(timer)
      ensures movies == old(movies) && loading == old(loading) && msg == old(msg) && err == old(err)
      ensures page == old(page) && total == old(total) && edit == old(edit) && form == old(form)
      ensures saving == old(saving) && delTarget == old(delTarget) && deleting == old(deleting)
      ensures now == old(now)
    {
      if text != q {
        q := text;
        timer := Rearm(now, text);
      }
    }

    /** The clock reaches `t`. A due timer goes back to page 1 and loads page 1
        for the current text. */
    method Tick(t: int) returns (req: Option<LoadRequest>)
      requires Valid()
      requires now <= t
      modifies this
      ensures Valid()
      ensures now == t && timer == Advance(old(timer), t).0
      ensures req.Some? <==> Due(old(timer), t)
      ensures req.Some? ==> req.value == LoadRequest(1, AdminLimit, q) && page == 1 && loading && err == ""
      ensures req.None? ==> page == old(page) && loading == old(loading) && err == old(err)
      ensures movies == old(movies) && q == old(q) && msg == old(msg) && total == old(total)
      ensures edit == old(edit) && form == old(form) && saving == old(saving)
      ensures delTarget == old(delTarget) && deleting == old(deleting)
    {
      now := t;
      if Due(timer, t) {
        var query := timer.query;
        timer := Idle;
        page := 1;
        var r := BeginLoad(1, query);
        req := Some(r);
      } else {
        req := None;
      }
    }

    /** A page chosen in the pager: a different page is loaded by the page
        effect; the current one changes nothing. */
    method SelectPage(p: nat) returns (req: Option<LoadRequest>)
      requires Valid()
      requires p >= 1
      modifies this
      ensures Valid()
      ensures page == p
      ensures req.Some? <==> p != old(page)
      ensures req.Some? ==> req.value == LoadRequest(p, AdminLimit, q) && loading && err == ""
      ensures req.None? ==> loading == old(loading) && err == old(err)
      ensures movies == old(movies) && q == old(q) && msg == old(msg) && total == old(total)
      ensures edit == old(edit) && form == old(form) && saving == old(saving)
      ensures delTarget == old(delTarget) && deleting == old(deleting)
      ensures timer == old(timer) && now == old(now)
    {
      if p != page {
        page := p;
        var r := BeginLoad(p, q);
        req := Some(r);
      } else {
        req := None;
      }
    }

    /** The refresh button reloads the current page and text; the Reload button
        of the empty state loads page 1 with no text. */
    method Refresh(all: bool) returns (req: LoadRequest)
      requires Valid()
      modifies this
      ensures Valid()
      ensures req == if all then LoadRequest(1, AdminLimit, "") else LoadRequest(page, AdminLimit, q)
      ensures loading && err == ""
      ensures movies == old(movies) && q == old(q) && msg == old(msg) && page == old(page)
      ensures total == old(total) && edit == old(edit) && form == old(form) && saving == old(saving)
      ensures delTarget == old(delTarget) && deleting == old(deleting)
      ensures timer == old(timer) && now == old(now)
    {
      if all {
        req := BeginLoad(1, "");
      } else {
        req := BeginLoad(page, q);
      }
    }

    /** The Delete button of a row opens the confirmation for that movie. */
    method AskDelete(target: Movie)
      requires Valid()
      modifies this
      ensures Valid()
      ensures delTarget == Some(target)
      ensures movies == old(movies) && q == old(q) && loading == old(loading) && msg == old(msg)
      ensures err == old(err) && page == old(page) && total == old(total) && edit == old(edit)
      ensures form == old(form) && saving == old(saving) && deleting == old(deleting)
      ensures timer == old(timer) && now == old(now)
    {
      delTarget := Some(target);
    }

    /** Cancel in the confirmation, or a click outside it: it closes, except
        while the delete is in flight, when both are disabled. */
    method CancelDelete()
      requires Valid()
      modifies this
      ensures Valid()
      ensures delTarget == if old(deleting) then old(delTarget) else None
      ensures movies == old(movies) && q == old(q) && loading == old(loading) && msg == old(msg)
      ensures err == old(err) && page == old(page) && total == old(total) && edit == old(edit)
      ensures form == old(form) && saving == old(saving) && deleting == old(deleting)
      ensures timer == old(timer) && now == old(now)
    {
      if !deleting {
        delTarget := None;
      }
    }

    /** `remove(delTarget)` up to its `await`: nothing at all for a movie without
        an id; otherwise the view is deleting and both notices are cleared. */
    method BeginRemove() returns (req: Option<DeleteRequest>)
      requires Valid()
      modifies this
      ensures Valid()
      ensures req.Some? <==> old(delTarget).Some? && Truthy(old(delTarget).value.id)
      ensures req.Some? ==> req.value == DeleteRequest(old(delTarget).value.id.value)
      ensures req.Some? ==> deleting && err == "" && msg == ""
      ensures req.None? ==> deleting == old(deleting) && err == old(err) && msg == old(msg)
      ensures movies == old(movies) && q == old(q) && loading == old(loading) && page == old(page)
      ensures total == old(total) && edit == old(edit) && form == old(form) && saving == old(saving)
      ensures delTarget == old(delTarget) && timer == old(timer) && now == old(now)
    {
      if delTarget.Some? && Truthy(delTarget.value.id) {
        deleting := true;
        err := "";
        msg := "";
        req := Some(DeleteRequest(delTarget.value.id.value));
      } else {
        req := None;
      }
    }

    /** `remove` after its `await`. A success says so, closes the confirmation and
        reloads `nextPage` with the same text; a failure keeps the confirmation
        open and shows the error. `deleting` ends false on both paths. */
    method EndRemove(resp: Response<()>) returns (reload: Option<LoadRequest>)
      requires Valid()
      modifies this
      ensures Valid()
      ensures !deleting
      ensures reload.Some? <==> resp.Success?
      ensures resp.Success? ==>
        && msg == Deleted && delTarget.None?
        && page == NextPage(old(page), |old(movies)|)
        && reload.value == LoadRequest(page, AdminLimit, q)
        && loading && err == ""
      ensures resp.Failure? ==>
        && delTarget == old(delTarget) && err == ServerMessageOr(resp, DeleteFailed)
        && msg == old(msg) && page == old(page) && loading == old(loading)
      ensures movies == old(movies) && q == old(q) && total == old(total)
      ensures edit == old(edit) && form == old(form) && saving == old(saving)
      ensures timer == old(timer) && now == old(now)
    {
      if resp.Success? {
        msg := Deleted;
        var next := NextPage(page, |movies|);
        delTarget := None;
        page := next;
        var r := BeginLoad(next, q);
        reload := Some(r);
      } else {
        err := ServerMessageOr(resp, DeleteFailed);
        reload := None;
      }
      deleting := false;
    }

    /** The Edit button of a row opens the dialog on that movie's values. */
    method OpenEdit(m: Movie)
      requires Valid()
      modifies this
      ensures Valid()
      ensures edit == Some(m) && form == FormOf(m)
      ensures movies == old(movies) && q == old(q) && loading == old(loading) && msg == old(msg)
      ensures err == old(err) && page == old(page) && total == old(total) && saving == old(saving)
      ensures delTarget == old(delTarget) && deleting == old(deleting)
      ensures timer == old(timer) && now == old(now)
    {
      edit := Some(m);
      form := FormOf(m);
    }

    /** Cancel in the edit dialog, or a click outside it: the dialog closes and
        its form empties, except while saving, when both are disabled. */
    method CloseEdit()
      requires Valid()
      modifies this
      ensures Valid()
      ensures old(saving) ==> edit == old(edit) && form == old(form)
      ensures !old(saving) ==> edit.None? && form == EmptyForm
      ensures movies == old(movies) && q == old(q) && loading == old(loading) && msg == old(msg)
      ensures err == old(err) && page == old(page) && total == old(total) && saving == old(saving)
      ensures delTarget == old(delTarget) && deleting == old(deleting)
      ensures timer == old(timer) && now == old(now)
    {
      if !saving {
        edit := None;
        form := EmptyForm;
      }
    }

    /** Typing `v` into the dialog's input `k`. */
    method ChangeField(k: EditKey, v: string)
      requires Valid()
      modifies this
      ensures Valid()
      ensures form == SetField(old(form), k, v)
      ensures movies == old(movies) && q == old(q) && loading == old(loading) && msg == old(msg)
      ensures err == old(err) && page == old(page) && total == old(total) && edit == old(edit)
      ensures saving == old(saving) && delTarget == old(delTarget) && deleting == old(deleting)
      ensures timer == old(timer) && now == old(now)
    {
      form := SetField(form, k, v);
    }

    /** `save()` up to its `await`: nothing without an edited movie with an id;
        otherwise the view is saving, both notices are cleared and the normalised
        payload is sent. */
    method BeginSave(rt: Runtime) returns (req: Option<UpdateRequest>)
      requires Valid()
      modifies this
      ensures Valid()
      ensures req.Some? <==> old(edit).Some? && Truthy(old(edit).value.id)
      ensures req.Some? ==> req.value == UpdateRequest(old(edit).value.id.value, EditPayload(rt, old(form)))
      ensures req.Some? ==> saving && err == "" && msg == ""
      ensures req.None? ==> saving == old(saving) && err == old(err) && msg == old(msg)
      ensures movies == old(movies) && q == old(q) && loading == old(loading) && page == old(page)
      ensures total == old(total) && edit == old(edit) && form == old(form)
      ensures delTarget == old(delTarget) && deleting == old(deleting)
      ensures timer == old(timer) && now == old(now)
    {
      if edit.Some? && Truthy(edit.value.id) {
        saving := true;
        err := "";
        msg := "";
        req := Some(UpdateRequest(edit.value.id.value, EditPayload(rt, form)));
      } else {
        req := None;
      }
    }

    /** `save()` after its `await`. A success says so, reloads the current page
        (`onSaved`) and closes the dialog (`onClose`); a failure keeps the dialog
        open with the error shown. `saving` ends false on both paths. */
    method EndSave(resp: Response<()>) returns (reload: Option<LoadRequest>)
      requires Valid()
      modifies this
      ensures Valid()
      ensures !saving
      ensures reload.Some? <==> resp.Success?
      ensures resp.Success? ==>
        && msg == Updated && edit.None? && form == EmptyForm
        && reload.value == LoadRequest(page, AdminLimit, q) && loading && err == ""
      ensures resp.Failure? ==>
        && edit == old(edit) && form == old(form) && err == ServerMessageOr(resp, UpdateFailed)
        && msg == old(msg) && loading == old(loading)
      ensures movies == old(movies) && q == old(q) && page == old(page) && total == old(total)
      ensures delTarget == old(delTarget) && deleting == old(deleting)
      ensures timer == old(timer) && now == old(now)
    {
      if resp.Success? {
        msg := Updated;
        var r := BeginLoad(page, q);
        reload := Some(r);
        edit := None;
        form := EmptyForm;
      } else {
        err := ServerMessageOr(resp, UpdateFailed);
        reload := None;
      }
      saving := false;
    }

    /** `totalPages`. */
    function TotalPages(): (r: nat)
      reads this
      ensures r * AdminLimit >= total && (r == 0 || (r - 1) * AdminLimit < total)
    {
      AdminPageCount(total)
    }

    /** MUI's pager, rendered here directly rather than through `PaginationBar`:
        only when not loading and there is more than one page. */
    function PagerShown(): (r: Option<Pager>)
      reads this
      ensures r.Some? <==> !loading && TotalPages() > 1
      ensures r.Some? ==> r.value.count == TotalPages() && r.value.page == Some(page)
    {
      if !loading && TotalPages() > 1 then Some(Pagination.Pager.Pager(Some(page), TotalPages())) else None
    }

    /** The dialog's Save button: enabled exactly when no save is in flight and
        the payload `save` would send carries a non-empty title. */
    function CanSave(rt: Runtime): (b: bool)
      reads this
      ensures b <==> !saving && EditPayload(rt, form).title != ""
    {
      SaveEnabledIffTitleSent(rt, saving, form);
      SaveEnabled(saving, form)
    }
  }
}
