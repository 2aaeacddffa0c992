/** The Sign Up view: an ordered chain of checks on the form, live hints under
    the password fields, and the signup request with its outcome shown in the
    error banner and the snack. */
module SignUp {
  import opened Common
  import opened JsText
  import opened Snack

  const NameMissing := "Please enter your name."
  const EmailMissing := "Please enter your email."
  const TooShort := "Password must be at least 8 characters"
  const Mismatch := "Passwords do not match"
  const Created := "Account created successfully \U{2705}"
  const SignupFailed := "Signup failed"

  /** The shortest password the form accepts. */
  const MinPassword: nat := 8

  datatype SignUpForm = SignUpForm(name: string, email: string, password: string, confirm: string)

  const EmptyForm := SignUpForm("", "", "", "")

  /** The four fields `set(k, v)` can address. */
  datatype Field = Name | Email | Password | Confirm

  /** `set(k, v)`: field `k` becomes `v`, the others stay. */
  function Set(f: SignUpForm, k: Field, v: string): (r: SignUpForm)
    ensures k == Name ==> r == f.(name := v)
    ensures k == Email ==> r == f.(email := v)
    ensures k == Password ==> r == f.(password := v)
    ensures k == Confirm ==> r == f.(confirm := v)
  {
    match k
    case Name => f.(name := v)
    case Email => f.(email := v)
    case Password => f.(password := v)
    case Confirm => f.(confirm := v)
  }

  /** The outcome of the checks: pass; a warning snack only; or a rejection that
      goes to both the error banner and an error snack. */
  datatype Check = Pass | Warn(warning: string) | Reject(error: string)

  /** The checks of `submit`, in order; the first that fails decides. A field is
      blank when it is empty after trimming. */
  function Validate(f: SignUpForm): (c: Check)
    ensures c == Warn(NameMissing) <==> AllSpace(f.name)
    ensures c == Warn(EmailMissing) <==> !AllSpace(f.name) && AllSpace(f.email)
    ensures c == Reject(TooShort) <==>
      !AllSpace(f.name) && !AllSpace(f.email) && |f.password| < MinPassword
    ensures c == Reject(Mismatch) <==>
      !AllSpace(f.name) && !AllSpace(f.email) && |f.password| >= MinPassword && f.password != f.confirm
    ensures c == Pass <==>
      !AllSpace(f.name) && !AllSpace(f.email) && |f.password| >= MinPassword && f.password == f.confirm
  {
    if Trim(f.name) == "" then Warn(NameMissing)
    else if Trim(f.email) == "" then Warn(EmailMissing)
    else if |f.password| < MinPassword then Reject(TooShort)
    else if f.password != f.confirm then Reject(Mismatch)
    else Pass
  }

  /** `passwordTooShort`: the hint under the password field. */
  predicate PasswordTooShort(password: string): (b: bool)
    ensures b ==> |password| < MinPassword
    ensures password != "" && |password| < MinPassword ==> b
    ensures password == "" ==> !b
    ensures |password| >= MinPassword ==> !b
  {
    0 < |password| < MinPassword
  }

  /** `passwordsMismatch`: the hint under the confirmation field. */
  predicate PasswordsMismatch(password: string, confirm: string): (b: bool)
    ensures b ==> confirm != password
    ensures confirm != "" && confirm != password ==> b
    ensures confirm == "" || confirm == password ==> !b
  {
    |confirm| > 0 && password != confirm
  }

  /** A mismatch is only reported for a password long enough to pass the length
      check, so a short password is never reported as a mismatch. */
  lemma MismatchOnlyForLongPassword(f: SignUpForm)
    requires Validate(f) == Reject(Mismatch)
    ensures |f.password| >= MinPassword && f.password != f.confirm
  {
  }

  /** The live hints and the checks agree wherever a hint shows: a form that
      passes shows no hint, and once the name and email are filled in, a shown
      hint means the submit is rejected with that hint's text (the length hint
      coming first). */
  lemma HintsAgreeWithSubmit(f: SignUpForm)
    ensures Validate(f) == Pass ==> !PasswordTooShort(f.password) && !PasswordsMismatch(f.password, f.confirm)
    ensures !AllSpace(f.name) && !AllSpace(f.email) && PasswordTooShort(f.password) ==>
      Validate(f) == Reject(TooShort)
    ensures (!AllSpace(f.name) && !AllSpace(f.email) && |f.password| >= MinPassword
      && PasswordsMismatch(f.password, f.confirm)) ==> Validate(f) == Reject(Mismatch)
    ensures Validate(f) == Reject(TooShort) ==> PasswordTooShort(f.password) || f.password == ""
    ensures Validate(f) == Reject(Mismatch) ==> PasswordsMismatch(f.password, f.confirm) || f.confirm == ""
  {
  }

  /** The submit is stricter than the hints: an empty password, or an empty
      confirmation of a long password, shows no hint but is rejected. */
  lemma SilentRejections(name: string, email: string, password: string)
    requires !AllSpace(name) && !AllSpace(email)
    ensures !PasswordTooShort("") && Validate(SignUpForm(name, email, "", "")) == Reject(TooShort)
    ensures |password| >= MinPassword ==>
      !PasswordsMismatch(password, "") && Validate(SignUpForm(name, email, password, "")) == Reject(Mismatch)
  {
  }

  /** `POST /auth/signup` with the trimmed name and email and the password as
      typed. */
  datatype SignupRequest = SignupRequest(name: string, email: string, password: string)

  class SignUpPage {
    var form: SignUpForm
    var loading: bool
    var err: string
    var snack: Snack

    constructor ()
      ensures form == EmptyForm && !loading && err == "" && snack == Closed
    {
      form, loading, err, snack := EmptyForm, false, "", Closed;
    }

    /** Typing in one of the fields. */
    method Edit(k: Field, v: string)
      modifies this
      ensures form == Set(old(form), k, v)
      ensures loading == old(loading) && err == old(err) && snack == old(snack)
    {
      form := Set(form, k, v);
    }

    /** `submit` up to its `await`. The error is cleared first. A blank name or
        email opens a warning snack only; a short or mismatched password puts
        the same text in the banner and in an error snack; in those cases
        nothing is sent. A form that passes raises `loading` and is sent. */
    method BeginSubmit() returns (req: Option<SignupRequest>)
      modifies this
      ensures req.Some? <==> Validate(form) == Pass
      ensures req.Some? ==>
        && req.value == SignupRequest(Trim(form.name), Trim(form.email), form.password)
        && loading && err == "" && snack == old(snack)
      ensures Validate(form).Warn? ==>
        err == "" && snack == Show(Validate(form).warning, Warning) && loading == old(loading)
      ensures Validate(form).Reject? ==>
        && err == Validate(form).error && snack == Show(Validate(form).error, Error)
        && loading == old(loading)
      ensures form == old(form)
    {
      err := "";
      var check := Validate(form);
      match check
      case Warn(m) =>
        snack := Show(m, Warning);
        req := None;
      case Reject(m) =>
        err := m;
        snack := Show(m, Error);
        req := None;
      case Pass =>
        loading := true;
        req := Some(SignupRequest(Trim(form.name), Trim(form.email), form.password));
    }

    /** `submit` after its `await`. A success opens the success snack; a
        failure puts the server's message, or the fixed text, in the banner and
        in an error snack. `loading` ends false on both paths. */
    method EndSubmit<T>(resp: Response<T>)
      modifies this
      ensures !loading
      ensures resp.Success? ==> snack == Show(Created, Severity.Success) && err == old(err)
      ensures resp.Failure? ==>
        && err == ServerMessageOr(resp, SignupFailed) && err != ""
        && snack == Show(err, Error)
      ensures form == old(form)
    {
      if resp.Success? {
        snack := Show(Created, Severity.Success);
      } else {
        var msg := ServerMessageOr(resp, SignupFailed);
        err := msg;
        snack := Show(msg, Error);
      }
      loading := false;
    }

    /** The snack's close events. */
    method CloseSnack(reason: Option<string>)
      modifies this
      ensures snack == Close(old(snack), reason)
      ensures form == old(form) && loading == old(loading) && err == old(err)
    {
      snack := Close(snack, reason);
    }
  }
}
