/** The Login view: a required-field check, then the login request with its
    outcome shown in the error banner and the snack. */
module Login {
  import opened Common
  import opened JsText
  import opened Snack

  const FieldsMissing := "Please enter email and password."
  const LoggedIn := "Logged in successfully \U{2705}"
  const LoginFailed := "Login failed"

  /** `POST /auth/login` with the email and the password as typed. */
  datatype LoginRequest = LoginRequest(email: string, password: string)

  /** The check of `submit`: the email must hold something other than white
      space, and the password must not be empty (white space counts). */
  predicate Filled(email: string, password: string): (b: bool)
    ensures b <==> !AllSpace(email) && |password| > 0
  {
    Trim(email) != "" && password != ""
  }

  /** Unlike the email, the password is not trimmed: a non-empty password of
      white space only passes the check whenever the email does. */
  lemma FilledMeaning(email: string, password: string)
    requires password != "" && AllSpace(password)
    ensures Filled(email, password) <==> !AllSpace(email)
  {
  }

  class LoginPage {
    var email: string
    var password: string
    var loading: bool
    var err: string
    var snack: Snack

    constructor ()
      ensures email == "" && password == "" && !loading && err == "" && snack == Closed
    {
      email, password, loading, err, snack := "", "", false, "", Closed;
    }

    /** Typing in the two fields. */
    method Edit(e: string, p: string)
      modifies this
      ensures email == e && password == p
      ensures loading == old(loading) && err == old(err) && snack == old(snack)
    {
      email, password := e, p;
    }

    /** `submit` up to its `await`. The error is cleared first. A missing field
        opens a warning snack and nothing is sent; otherwise `loading` is raised
        and the email and password are sent untrimmed. */
    method BeginSubmit() returns (req: Option<LoginRequest>)
      modifies this
      ensures err == ""
      ensures req.Some? <==> Filled(email, password)
      ensures req.Some? ==> req.value == LoginRequest(email, password) && loading && snack == old(snack)
      ensures req.None? ==> snack == Show(FieldsMissing, Warning) && loading == old(loading)
      ensures email == old(email) && password == old(password)
    {
      err := "";
      if !Filled(email, password) {
        snack := Show(FieldsMissing, Warning);
        req := None;
      } else {
        loading := true;
        req := Some(LoginRequest(email, password));
      }
    }

    /** `submit` after its `await`. A success opens the success snack; a
        failure puts the server's message, or the fixed text, in the banner and
        in an error snack. `loading` ends false on both paths. */
    method EndSubmit<T>(resp: Response<T>)
      modifies this
      ensures !loading
      ensures resp.Success? ==> snack == Show(LoggedIn, Severity.Success) && err == old(err)
      ensures resp.Failure? ==>
        && err == ServerMessageOr(resp, LoginFailed) && err != ""
        && snack == Show(err, Error)
      ensures email == old(email) && password == old(password)
    {
      if resp.Success? {
        snack := Show(LoggedIn, Severity.Success);
      } else {
        var msg := ServerMessageOr(resp, LoginFailed);
        err := msg;
        snack := Show(msg, Error);
      }
      loading := false;
    }

    /** The snack's close events. */
    method CloseSnack(reason: Option<string>)
      modifies this
      ensures snack == Close(old(snack), reason)
      ensures email == old(email) && password == old(password)
      ensures loading == old(loading) && err == old(err)
    {
      snack := Close(snack, reason);
    }
  }
}
