/**
 * The login form (Login.tsx): the user and password fields, the error banner,
 * the loading flag, and `handleLogin`: set loading and clear the error, POST
 * the form, then either hand the reply's user and role to `onLogin` or show
 * the error, and clear loading in every case. Calls of `onLogin` are recorded
 * in order, standing for the parent's callback.
 */
module Login {
  import opened Json
  import opened Js

  const LoginUrl := "http://localhost:8000/api/login"

  /** How a request ends for the form: `onLogin(data.user, data.role)`, or the message of the error caught. */
  datatype LoginResult = LoggedIn(user: Option<Value>, role: Option<Value>) | LoginError(message: string)

  /**
   * The `try` block after the request: a non-ok status throws `data.detail`
   * or "Falha no login"; an ok reply calls `onLogin`. A null body makes the
   * property read throw instead; a rejected request carries its own message.
   */
  function Outcome(resp: Response): (r: LoginResult)
    ensures r.LoggedIn? <==> resp.Received? && resp.ok && !resp.body.Null?
    ensures r.LoggedIn? ==> r.user == Prop(resp.body, "user") && r.role == Prop(resp.body, "role")
    ensures resp.Failed? ==> r == LoginError(resp.message)
    ensures resp.Received? && !resp.ok && !resp.body.Null? && !TruthyOpt(Prop(resp.body, "detail")) ==>
      r == LoginError("Falha no login")
    ensures resp.Received? && !resp.ok && IsText(Prop(resp.body, "detail")) ==>
      r == LoginError(Prop(resp.body, "detail").value.s)
  {
    match resp
    case Failed(message) => LoginError(message)
    case Received(ok, body) =>
      if !ok then
        if body.Null? then LoginError(NullReadMessage("detail")) else LoginError(ErrorText(Prop(body, "detail"), "Falha no login"))
      else if body.Null? then LoginError(NullReadMessage("user"))
      else LoggedIn(Prop(body, "user"), Prop(body, "role"))
  }

  /** The submit button: disabled while loading, with the matching caption. */
  datatype SubmitButton = SubmitButton(disabled: bool, caption: string)

  function ButtonFor(loading: bool): (b: SubmitButton)
    ensures b.disabled <==> loading
    ensures b.caption == (if loading then "Conectando..." else "Entrar")
  {
    SubmitButton(loading, if loading then "Conectando..." else "Entrar")
  }

  /** The form's state slots, the bodies it has posted and the `onLogin` calls it has made. */
  class LoginForm {
    var user: string
    var password: string
    var error: string
    var loading: bool
    var posted: seq<(string, string)>
    var logins: seq<(Option<Value>, Option<Value>)>

    constructor ()
      ensures user == "postgres" && password == "" && error == "" && !loading
      ensures posted == [] && logins == []
    {
      user, password, error, loading := "postgres", "", "", false;
      posted, logins := [], [];
    }

    /** The user input's `onChange`. */
    method EditUser(value: string)
      modifies this
      ensures user == value && password == old(password) && error == old(error) && loading == old(loading)
      ensures posted == old(posted) && logins == old(logins)
    {
      user := value;
    }

    /** The password input's `onChange`. */
    method EditPassword(value: string)
      modifies this
      ensures password == value && user == old(user) && error == old(error) && loading == old(loading)
      ensures posted == old(posted) && logins == old(logins)
    {
      password := value;
    }

    /** `handleLogin` up to the request: loading on, error cleared, the form posted as it is. */
    method Submit()
      modifies this
      ensures loading && error == "" && posted == old(posted) + [(user, password)]
      ensures user == old(user) && password == old(password) && logins == old(logins)
    {
      loading := true;
      error := "";
      posted := posted + [(user, password)];
    }

    /** The request settles: `onLogin` is called only for an ok reply, the error is set otherwise, and loading ends. */
    method Settle(resp: Response)
      modifies this
      ensures !loading && user == old(user) && password == old(password) && posted == old(posted)
      ensures Outcome(resp).LoggedIn? ==>
        logins == old(logins) + [(Outcome(resp).user, Outcome(resp).role)] && error == old(error)
      ensures Outcome(resp).LoginError? ==> logins == old(logins) && error == Outcome(resp).message
    {
      match Outcome(resp) {
        case LoggedIn(u, r) => logins := logins + [(u, r)];
        case LoginError(m) => error := m;
      }
      loading := false;
    }
  }

  /** A rejected login: the button is disabled while the request is out, then the message is shown and `onLogin` is never called. */
  method RejectedLogin(password: string, message: string) returns (during: SubmitButton, after: SubmitButton, shown: string, calls: nat)
    requires message != ""
    ensures during.disabled && !after.disabled
    ensures shown == message && calls == 0
  {
    var form := new LoginForm();
    form.EditPassword(password);
    form.Submit();
    during := ButtonFor(form.loading);
    form.Settle(Received(false, Obj([("detail", Str(message))])));
    after := ButtonFor(form.loading);
    shown, calls := form.error, |form.logins|;
  }
}
