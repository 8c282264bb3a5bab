/**
 * The user-creation form (UserManager.tsx): username, password and role
 * fields, a status line, and `handleCreateUser`: a loading status, the POST,
 * then an error status or the success message with the form reset. Both text
 * inputs are `required`, so the browser does not submit while either is empty.
 */
module UserManager {
  import opened Json
  import opened Js

  const CreateUserUrl := "http://localhost:8000/api/admin/create_user"
  const ErrorPrefix := "⛔ Erro: "
  const DefaultRole := "analista"

  /** `{ type, msg }`; `type` is '', 'loading', 'error' or 'success'. */
  datatype Status = Status(kind: string, msg: string)

  const LoadingStatus := Status("loading", "Criando usuário no PostgreSQL...")

  /** The form fields, as posted. */
  datatype NewUser = NewUser(username: string, password: string, role: string)

  /**
   * The status after the request settles. A non-ok reply throws `detail` or
   * "Erro desconhecido", an ok reply carrying `erro` throws it, and every
   * caught error is shown after the '⛔ Erro: ' prefix; otherwise `✅ ${msg}`.
   */
  function Outcome(resp: Response): (s: Status)
    ensures s.kind == "success" <==> resp.Received? && resp.ok && !resp.body.Null? && !TruthyOpt(Prop(resp.body, "erro"))
    ensures s.kind == "success" ==> s.msg == "✅ " + Text(Prop(resp.body, "msg"))
    ensures s.kind != "success" ==> s.kind == "error" && |s.msg| >= |ErrorPrefix| && s.msg[..|ErrorPrefix|] == ErrorPrefix
    ensures resp.Received? && !resp.ok && !resp.body.Null? && !TruthyOpt(Prop(resp.body, "detail")) ==>
      s.msg == ErrorPrefix + "Erro desconhecido"
    ensures resp.Received? && !resp.ok && IsText(Prop(resp.body, "detail")) ==>
      s.msg == ErrorPrefix + Prop(resp.body, "detail").value.s
    ensures resp.Received? && resp.ok && IsText(Prop(resp.body, "erro")) ==>
      s.msg == ErrorPrefix + Prop(resp.body, "erro").value.s
  {
    match resp
    case Failed(message) => Status("error", ErrorPrefix + message)
    case Received(ok, body) =>
      if body.Null? then Status("error", ErrorPrefix + NullReadMessage(if ok then "erro" else "detail"))
      else if !ok then Status("error", ErrorPrefix + ErrorText(Prop(body, "detail"), "Erro desconhecido"))
      else if TruthyOpt(Prop(body, "erro")) then Status("error", ErrorPrefix + JsString(Prop(body, "erro").value))
      else Status("success", "✅ " + Text(Prop(body, "msg")))
  }

  /** The status line is shown when its message is not empty, in red exactly for errors. */
  predicate StatusShown(s: Status) { s.msg != "" }
  predicate StatusIsError(s: Status) { s.kind == "error" }

  /** The form's state slots and the bodies it has posted. */
  class UserManagerPage {
    var username: string
    var password: string
    var role: string
    var status: Status
    var posted: seq<NewUser>

    constructor ()
      ensures username == "" && password == "" && role == DefaultRole
      ensures status == Status("", "") && posted == []
    {
      username, password, role := "", "", DefaultRole;
      status, posted := Status("", ""), [];
    }

    method EditUsername(value: string)
      modifies this
      ensures username == value && password == old(password) && role == old(role)
      ensures status == old(status) && posted == old(posted)
    {
      username := value;
    }

    method EditPassword(value: string)
      modifies this
      ensures password == value && username == old(username) && role == old(role)
      ensures status == old(status) && posted == old(posted)
    {
      password := value;
    }

    /** The role select's `onValueChange`. */
    method ChooseRole(value: string)
      modifies this
      ensures role == value && username == old(username) && password == old(password)
      ensures status == old(status) && posted == old(posted)
    {
      role := value;
    }

    /** Submitting: blocked by the browser while a required field is empty; otherwise the loading status and one POST. */
    method Submit()
      modifies this
      ensures username == old(username) && password == old(password) && role == old(role)
      ensures username == "" || password == "" ==> status == old(status) && posted == old(posted)
      ensures username != "" && password != "" ==>
        status == LoadingStatus && posted == old(posted) + [NewUser(username, password, role)]
    {
      if username != "" && password != "" {
        status := LoadingStatus;
        posted := posted + [NewUser(username, password, role)];
      }
    }

    /** The request settles: the status follows the reply, and only success resets the three fields. */
    method Settle(resp: Response)
      modifies this
      ensures status == Outcome(resp) && posted == old(posted)
      ensures status.kind == "success" ==> username == "" && password == "" && role == DefaultRole
      ensures status.kind != "success" ==>
        username == old(username) && password == old(password) && role == old(role)
    {
      status := Outcome(resp);
      if status.kind == "success" {
        username, password, role := "", "", DefaultRole;
      }
    }
  }

  /** An admin account created: the request carries the chosen role, and afterwards the form is back to its initial state. */
  method CreateAdmin(name: string, secret: string, msg: string) returns (sent: seq<NewUser>, status: Status, fields: NewUser)
    requires name != "" && secret != ""
    ensures sent == [NewUser(name, secret, "admin")]
    ensures status == Status("success", "✅ " + msg) && fields == NewUser("", "", DefaultRole)
  {
    var page := new UserManagerPage();
    page.EditUsername(name);
    page.EditPassword(secret);
    page.ChooseRole("admin");
    page.Submit();
    var body := Obj([("msg", Str(msg))]);
    assert Prop(body, "erro").None?;
    page.Settle(Received(true, body));
    sent, status, fields := page.posted, page.status, NewUser(page.username, page.password, page.role);
  }
}
