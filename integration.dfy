/**
 * The pages against the backend: each backend reply, delivered as the
 * browser's `fetch` and `res.json()` deliver it, and read by the page that
 * asks for it. A JSON reply arrives with `res.ok` true exactly for a 2xx
 * status. An exception the backend does not catch becomes a 500 written by
 * the server's outermost error middleware, outside the CORS middleware, so it
 * carries no `Access-Control-Allow-Origin` header and the cross-origin
 * `fetch` rejects before any body is read.
 */
module Integration {
  import opened Json
  import opened Js
  import Backend
  import Login
  import UserManager
  import TeamExplorer
  import AdvancedReports
  import TechnicalStaffManager
  import MatchManagement

  /** Chrome's `TypeError` message for a cross-origin response the browser withholds. */
  const BlockedResponseError := "Failed to fetch"

  /** What the page's `await res.json()` gives for a backend reply. */
  function Deliver(reply: Backend.Reply): (resp: Response)
    ensures reply.Reply? ==> resp == Received(200 <= reply.status <= 299, reply.body)
    ensures reply.Unhandled? ==> resp == Failed(BlockedResponseError)
  {
    match reply
    case Reply(status, body) => Received(200 <= status <= 299, body)
    case Unhandled(_) => Failed(BlockedResponseError)
  }

  /** A refused password shows the backend's 401 detail, and any other failure its own text. */
  lemma LoginRefusedThroughBackend(user: string, message: string)
    ensures Login.Outcome(Deliver(Backend.LoginReply(user, Backend.PgError(message))))
      == Login.LoginError("Usuário ou senha incorretos.")
    ensures Login.Outcome(Deliver(Backend.LoginReply(user, Backend.OtherError(message))))
      == Login.LoginError(if message == "" then "Falha no login" else message)
  {
    assert Prop(Backend.Raise(401, "Usuário ou senha incorretos.").body, "detail") == Some(Str("Usuário ou senha incorretos."));
    assert Prop(Backend.Raise(500, message).body, "detail") == Some(Str(message));
  }

  /** A good password hands the user and the role the backend chose to `onLogin`. */
  lemma LoginAcceptedThroughBackend(user: string)
    ensures Login.Outcome(Deliver(Backend.LoginReply(user, Backend.Connected)))
      == Login.LoggedIn(Some(Str(user)), Some(Str(Backend.RoleFor(user))))
  {
    var fields := [("msg", Str("Login ok")), ("role", Str(Backend.RoleFor(user))), ("user", Str(user))];
    LookupFirst(fields, 1);
    LookupFirst(fields, 2);
  }

  /** A non-administrator gets the 403 detail, whatever the request. */
  lemma CreateUserDeniedThroughBackend(role: string, req: Backend.NewUser, connect: Backend.Connect, exec: Backend.Exec)
    requires role != "admin"
    ensures UserManager.Outcome(Deliver(Backend.CreateUserReply(role, req, connect, exec)))
      == UserManager.Status("error", "⛔ Erro: " + "Apenas Administradores podem criar usuários.")
  {
    var denied := Backend.Raise(403, "Apenas Administradores podem criar usuários.").body;
    assert Prop(denied, "detail") == Some(Str("Apenas Administradores podem criar usuários."));
    assert Deliver(Backend.CreateUserReply(role, req, connect, exec)) == Received(false, denied);
    assert IsText(Prop(denied, "detail"));
  }

  /** A failed connection escapes the handler; the browser withholds the 500, and the network error is shown. */
  lemma CreateUserUnconnectedThroughBackend(req: Backend.NewUser, connect: Backend.Connect, exec: Backend.Exec)
    requires !connect.Connected?
    ensures UserManager.Outcome(Deliver(Backend.CreateUserReply("admin", req, connect, exec)))
      == UserManager.Status("error", "⛔ Erro: " + BlockedResponseError)
  {
  }

  /**
   * A failed statement arrives in a 200 body and is shown as an error; an
   * empty error text is not truthy, so it is shown as a success with no message.
   */
  lemma CreateUserStatementFailsThroughBackend(req: Backend.NewUser, m: string)
    ensures m != "" ==>
      UserManager.Outcome(Deliver(Backend.CreateUserReply("admin", req, Backend.Connected, Backend.ExecError(m))))
      == UserManager.Status("error", "⛔ Erro: " + m)
    ensures UserManager.Outcome(Deliver(Backend.CreateUserReply("admin", req, Backend.Connected, Backend.ExecError(""))))
      == UserManager.Status("success", "✅ undefined")
  {
    assert Prop(Backend.ErroBody(m), "erro") == Some(Str(m));
    assert Prop(Backend.ErroBody(""), "msg") == None;
  }

  /** A created user: the form shows the backend's message. */
  lemma CreateUserDoneThroughBackend(req: Backend.NewUser)
    ensures UserManager.Outcome(Deliver(Backend.CreateUserReply("admin", req, Backend.Connected, Backend.Done)))
      == UserManager.Status("success", "✅ Usuário " + req.username + " criado com sucesso!")
  {
    var done := Obj([("msg", Str("Usuário " + req.username + " criado com sucesso!"))]);
    assert Prop(done, "erro") == None;
    assert Prop(done, "msg") == Some(Str("Usuário " + req.username + " criado com sucesso!"));
  }

  /** An unknown team id: the backend's 200 error body is shown by the explorer as the error, in place of details. */
  method UnknownTeamShown(history: Backend.Db<seq<Backend.HistoryRow>>) returns (o: TeamExplorer.DetailsOutcome)
    ensures o == TeamExplorer.ShowError(Str("Time não encontrado"))
  {
    var body := Backend.DetalhesTime(Backend.Rows(None), history);
    assert Prop(body, "erro") == Some(Str("Time não encontrado"));
    o := TeamExplorer.Outcome(Deliver(Backend.Reply(200, body)));
  }

  /** A team that exists: the explorer keeps the backend's body, profile and history, as it came. */
  method KnownTeamShown(row: seq<Value>, rows: seq<Backend.HistoryRow>) returns (body: Value, o: TeamExplorer.DetailsOutcome)
    requires row != []
    ensures o == TeamExplorer.ShowDetails(body)
    ensures Prop(body, "historico").Some? && Prop(body, "historico").value.Arr?
    ensures |Prop(body, "historico").value.items| == |rows|
  {
    body := Backend.DetalhesTime(Backend.Rows(Some(row)), Backend.Rows(rows));
    var fields := body.fields;
    assert |fields| == 2 && fields[0].0 == "info" && fields[1].0 == "historico" by {
      assert |Keys(fields)| == |fields|;
    }
    assert Lookup(fields, "erro") == None;
    assert Lookup(fields, "historico") == Some(fields[1].1);
    var resp := Deliver(Backend.Reply(200, body));
    assert resp == Received(true, body);
    o := TeamExplorer.Outcome(resp);
  }

  /** A failing report query renders as a one-column table headed "erro", not as an error. */
  lemma ConsultaErrorRendersAsTable(colunas: seq<string>, m: string)
    ensures AdvancedReports.View(false, Backend.ExecutarConsulta(colunas, Backend.DbError(m)))
      == AdvancedReports.Table(["erro"], [[Str(m)]])
  {
    AdvancedReports.ErrorListRendersAsTable(m);
  }

  /** Each column of a seven-column match row is found under its own key. */
  lemma PartidaColumn(row: seq<Value>, k: nat)
    requires |row| == 7 && k < 7
    ensures Prop(Obj(Zip(Backend.PartidaColumns, row)), Backend.PartidaColumns[k]) == Some(row[k])
  {
    var f := Zip(Backend.PartidaColumns, row);
    forall j | 0 <= j < k
      ensures f[j].0 != f[k].0
    {
      Backend.PartidaColumnsDistinct(j, k);
    }
    LookupFirst(f, k);
  }

  /** A seven-column match record shows its date, competition, referee and the three counts, in that order. */
  lemma MatchRowOfRecord(row: seq<Value>)
    requires |row| == 7
    ensures MatchManagement.MatchRow(Obj(Zip(Backend.PartidaColumns, row)))
      == [Some(row[1]), Some(row[2]), Some(row[3]), Some(row[4]), Some(row[5]), Some(row[6])]
  {
    PartidaColumn(row, 1);
    PartidaColumn(row, 2);
    PartidaColumn(row, 3);
    PartidaColumn(row, 4);
    PartidaColumn(row, 5);
    PartidaColumn(row, 6);
  }

  /** The match history from `listar_partidas`: a failing query reads as no matches, and each row shows its own columns. */
  lemma MatchesThroughBackend(rows: seq<seq<Value>>, m: string)
    requires forall i :: 0 <= i < |rows| ==> |rows[i]| == 7
    ensures MatchManagement.MatchList(Backend.ListarPartidas(Backend.DbError(m)).items) == MatchManagement.NoMatches
    ensures rows != [] ==>
      var t := MatchManagement.MatchList(Backend.ListarPartidas(Backend.Rows(rows)).items);
      t.MatchRows? && |t.rows| == |rows|
      && forall i :: 0 <= i < |rows| ==>
           t.rows[i] == [Some(rows[i][1]), Some(rows[i][2]), Some(rows[i][3]), Some(rows[i][4]), Some(rows[i][5]), Some(rows[i][6])]
  {
    var items := Backend.ListarPartidas(Backend.Rows(rows)).items;
    forall i | 0 <= i < |rows|
      ensures MatchManagement.MatchRow(items[i])
        == [Some(rows[i][1]), Some(rows[i][2]), Some(rows[i][3]), Some(rows[i][4]), Some(rows[i][5]), Some(rows[i][6])]
    {
      Backend.PartidaRecord(rows, i);
      MatchRowOfRecord(rows[i]);
    }
  }

  /**
   * `listar_times` sends each id as text, so the coach form's select finds the
   * team by its id, and `parseInt` sends the integer back in the PUT.
   */
  lemma TeamIdsRoundTrip(rows: seq<Backend.TeamRow>, k: nat)
    requires k < |rows|
    ensures var found := TechnicalStaffManager.Lookup(Backend.ListarTimes(Backend.Rows(rows)), DecimalText(rows[k].id));
      found.Found? && Prop(found.team, "id") == Some(Str(DecimalText(rows[k].id)))
    ensures IntField(DecimalText(rows[k].id)) == Num(rows[k].id)
  {
    var items := Backend.ListarTimes(Backend.Rows(rows)).items;
    var id := DecimalText(rows[k].id);
    assert Prop(items[k], "id") == Some(Str(id));
    assert TechnicalStaffManager.HasId(items[k], id);
    assert !items[k].Null?;
    assert forall j :: 0 <= j < |items| ==> !items[j].Null?;
    ParseIntDecimal(rows[k].id);
  }
}
