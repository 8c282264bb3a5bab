/**
 * The FastAPI backend (backend.py), limited to the session and the read
 * routes: `login`, `create_user`, `executar_consulta`, `listar_partidas`,
 * `listar_times` and `detalhes_time`. The module globals `DB_PARAMS` (user
 * and password) and `CURRENT_USER_ROLE` are the fields of `Server`. Every
 * database call is replaced by its outcome, given as a parameter: rows, or
 * the text of the exception it raised.
 */
module Backend {
  import opened Json

  /** What FastAPI sends: a JSON body with a status, or, for an exception no handler catches, a plain-text 500. */
  datatype Reply = Reply(status: int, body: Value) | Unhandled(message: string)

  /** `raise HTTPException(status_code, detail)`: FastAPI's `{"detail": …}` body. */
  function Raise(status: int, detail: string): Reply
  {
    Reply(status, Obj([("detail", Str(detail))]))
  }

  /** `{"erro": msg}`. */
  function ErroBody(msg: string): Value
  {
    Obj([("erro", Str(msg))])
  }

  /** How `psycopg2.connect` (and the matching `close`) ends: connected, a `psycopg2.Error`, or another exception. */
  datatype Connect = Connected | PgError(message: string) | OtherError(message: string)

  /** How a query ends: its rows, or any exception, by `str(e)`. */
  datatype Db<T> = Rows(value: T) | DbError(message: string)

  /** `str.lower()` on ASCII letters. No other character lowers to a letter of "postgres" or "amorim" alone, so the role test below is unaffected. */
  function Lower(s: string): (r: string)
    ensures |r| == |s|
    ensures forall i :: 0 <= i < |s| ==> r[i] == if 'A' <= s[i] <= 'Z' then (s[i] as int + 32) as char else s[i]
  {
    if s == [] then []
    else [if 'A' <= s[0] <= 'Z' then (s[0] as int + 32) as char else s[0]] + Lower(s[1..])
  }

  /** `'admin' if user.lower() in ['postgres', 'amorim'] else 'analista'`. */
  function RoleFor(user: string): (role: string)
    ensures role == "admin" <==> Lower(user) == "postgres" || Lower(user) == "amorim"
    ensures role == "admin" || role == "analista"
  {
    if Lower(user) == "postgres" || Lower(user) == "amorim" then "admin" else "analista"
  }

  lemma AmorimIsAdmin()
    ensures RoleFor("Amorim") == "admin"
  {
    LowerAmorim();
  }

  lemma PostgresIsAdmin()
    ensures RoleFor("POSTGRES") == "admin"
  {
    LowerPostgres();
  }

  lemma VerdancioIsAnalyst()
    ensures RoleFor("Verdancio") == "analista"
  {
    var v := Lower("Verdancio");
    assert |v| == 9;
  }

  lemma LowerAmorim()
    ensures Lower("Amorim") == "amorim"
  {
    var a := Lower("Amorim");
    assert a[0] == 'a' && a[1] == 'm' && a[2] == 'o' && a[3] == 'r' && a[4] == 'i' && a[5] == 'm';
  }

  lemma LowerPostgres()
    ensures Lower("POSTGRES") == "postgres"
  {
    var p := Lower("POSTGRES");
    assert p[0] == 'p' && p[1] == 'o' && p[2] == 's' && p[3] == 't';
    assert p[4] == 'g' && p[5] == 'r' && p[6] == 'e' && p[7] == 's';
  }

  /** The accounts the login page names: any case of Amorim or postgres is an administrator, Verdancio is an analyst. */
  lemma RoleExamples()
    ensures RoleFor("Amorim") == "admin" && RoleFor("POSTGRES") == "admin"
    ensures RoleFor("Verdancio") == "analista"
  {
    AmorimIsAdmin();
    PostgresIsAdmin();
    VerdancioIsAnalyst();
  }

  /** The reply of `login`: the new role and the user on success, 401 for a database refusal, 500 with the text of anything else. */
  function LoginReply(user: string, connect: Connect): (r: Reply)
    ensures connect.Connected? ==>
      r == Reply(200, Obj([("msg", Str("Login ok")), ("role", Str(RoleFor(user))), ("user", Str(user))]))
    ensures connect.PgError? ==> r == Raise(401, "Usuário ou senha incorretos.")
    ensures connect.OtherError? ==> r == Raise(500, connect.message)
  {
    match connect
    case Connected => Reply(200, Obj([("msg", Str("Login ok")), ("role", Str(RoleFor(user))), ("user", Str(user))]))
    case PgError(_) => Raise(401, "Usuário ou senha incorretos.")
    case OtherError(message) => Raise(500, message)
  }

  /** The body of `create_user`'s request. */
  datatype NewUser = NewUser(username: string, password: string, role: string)

  /** How the CREATE USER and GRANT statements end. */
  datatype Exec = Done | ExecError(message: string)

  /**
   * The reply of `create_user` for the current role: 403 before any database
   * work unless the role is 'admin'; a failed connection is outside the `try`
   * and escapes; a failed statement is reported in a 200 body.
   */
  function CreateUserReply(currentRole: string, req: NewUser, connect: Connect, exec: Exec): (r: Reply)
    ensures currentRole != "admin" ==> r == Raise(403, "Apenas Administradores podem criar usuários.")
    ensures currentRole == "admin" && !connect.Connected? ==> r == Unhandled(connect.message)
    ensures currentRole == "admin" && connect.Connected? ==> r.Reply? && r.status == 200
    ensures currentRole == "admin" && connect.Connected? && exec.ExecError? ==> r.body == ErroBody(exec.message)
    ensures currentRole == "admin" && connect.Connected? && exec.Done? ==>
      r.body == Obj([("msg", Str("Usuário " + req.username + " criado com sucesso!"))])
  {
    if currentRole != "admin" then Raise(403, "Apenas Administradores podem criar usuários.")
    else match connect
      case PgError(m) => Unhandled(m)
      case OtherError(m) => Unhandled(m)
      case Connected =>
        match exec
        case ExecError(m) => Reply(200, ErroBody(m))
        case Done => Reply(200, Obj([("msg", Str("Usuário " + req.username + " criado com sucesso!"))]))
  }

  /** The module globals: the connection credentials and the role of the last successful login. */
  class Server {
    var dbUser: string
    var dbPassword: string
    var role: string

    /** The values at import time. */
    constructor ()
      ensures dbUser == "postgres" && dbPassword == "123" && role == "admin"
    {
      dbUser, dbPassword, role := "postgres", "123", "admin";
    }

    /** `login`: the credentials are tried on a separate connection and stored, with the role, only when it succeeds. */
    method Login(user: string, password: string, connect: Connect) returns (reply: Reply)
      modifies this
      ensures reply == LoginReply(user, connect)
      ensures connect.Connected? ==> dbUser == user && dbPassword == password && role == RoleFor(user)
      ensures !connect.Connected? ==> dbUser == old(dbUser) && dbPassword == old(dbPassword) && role == old(role)
    {
      reply := LoginReply(user, connect);
      if connect.Connected? {
        dbUser := user;
        dbPassword := password;
        role := RoleFor(user);
      }
    }

    /** `create_user`, judged by the role held now; `connect` is the outcome of connecting with the stored credentials. */
    function CreateUser(req: NewUser, connect: Connect, exec: Exec): Reply
      reads this
    {
      CreateUserReply(role, req, connect, exec)
    }
  }

  /**
   * The role is global: after an analyst logs in, nobody can create users
   * until an administrator logs in again, and a failed login in between
   * changes nothing.
   */
  method RoleFollowsLastLogin(req: NewUser) returns (asAnalyst: Reply, afterFailure: Reply, asAdmin: Reply)
    ensures asAnalyst == Raise(403, "Apenas Administradores podem criar usuários.")
    ensures afterFailure == asAnalyst
    ensures asAdmin == Reply(200, Obj([("msg", Str("Usuário " + req.username + " criado com sucesso!"))]))
  {
    RoleExamples();
    var server := new Server();
    var _ := server.Login("Verdancio", "321", Connected);
    asAnalyst := server.CreateUser(req, Connected, Done);
    var _ := server.Login("Amorim", "errada", PgError("password authentication failed"));
    afterFailure := server.CreateUser(req, Connected, Done);
    var _ := server.Login("Amorim", "123", Connected);
    asAdmin := server.CreateUser(req, Connected, Done);
  }

  /** `executar_consulta`: one `dict(zip(colunas, row))` per row, or a one-element list holding the error. */
  function ExecutarConsulta(colunas: seq<string>, result: Db<seq<seq<Value>>>): (v: Value)
    ensures result.DbError? ==> v == Arr([ErroBody(result.message)])
    ensures result.Rows? ==> v.Arr? && |v.items| == |result.value|
    ensures result.Rows? ==> forall i :: 0 <= i < |result.value| ==> v.items[i] == Obj(DictZip(colunas, result.value[i]))
  {
    match result
    case DbError(m) => Arr([ErroBody(m)])
    case Rows(rows) => Arr(seq(|rows|, i requires 0 <= i < |rows| => Obj(DictZip(colunas, rows[i]))))
  }

  /** With distinct column names each record pairs the columns with the row's values position by position, as far as the shorter side goes. */
  lemma ConsultaRecords(colunas: seq<string>, rows: seq<seq<Value>>, i: nat)
    requires forall a, b :: 0 <= a < b < |colunas| ==> colunas[a] != colunas[b]
    requires i < |rows|
    ensures var fields := ExecutarConsulta(colunas, Rows(rows)).items[i].fields;
      |fields| == (if |colunas| < |rows[i]| then |colunas| else |rows[i]|)
      && forall j :: 0 <= j < |fields| ==> fields[j] == (colunas[j], rows[i][j])
  {
    DictZipDistinct(colunas, rows[i]);
  }

  /** The keys of a match, in the order of the SELECT list. */
  const PartidaColumns: seq<string> := ["id", "data", "competicao", "arbitro", "escanteios", "amarelos", "vermelhos"]

  /** The seven match columns differ already in their second character. */
  lemma PartidaColumnsDistinct(j: nat, k: nat)
    requires j < k < 7
    ensures PartidaColumns[j] != PartidaColumns[k]
  {
    var c := PartidaColumns;
    assert c[0][1] == 'd' && c[1][1] == 'a' && c[2][1] == 'o' && c[3][1] == 'r';
    assert c[4][1] == 's' && c[5][1] == 'm' && c[6][1] == 'e';
  }

  /** `listar_partidas`: the same positional mapping under fixed keys, and an empty list on any error. */
  function ListarPartidas(result: Db<seq<seq<Value>>>): (v: Value)
    ensures result.DbError? ==> v == Arr([])
    ensures result.Rows? ==> v == ExecutarConsulta(PartidaColumns, result)
  {
    match result
    case DbError(_) => Arr([])
    case Rows(_) => ExecutarConsulta(PartidaColumns, result)
  }

  /** A match row of seven columns gives a record with each column under its key. */
  lemma PartidaRecord(rows: seq<seq<Value>>, i: nat)
    requires i < |rows| && |rows[i]| == 7
    ensures ListarPartidas(Rows(rows)).items[i] == Obj(Zip(PartidaColumns, rows[i]))
    ensures Keys(ListarPartidas(Rows(rows)).items[i].fields) == PartidaColumns
  {
    assert DictZip(PartidaColumns, rows[i]) == Zip(PartidaColumns, rows[i]) by {
      forall a, b | 0 <= a < b < |PartidaColumns| ensures PartidaColumns[a] != PartidaColumns[b] {
        PartidaColumnsDistinct(a, b);
      }
      DictZipDistinct(PartidaColumns, rows[i]);
    }
    KeysOfZip(PartidaColumns, rows[i]);
  }

  /** A row of the team query: the integer id and the four other columns. */
  datatype TeamRow = TeamRow(id: int, name: Value, coach: Value, coachNationality: Value, coachAge: Value)

  function TeamRecord(t: TeamRow): Value
  {
    Obj([("id", Str(DecimalText(t.id))), ("name", t.name), ("coach", t.coach),
         ("coachNationality", t.coachNationality), ("coachAge", t.coachAge)])
  }

  /** `listar_times`: one record per row with the id as text, and an empty list on any error. */
  function ListarTimes(result: Db<seq<TeamRow>>): (v: Value)
    ensures result.DbError? ==> v == Arr([])
    ensures result.Rows? ==> v.Arr? && |v.items| == |result.value|
    ensures result.Rows? ==> forall i :: 0 <= i < |result.value| ==>
      v.items[i].Obj? && Keys(v.items[i].fields) == ["id", "name", "coach", "coachNationality", "coachAge"]
      && v.items[i].fields[0] == ("id", Str(DecimalText(result.value[i].id)))
  {
    match result
    case DbError(_) => Arr([])
    case Rows(rows) => Arr(seq(|rows|, i requires 0 <= i < |rows| => TeamRecord(rows[i])))
  }

  /** The record keys of `listar_times`, which already differ in length. */
  const TeamKeys: seq<string> := ["id", "name", "coach", "coachNationality", "coachAge"]

  lemma TeamKeysDistinct(j: nat, k: nat)
    requires j < k < 5
    ensures TeamKeys[j] != TeamKeys[k]
  {
    var c := TeamKeys;
    assert |c[0]| == 2 && |c[1]| == 4 && |c[2]| == 5 && |c[3]| == 16 && |c[4]| == 8;
  }

  /** Each team record carries the id as text and the row's name, coach, nationality and age under their own keys. */
  lemma TeamRecordFields(rows: seq<TeamRow>, i: nat)
    requires i < |rows|
    ensures var r := ListarTimes(Rows(rows)).items[i];
      r.Obj? && Lookup(r.fields, "id") == Some(Str(DecimalText(rows[i].id)))
      && Lookup(r.fields, "name") == Some(rows[i].name) && Lookup(r.fields, "coach") == Some(rows[i].coach)
      && Lookup(r.fields, "coachNationality") == Some(rows[i].coachNationality)
      && Lookup(r.fields, "coachAge") == Some(rows[i].coachAge)
  {
    var t := rows[i];
    assert ListarTimes(Rows(rows)).items[i] == TeamRecord(t);
    TeamFieldAt(t, 0);
    TeamFieldAt(t, 1);
    TeamFieldAt(t, 2);
    TeamFieldAt(t, 3);
    TeamFieldAt(t, 4);
  }

  /** The k-th key of a team record finds the k-th value. */
  lemma TeamFieldAt(t: TeamRow, k: nat)
    requires k < 5
    ensures TeamRecord(t).fields[k].0 == TeamKeys[k]
    ensures Lookup(TeamRecord(t).fields, TeamKeys[k]) == Some(TeamRecord(t).fields[k].1)
  {
    var fs := TeamRecord(t).fields;
    forall j | 0 <= j < k
      ensures fs[j].0 != fs[k].0
    {
      TeamKeysDistinct(j, k);
    }
    LookupFirst(fs, k);
  }

  /** The keys of a team's profile, in the order of the SELECT list. */
  const InfoColumns: seq<string> := ["nome", "pais", "sigla", "tecnico", "vitorias", "derrotas", "empates"]

  /** The seven profile columns differ already in their first character. */
  lemma InfoColumnsDistinct(j: nat, k: nat)
    requires j < k < 7
    ensures InfoColumns[j] != InfoColumns[k]
  {
    var c := InfoColumns;
    assert c[0][0] == 'n' && c[1][0] == 'p' && c[2][0] == 's' && c[3][0] == 't';
    assert c[4][0] == 'v' && c[5][0] == 'd' && c[6][0] == 'e';
  }

  /** A row of the history query: date, competition, goals, match number. */
  datatype HistoryRow = HistoryRow(data: Value, competicao: Value, gols: Value, numPar: Value)

  function HistoryEntry(r: HistoryRow): Value
  {
    Obj([("data", r.data), ("competicao", r.competicao), ("gols_marcados", r.gols), ("id_jogo", r.numPar)])
  }

  /** The `historico.append(…)` loop: one entry per row, in query order. */
  method BuildHistory(rows: seq<HistoryRow>) returns (historico: seq<Value>)
    ensures |historico| == |rows|
    ensures forall i :: 0 <= i < |rows| ==> historico[i] == HistoryEntry(rows[i])
  {
    historico := [];
    var k := 0;
    while k < |rows|
      invariant 0 <= k <= |rows|
      invariant |historico| == k
      invariant forall i :: 0 <= i < k ==> historico[i] == HistoryEntry(rows[i])
    {
      historico := historico + [HistoryEntry(rows[k])];
      k := k + 1;
    }
  }

  /**
   * `detalhes_time`: an error body when the first query fails or finds no
   * row (the second query then does not run) or the second query fails;
   * otherwise the profile and the history.
   */
  method DetalhesTime(info: Db<Option<seq<Value>>>, history: Db<seq<HistoryRow>>) returns (body: Value)
    ensures info.DbError? ==> body == ErroBody(info.message)
    ensures info.Rows? && (info.value.None? || info.value.value == []) ==> body == ErroBody("Time não encontrado")
    ensures info.Rows? && info.value.Some? && info.value.value != [] && history.DbError? ==>
      body == ErroBody(history.message)
    ensures info.Rows? && info.value.Some? && info.value.value != [] && history.Rows? ==>
      body.Obj? && Keys(body.fields) == ["info", "historico"]
      && body.fields[0].1 == Obj(DictZip(InfoColumns, info.value.value))
      && body.fields[1].1.Arr? && |body.fields[1].1.items| == |history.value|
      && forall i :: 0 <= i < |history.value| ==> body.fields[1].1.items[i] == HistoryEntry(history.value[i])
  {
    match info {
      case DbError(m) =>
        body := ErroBody(m);
      case Rows(row) =>
        if row.None? || row.value == [] {
          body := ErroBody("Time não encontrado");
        } else {
          var timeInfo := DictZip(InfoColumns, row.value);
          match history {
            case DbError(m) =>
              body := ErroBody(m);
            case Rows(rows) =>
              var historico := BuildHistory(rows);
              body := Obj([("info", Obj(timeInfo)), ("historico", Arr(historico))]);
          }
        }
    }
  }

  /** A seven-column profile row is keyed name, country, code, coach, wins, losses, draws, in that order. */
  lemma InfoRecord(row: seq<Value>)
    requires |row| == 7
    ensures DictZip(InfoColumns, row) == Zip(InfoColumns, row)
    ensures Keys(DictZip(InfoColumns, row)) == InfoColumns
  {
    assert DictZip(InfoColumns, row) == Zip(InfoColumns, row) by {
      forall a, b | 0 <= a < b < |InfoColumns| ensures InfoColumns[a] != InfoColumns[b] {
        InfoColumnsDistinct(a, b);
      }
      DictZipDistinct(InfoColumns, row);
    }
    KeysOfZip(InfoColumns, row);
  }
}
