/**
 * The club explorer (TeamExplorer.tsx): the team list load, the
 * `selectedId`-driven details request, and what the page renders from
 * `details` and `error`. Responses commit in arrival order; nothing compares
 * them with the id that is selected when they arrive.
 */
module TeamExplorer {
  import opened Json
  import opened Js

  const TeamsUrl := "http://localhost:8000/api/times"
  const ListError := "Erro de conexão ao buscar times."
  const DetailsError := "Falha ao carregar detalhes do time. Verifique o Backend."

  function DetailsUrl(id: string): string
  {
    "http://localhost:8000/api/times/" + id + "/detalhes"
  }

  /** What a details response commits: the details, or an error value. */
  datatype DetailsOutcome = ShowDetails(details: Value) | ShowError(error: Value)

  /**
   * The `.then`/`.catch` chain of the details request. A null body makes
   * `data.erro` throw, which the `.catch` turns into the fixed message; the
   * status code is not looked at.
   */
  function Outcome(resp: Response): (o: DetailsOutcome)
    ensures o.ShowError? <==> resp.Failed? || resp.body.Null? || TruthyOpt(Prop(resp.body, "erro"))
    ensures o.ShowDetails? ==> o.details == resp.body
    ensures resp.Failed? || resp.body.Null? ==> o == ShowError(Str(DetailsError))
    ensures resp.Received? && !resp.body.Null? && TruthyOpt(Prop(resp.body, "erro")) ==>
      o == ShowError(Prop(resp.body, "erro").value)
  {
    match resp
    case Failed(_) => ShowError(Str(DetailsError))
    case Received(_, body) =>
      if body.Null? then ShowError(Str(DetailsError))
      else
        var erro := Prop(body, "erro");
        if TruthyOpt(erro) then ShowError(erro.value) else ShowDetails(body)
  }

  /** The profile card's fields, read from `details.info`. */
  datatype Profile = Profile(
    nome: Option<Value>, sigla: Option<Value>, pais: Option<Value>, tecnico: Option<Value>,
    vitorias: Option<Value>, empates: Option<Value>, derrotas: Option<Value>)

  function ProfileOf(info: Value): Profile
  {
    Profile(Prop(info, "nome"), Prop(info, "sigla"), Prop(info, "pais"), Prop(info, "tecnico"),
            Prop(info, "vitorias"), Prop(info, "empates"), Prop(info, "derrotas"))
  }

  /** The history card: the placeholder, one row per entry, or a render that throws. */
  datatype HistoryView = NoHistory | History(rows: seq<seq<Option<Value>>>) | HistoryError

  /** A history row: date, competition, goals scored. */
  function HistoryRow(h: Value): seq<Option<Value>>
  {
    [Prop(h, "data"), Prop(h, "competicao"), Prop(h, "gols_marcados")]
  }

  /** `historico.map(h => …)`: None as soon as one entry is null (`h.data` throws). */
  function HistoryRows(items: seq<Value>): (rows: Option<seq<seq<Option<Value>>>>)
    ensures rows.None? <==> exists i :: 0 <= i < |items| && items[i].Null?
    ensures rows.Some? ==> |rows.value| == |items|
    ensures rows.Some? ==> forall i :: 0 <= i < |items| ==> rows.value[i] == HistoryRow(items[i])
  {
    if items == [] then Some([])
    else if items[0].Null? then None
    else
      var rest := HistoryRows(items[1..]);
      if rest.None? then
        assert exists i :: 1 <= i < |items| && items[i].Null? by {
          var j :| 0 <= j < |items[1..]| && items[1..][j].Null?;
          assert items[j + 1].Null?;
        }
        None
      else
        assert forall i :: 1 <= i < |items| ==> items[i] == items[1..][i - 1];
        Some([HistoryRow(items[0])] + rest.value)
  }

  /** `!historico || historico.length === 0` shows the placeholder; otherwise the entries are mapped. */
  function HistoryOf(historico: Option<Value>): HistoryView
  {
    if !TruthyOpt(historico) then NoHistory
    else match historico.value
      case Arr(items) =>
        if |items| == 0 then NoHistory
        else (match HistoryRows(items)
          case Some(rows) => History(rows)
          case None => HistoryError)
      case Obj(fields) =>
        // an object has no `map`; its `length` is whatever property it carries
        if Lookup(fields, "length") == Some(Num(0)) then NoHistory else HistoryError
      case _ =>
        // a non-empty string, a number or `true`: `length` is not 0 and there is no `map`
        HistoryError
  }

  /** The page below the select: the error banner, and the profile and history cards. */
  datatype TeamView = TeamView(error: Option<Value>, profile: Option<Profile>, history: Option<HistoryView>)

  predicate ShowsProfile(details: Value) {
    Truthy(details) && TruthyOpt(Prop(details, "info"))
  }

  function View(details: Value, error: Value): (v: TeamView)
    ensures v.error.Some? <==> Truthy(error)
    ensures v.profile.Some? <==> ShowsProfile(details)
    ensures v.history.Some? <==> ShowsProfile(details)
  {
    TeamView(
      if Truthy(error) then Some(error) else None,
      if ShowsProfile(details) then Some(ProfileOf(Prop(details, "info").value)) else None,
      if ShowsProfile(details) then Some(HistoryOf(Prop(details, "historico"))) else None)
  }

  /**
   * The body `detalhes_time` sends for a team with history: the profile is its info
   * (an object, so truthy even when empty) and there is one row per entry, in order.
   */
  lemma ViewOfTeamDetails(info: Fields, entries: seq<Fields>)
    ensures var d := Obj([("info", Obj(info)), ("historico", Arr(seq(|entries|, i requires 0 <= i < |entries| => Obj(entries[i]))))]);
      var v := View(d, Str(""));
      v.error.None? && v.profile == Some(ProfileOf(Obj(info))) &&
      (entries == [] ==> v.history == Some(NoHistory)) &&
      (entries != [] ==> v.history.Some? && v.history.value.History? && |v.history.value.rows| == |entries|
                         && forall i :: 0 <= i < |entries| ==> v.history.value.rows[i] == HistoryRow(Obj(entries[i])))
  {
    var items := seq(|entries|, i requires 0 <= i < |entries| => Obj(entries[i]));
    var d := Obj([("info", Obj(info)), ("historico", Arr(items))]);
    var fs := d.fields;
    assert fs[0].0 != fs[1].0 by { assert |fs[0].0| != |fs[1].0|; }
    LookupFirst(fs, 0);
    LookupFirst(fs, 1);
    assert ShowsProfile(d);
    assert View(d, Str("")) == TeamView(None, Some(ProfileOf(Obj(info))), Some(HistoryOf(Some(Arr(items)))));
    if entries != [] {
      assert forall i :: 0 <= i < |items| ==> !items[i].Null?;
      assert HistoryOf(Some(Arr(items))) == History(HistoryRows(items).value);
    }
  }

  /** The component's state slots and the requests it has issued; `inFlight` holds the details requests not yet settled. */
  class TeamExplorerPage {
    var teams: seq<Value>
    var selectedId: string
    var details: Value
    var error: Value
    var listRequests: nat
    var inFlight: seq<string>

    constructor ()
      ensures teams == [] && selectedId == "" && details == Null && error == Str("")
      ensures listRequests == 0 && inFlight == []
    {
      teams, selectedId, details, error := [], "", Null, Str("");
      listRequests, inFlight := 0, [];
    }

    /** The mount effects: the list is requested; the details effect sees the empty id and does nothing. */
    method Mount()
      modifies this
      ensures listRequests == old(listRequests) + 1
      ensures teams == old(teams) && selectedId == old(selectedId) && details == old(details)
      ensures error == old(error) && inFlight == old(inFlight)
    {
      listRequests := listRequests + 1;
    }

    /** The list response: an array replaces the list, anything else is logged, a failure sets the connection error. */
    method TeamsArrived(resp: Response)
      modifies this
      ensures teams == if resp.Received? && resp.body.Arr? then resp.body.items else old(teams)
      ensures error == if resp.Failed? then Str(ListError) else old(error)
      ensures selectedId == old(selectedId) && details == old(details)
      ensures listRequests == old(listRequests) && inFlight == old(inFlight)
    {
      match resp
      case Failed(_) => error := Str(ListError);
      case Received(_, body) =>
        if body.Arr? {
          teams := body.items;
        }
    }

    /**
     * The select's `onValueChange`: `setSelectedId(id)`. The effect runs only
     * when the id changes, and does nothing for the empty id; otherwise it
     * clears details and error and requests the new team's details.
     */
    method SelectTeam(id: string)
      modifies this
      ensures selectedId == id && teams == old(teams) && listRequests == old(listRequests)
      ensures id == old(selectedId) || id == "" ==>
        details == old(details) && error == old(error) && inFlight == old(inFlight)
      ensures id != old(selectedId) && id != "" ==>
        details == Null && error == Str("") && inFlight == old(inFlight) + [DetailsUrl(id)]
    {
      if id != selectedId {
        selectedId := id;
        if id != "" {
          details := Null;
          error := Str("");
          inFlight := inFlight + [DetailsUrl(id)];
        }
      }
    }

    /** Details request `i` settles, whichever team is selected now: the error or the details are committed. */
    method DetailsArrived(i: nat, resp: Response)
      requires i < |inFlight|
      modifies this
      ensures Outcome(resp).ShowError? ==> error == Outcome(resp).error && details == old(details)
      ensures Outcome(resp).ShowDetails? ==> details == Outcome(resp).details && error == old(error)
      ensures inFlight == old(inFlight[..i] + inFlight[i + 1..])
      ensures teams == old(teams) && selectedId == old(selectedId) && listRequests == old(listRequests)
    {
      match Outcome(resp) {
        case ShowError(e) => error := e;
        case ShowDetails(d) => details := d;
      }
      inFlight := inFlight[..i] + inFlight[i + 1..];
    }

    function Render(): TeamView
      reads this
    {
      View(details, error)
    }
  }

  /**
   * Select team "1", then team "2" before the first reply: the reply for "2"
   * arrives first and the reply for "1" last, so the page shows team 1's
   * details while "2" is selected.
   */
  method LastReplyWins(one: Value, two: Value) returns (selected: string, shown: Value, requested: seq<string>)
    requires !one.Null? && !two.Null? && !TruthyOpt(Prop(one, "erro")) && !TruthyOpt(Prop(two, "erro"))
    ensures requested == [DetailsUrl("1"), DetailsUrl("2")]
    ensures selected == "2" && shown == one
  {
    var page := new TeamExplorerPage();
    page.Mount();
    page.SelectTeam("1");
    page.SelectTeam("2");
    requested := page.inFlight;
    page.DetailsArrived(1, Received(true, two));
    page.DetailsArrived(0, Received(true, one));
    selected, shown := page.selectedId, page.details;
  }

  /**
   * A late error reply for the newly selected team does not clear the details
   * an older reply committed: the error banner and the previous team's profile
   * are shown together.
   */
  method ErrorBesideOlderProfile(info: Fields, message: string) returns (view: TeamView)
    requires info != [] && message != ""
    ensures view.error == Some(Str(message)) && view.profile == Some(ProfileOf(Obj(info)))
  {
    var page := new TeamExplorerPage();
    page.SelectTeam("1");
    page.SelectTeam("2");
    var older := Obj([("info", Obj(info))]);
    assert Prop(older, "erro").None?;
    assert Prop(older, "info") == Some(Obj(info));
    assert Outcome(Received(true, older)) == ShowDetails(older);
    page.DetailsArrived(0, Received(true, older));
    var failed := Obj([("erro", Str(message))]);
    assert Outcome(Received(true, failed)) == ShowError(Str(message));
    page.DetailsArrived(0, Received(true, failed));
    assert page.details == older && page.error == Str(message);
    assert Truthy(Str(message)) && ShowsProfile(older);
    view := page.Render();
  }
}
