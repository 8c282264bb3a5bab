/**
 * The matches view (MatchManagement.tsx): the match list and team list loads,
 * the twelve-field creation form, its submit state machine, the date rewrite,
 * the payload sent to the backend and the id-to-name lookup for the selects.
 */
module MatchManagement {
  import opened Json
  import opened Js

  const MatchesUrl := "http://localhost:8000/api/partidas"
  const TeamsUrl := "http://localhost:8000/api/times"

  /** The form's keys, in the order of the `formData` initialiser. */
  const FormKeys: seq<string> := [
    "matchId", "date", "competition", "referee",
    "corners", "redCards", "yellowCards", "offsides",
    "homeTeam", "homeGoals", "awayTeam", "awayGoals"
  ]

  /** The backend key each form field is sent under; position i carries FormKeys[i]. */
  const PayloadKeys: seq<string> := [
    "num_par", "data_par", "id_comp", "id_arb",
    "escanteios", "cartoes_vermelhos", "cartoes_amarelos", "impedimentos",
    "id_time_mandante", "gols_mandante", "id_time_visitante", "gols_visitante"
  ]

  /** `formData`: a string per input id. */
  type Form = map<string, string>

  predicate WellFormed(f: Form) {
    forall k :: k in FormKeys ==> k in f
  }

  const EmptyForm: Form := map[
    "matchId" := "", "date" := "", "competition" := "", "referee" := "",
    "corners" := "", "redCards" := "", "yellowCards" := "", "offsides" := "",
    "homeTeam" := "", "homeGoals" := "", "awayTeam" := "", "awayGoals" := ""
  ]

  const ErrorPrefix := "⛔ Erro: "

  /** `{ type, msg }` as the view stores it; `type` is '', 'loading', 'error' or 'success'. */
  datatype Status = Status(kind: string, msg: string)

  /** The creation form is rendered only for the role 'admin'; everyone else sees the read-only notice. */
  predicate ShowsAdminForm(userRole: Option<string>) {
    userRole == Some("admin")
  }

  /**
   * The browser submits the form only when no required input is empty; every
   * input is `required` but the two team selects (fields 8 and 10).
   */
  predicate RequiredFilled(f: Form)
    requires WellFormed(f)
  {
    forall j :: 0 <= j < |FormKeys| && j != 8 && j != 10 ==> f[FormKeys[j]] != ""
  }

  /** The submit guard: both team selects must hold a non-empty id. Equal ids pass. */
  predicate HasBothTeams(f: Form)
    requires WellFormed(f)
  {
    f["homeTeam"] != "" && f["awayTeam"] != ""
  }

  /** Piece i of a split, or the text a template literal makes of `undefined`. */
  function Part(parts: seq<string>, i: nat): string
  {
    if i < |parts| then parts[i] else "undefined"
  }

  /** `${p[2]}/${p[1]}/${p[0]}` where `p = date.split('-')`. */
  function ReformatDate(date: string): string
  {
    var parts := Split(date, '-');
    Part(parts, 2) + "/" + Part(parts, 1) + "/" + Part(parts, 0)
  }

  /** A `YYYY-MM-DD` date becomes `DD/MM/YYYY`: the three pieces in reverse order. */
  lemma ReformatIsoDate(y: string, m: string, d: string)
    requires '-' !in y && '-' !in m && '-' !in d
    ensures ReformatDate(y + "-" + m + "-" + d) == d + "/" + m + "/" + y
  {
    var parts := [y, m, d];
    assert Join(parts, '-') == y + "-" + m + "-" + d by {
      assert Join(parts[1..], '-') == m + "-" + d by {
        assert parts[1..][1..] == [d];
      }
    }
    SplitJoin(parts, '-');
  }

  /** A date with no '-' keeps its text as the year and gets "undefined" for day and month. */
  lemma ReformatWithoutDashes(date: string)
    requires '-' !in date
    ensures ReformatDate(date) == "undefined/undefined/" + date
  {
    SplitJoin([date], '-');
  }

  /** The value sent for form field i: the date (field 1) rewritten, every other field through `parseInt`. */
  function FieldValue(f: Form, i: nat): Value
    requires WellFormed(f) && i < |FormKeys|
  {
    if i == 1 then Str(ReformatDate(f[FormKeys[1]])) else IntField(f[FormKeys[i]])
  }

  /** The POST body: each form field under its backend key, in the order of the `payload` literal. */
  function Payload(f: Form): (p: Fields)
    requires WellFormed(f)
    ensures Keys(p) == PayloadKeys
  {
    seq(|PayloadKeys|, i requires 0 <= i < |PayloadKeys| => (PayloadKeys[i], FieldValue(f, i)))
  }

  /** A form whose numeric fields hold the decimal text of numbers sends exactly those numbers, and the date in DD/MM/YYYY. */
  lemma PayloadCarriesNumbers(f: Form, nums: seq<int>, y: string, m: string, d: string)
    requires WellFormed(f) && |nums| == |FormKeys|
    requires forall i :: 0 <= i < |FormKeys| && i != 1 ==> f[FormKeys[i]] == DecimalText(nums[i])
    requires '-' !in y && '-' !in m && '-' !in d && f["date"] == y + "-" + m + "-" + d
    ensures forall i :: 0 <= i < |PayloadKeys| && i != 1 ==> Payload(f)[i] == (PayloadKeys[i], Num(nums[i]))
    ensures Payload(f)[1] == ("data_par", Str(d + "/" + m + "/" + y))
  {
    ReformatIsoDate(y, m, d);
    forall i | 0 <= i < |FormKeys| && i != 1
      ensures IntField(f[FormKeys[i]]) == Num(nums[i])
    {
      ParseIntDecimal(nums[i]);
    }
  }

  /** `teams.find(t => String(t.id) === String(id))?.name`. */
  function TeamName(teams: seq<Value>, id: string): Option<Value>
  {
    match Find(teams, (t: Value) => Text(Prop(t, "id")) == id)
    case None => None
    case Some(t) => Prop(t, "name")
  }

  /** The placeholder handed to a team select: the team's name, or "Selecione..." when there is none. */
  function TeamPlaceholder(teams: seq<Value>, id: string): string
  {
    var name := TeamName(teams, id);
    if TruthyOpt(name) then JsString(name.value) else "Selecione..."
  }

  /** The placeholder names the first team whose id text matches, and falls back only when no team matches or its name is falsy. */
  lemma TeamPlaceholderIsFirstMatch(teams: seq<Value>, id: string, k: nat)
    requires k < |teams| && Text(Prop(teams[k], "id")) == id
    requires forall j :: 0 <= j < k ==> Text(Prop(teams[j], "id")) != id
    ensures TeamName(teams, id) == Prop(teams[k], "name")
    ensures TruthyOpt(Prop(teams[k], "name")) ==> TeamPlaceholder(teams, id) == JsString(Prop(teams[k], "name").value)
  {
    var p := (t: Value) => Text(Prop(t, "id")) == id;
    var idx := FirstIndex(teams, p);
    assert p(teams[k]);
    assert idx == k;
  }

  lemma TeamPlaceholderWithoutMatch(teams: seq<Value>, id: string)
    requires forall j :: 0 <= j < |teams| ==> Text(Prop(teams[j], "id")) != id
    ensures TeamPlaceholder(teams, id) == "Selecione..."
  {
  }

  /** The history table: a placeholder row when empty, else one row per match with its date, competition, referee and counts. */
  datatype MatchTable = NoMatches | MatchRows(rows: seq<seq<Option<Value>>>)

  function MatchRow(m: Value): seq<Option<Value>>
  {
    [Prop(m, "data"), Prop(m, "competicao"), Prop(m, "arbitro"),
     Prop(m, "escanteios"), Prop(m, "amarelos"), Prop(m, "vermelhos")]
  }

  function MatchRowsOf(matches: seq<Value>): (rows: seq<seq<Option<Value>>>)
    ensures |rows| == |matches| && forall i :: 0 <= i < |matches| ==> rows[i] == MatchRow(matches[i])
  {
    if matches == [] then [] else [MatchRow(matches[0])] + MatchRowsOf(matches[1..])
  }

  function MatchList(matches: seq<Value>): (t: MatchTable)
    ensures t.NoMatches? <==> matches == []
    ensures t.MatchRows? ==> |t.rows| == |matches|
  {
    if |matches| == 0 then NoMatches else MatchRows(MatchRowsOf(matches))
  }

  /** The status after the POST settles: an error carrying `detail` or "Erro no servidor", the rejection's message, or success. */
  function SubmitOutcome(resp: Response): (s: Status)
    ensures s.kind == "success" <==> resp.Received? && resp.ok
    ensures s.kind != "success" ==> s.kind == "error" && |s.msg| >= |ErrorPrefix| && s.msg[..|ErrorPrefix|] == ErrorPrefix
    ensures resp.Received? && !resp.ok && !resp.body.Null? && !TruthyOpt(Prop(resp.body, "detail")) ==>
      s.msg == ErrorPrefix + "Erro no servidor"
    ensures resp.Received? && !resp.ok && IsText(Prop(resp.body, "detail")) ==>
      s.msg == ErrorPrefix + Prop(resp.body, "detail").value.s
    ensures resp.Failed? ==> s.msg == ErrorPrefix + resp.message
  {
    match resp
    case Failed(message) => Status("error", ErrorPrefix + message)
    case Received(ok, body) =>
      if !ok then
        Status("error", ErrorPrefix + if body.Null? then NullReadMessage("detail") else ErrorText(Prop(body, "detail"), "Erro no servidor"))
      else Status("success", "✅ Jogo salvo com sucesso!")
  }

  /** The component's state slots, the requests it has issued, and its handlers. */
  class MatchManagementPage {
    const userRole: Option<string>
    var matches: seq<Value>
    var teams: seq<Value>
    var formData: Form
    var status: Status
    var gets: seq<string>
    var posts: seq<Fields>
    var pendingPosts: nat

    ghost predicate Valid()
      reads this
    {
      WellFormed(formData)
    }

    constructor (userRole: Option<string>)
      ensures Valid()
      ensures this.userRole == userRole && matches == [] && teams == []
      ensures formData == EmptyForm && status == Status("", "")
      ensures gets == [] && posts == [] && pendingPosts == 0
    {
      this.userRole := userRole;
      matches, teams := [], [];
      formData := EmptyForm;
      status := Status("", "");
      gets, posts, pendingPosts := [], [], 0;
    }

    /** The mount effect: fetch the matches, then the teams. */
    method Mount()
      modifies this
      ensures gets == old(gets) + [MatchesUrl, TeamsUrl]
      ensures matches == old(matches) && teams == old(teams) && formData == old(formData)
      ensures status == old(status) && posts == old(posts) && pendingPosts == old(pendingPosts)
    {
      gets := gets + [MatchesUrl, TeamsUrl];
    }

    /** A match-list response: only an array replaces the list. */
    method MatchesArrived(resp: Response)
      modifies this
      ensures matches == if resp.Received? && resp.body.Arr? then resp.body.items else old(matches)
      ensures teams == old(teams) && formData == old(formData) && status == old(status)
      ensures gets == old(gets) && posts == old(posts) && pendingPosts == old(pendingPosts)
    {
      if resp.Received? && resp.body.Arr? {
        matches := resp.body.items;
      }
    }

    /** A team-list response: only an array replaces the list. */
    method TeamsArrived(resp: Response)
      modifies this
      ensures teams == if resp.Received? && resp.body.Arr? then resp.body.items else old(teams)
      ensures matches == old(matches) && formData == old(formData) && status == old(status)
      ensures gets == old(gets) && posts == old(posts) && pendingPosts == old(pendingPosts)
    {
      if resp.Received? && resp.body.Arr? {
        teams := resp.body.items;
      }
    }

    /**
     * `handleChange`, and the two selects' `onValueChange`: one field takes the new text.
     * The inputs exist only in the admin's form.
     */
    method Change(id: string, value: string)
      requires Valid() && ShowsAdminForm(userRole)
      modifies this
      ensures Valid()
      ensures formData == old(formData)[id := value]
      ensures forall k :: k in old(formData) && k != id ==> formData[k] == old(formData)[k]
      ensures matches == old(matches) && teams == old(teams) && status == old(status)
      ensures gets == old(gets) && posts == old(posts) && pendingPosts == old(pendingPosts)
    {
      formData := formData[id := value];
    }

    /**
     * Submitting: blocked by the browser while a required input is empty;
     * otherwise `handleSubmit` up to the request: 'loading', then either the
     * missing-team error or one POST of the payload.
     */
    method Submit()
      requires Valid() && ShowsAdminForm(userRole)
      modifies this
      ensures Valid() && formData == old(formData)
      ensures !RequiredFilled(formData) ==> status == old(status) && posts == old(posts) && pendingPosts == old(pendingPosts)
      ensures RequiredFilled(formData) && !HasBothTeams(formData) ==>
        status == Status("error", "Selecione os dois times!") && posts == old(posts) && pendingPosts == old(pendingPosts)
      ensures RequiredFilled(formData) && HasBothTeams(formData) ==>
        status == Status("loading", "Salvando...") && posts == old(posts) + [Payload(formData)]
        && pendingPosts == old(pendingPosts) + 1
      ensures matches == old(matches) && teams == old(teams) && gets == old(gets)
    {
      if !RequiredFilled(formData) {
        return;
      }
      status := Status("loading", "Salvando...");
      if !HasBothTeams(formData) {
        status := Status("error", "Selecione os dois times!");
        return;
      }
      posts := posts + [Payload(formData)];
      pendingPosts := pendingPosts + 1;
    }

    /** The POST settles: the status follows the response; success re-fetches the match list. The form is kept. */
    method SubmitSettled(resp: Response)
      requires pendingPosts > 0
      modifies this
      ensures status == SubmitOutcome(resp) && pendingPosts == old(pendingPosts) - 1
      ensures gets == old(gets) + (if resp.Received? && resp.ok then [MatchesUrl] else [])
      ensures formData == old(formData) && matches == old(matches) && teams == old(teams) && posts == old(posts)
    {
      status := SubmitOutcome(resp);
      pendingPosts := pendingPosts - 1;
      if resp.Received? && resp.ok {
        gets := gets + [MatchesUrl];
      }
    }
  }

  /** A form with every input typed and both selects chosen. */
  function FilledForm(date: string, home: string, away: string): (f: Form)
    requires date != ""
    ensures WellFormed(f) && RequiredFilled(f)
    ensures f["homeTeam"] == home && f["awayTeam"] == away
  {
    map[
      "matchId" := "1", "date" := date, "competition" := "1", "referee" := "1",
      "corners" := "0", "redCards" := "0", "yellowCards" := "0", "offsides" := "0",
      "homeTeam" := home, "homeGoals" := "0", "awayTeam" := away, "awayGoals" := "0"
    ]
  }

  /** The user types each field of `f` in turn, in form order. */
  method TypeForm(page: MatchManagementPage, f: Form)
    requires page.Valid() && ShowsAdminForm(page.userRole) && WellFormed(f)
    modifies page
    ensures page.Valid()
    ensures forall j :: 0 <= j < |FormKeys| ==> page.formData[FormKeys[j]] == f[FormKeys[j]]
    ensures page.status == old(page.status) && page.posts == old(page.posts) && page.pendingPosts == old(page.pendingPosts)
  {
    var k := 0;
    while k < |FormKeys|
      invariant 0 <= k <= |FormKeys|
      invariant page.Valid()
      invariant forall j :: 0 <= j < k ==> page.formData[FormKeys[j]] == f[FormKeys[j]]
      invariant page.status == old(page.status) && page.posts == old(page.posts) && page.pendingPosts == old(page.pendingPosts)
    {
      page.Change(FormKeys[k], f[FormKeys[k]]);
      k := k + 1;
    }
  }

  /** An empty required input blocks the submit: nothing is sent and the status is untouched. */
  method EmptyInputBlocksSubmit(team: nat) returns (sent: seq<Fields>, status: Status)
    ensures sent == [] && status == Status("", "")
  {
    var page := new MatchManagementPage(Some("admin"));
    page.Change("homeTeam", DecimalText(team));
    page.Change("awayTeam", DecimalText(team));
    assert page.formData["matchId"] == "";
    page.Submit();
    sent, status := page.posts, page.status;
  }

  /** Choosing the same team on both sides is not rejected: the submit sends a payload with equal team ids. */
  method SameTeamOnBothSides(team: nat) returns (sent: seq<Fields>, status: Status)
    ensures |sent| == 1 && |sent[0]| == 12 && sent[0][8].1 == sent[0][10].1 == Num(team)
    ensures status.kind == "loading"
  {
    var page := new MatchManagementPage(Some("admin"));
    var f := FilledForm("2024-05-01", DecimalText(team), DecimalText(team));
    TypeForm(page, f);
    assert page.formData[FormKeys[8]] == DecimalText(team) && page.formData[FormKeys[10]] == DecimalText(team);
    ParseIntDecimal(team);
    page.Submit();
    sent, status := page.posts, page.status;
  }
}
