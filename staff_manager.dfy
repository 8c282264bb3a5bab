/**
 * The coach-update form (TechnicalStaffManager.tsx): the team list, the four
 * form fields, a status line, and `handleUpdate`: a loading status, the PUT,
 * then a fixed error or the success message with the form reset and the team
 * list fetched again. The list is stored as it arrives, without a shape check,
 * and the selected team is found by strict equality of `id` with the text
 * held by the team select. The three text inputs are `required`.
 */
module TechnicalStaffManager {
  import opened Json
  import opened Js

  const TeamsUrl := "http://localhost:8000/api/times"
  const CoachesUrl := "http://localhost:8000/api/tecnicos"

  datatype Status = Status(kind: string, msg: string)

  const LoadingStatus := Status("loading", "Processando...")
  const SuccessStatus := Status("success", "Técnico atualizado com sucesso!")
  const FailureStatus := Status("error", "Falha ao atualizar técnico.")

  /**
   * `formData`: the team select's value and the three inputs. The select hands
   * over `team.id` unconverted; the model keeps the id as text, which is what
   * `listar_times` sends.
   */
  datatype CoachForm = CoachForm(teamId: string, coachName: string, nationality: string, age: string)

  const EmptyForm := CoachForm("", "", "", "")

  /** The PUT body: the two numeric fields through `parseInt`, the texts as typed. */
  function Payload(f: CoachForm): (p: Fields)
    ensures Keys(p) == ["id_time", "novo_tecnico", "nacionalidade", "idade"]
  {
    [("id_time", IntField(f.teamId)), ("novo_tecnico", Str(f.coachName)),
     ("nacionalidade", Str(f.nationality)), ("idade", IntField(f.age))]
  }

  /** Typing the decimal text of the team id and the age sends those numbers; an empty team choice sends null. */
  lemma PayloadNumbers(f: CoachForm, team: int, age: int)
    requires f.teamId == DecimalText(team) && f.age == DecimalText(age)
    ensures Payload(f)[0] == ("id_time", Num(team)) && Payload(f)[3] == ("idade", Num(age))
    ensures Payload(CoachForm("", f.coachName, f.nationality, f.age))[0] == ("id_time", Null)
  {
    ParseIntDecimal(team);
    ParseIntDecimal(age);
  }

  /** `teams.find(t => t.id === teamId)` over a list: the first team whose id is that very string, or a throw at a null entry reached first. */
  datatype TeamLookup = Throws | NotFound | Found(team: Value)

  predicate HasId(t: Value, teamId: string) {
    Prop(t, "id") == Some(Str(teamId))
  }

  function FindTeam(items: seq<Value>, teamId: string): (r: TeamLookup)
    ensures r.NotFound? <==> forall j :: 0 <= j < |items| ==> !items[j].Null? && !HasId(items[j], teamId)
    ensures r.Found? ==> exists k :: (0 <= k < |items| && items[k] == r.team && HasId(r.team, teamId)
                                    && forall j :: 0 <= j < k ==> !items[j].Null? && !HasId(items[j], teamId))
    ensures r.Throws? ==> exists k :: (0 <= k < |items| && items[k].Null?
                                     && forall j :: 0 <= j < k ==> !HasId(items[j], teamId))
  {
    var k := FirstIndex(items, (t: Value) => t.Null? || HasId(t, teamId));
    if k == |items| then NotFound
    else if items[k].Null? then Throws
    else Found(items[k])
  }

  /** The lookup over the stored list; anything but an array has no `find`, and the render throws. */
  function Lookup(teams: Value, teamId: string): TeamLookup
  {
    if teams.Arr? then FindTeam(teams.items, teamId) else Throws
  }

  /** A text id, such as one kept from an earlier list, never finds a team whose id is a number: `===` does not equate a number with its decimal text. */
  lemma NumericIdNeverMatches(n: int, name: string)
    ensures Lookup(Arr([Obj([("id", Num(n)), ("name", Str(name))])]), DecimalText(n)) == NotFound
  {
    var t := Obj([("id", Num(n)), ("name", Str(name))]);
    assert Prop(t, "id") == Some(Num(n));
  }

  /** A card of the "Lista Atual" panel: the team's name, coach, and the coach's nationality and age. */
  datatype StaffCard = StaffCard(name: Option<Value>, coach: Option<Value>, nationality: Option<Value>, age: Option<Value>)

  function CardOf(t: Value): StaffCard {
    StaffCard(Prop(t, "name"), Prop(t, "coach"), Prop(t, "coachNationality"), Prop(t, "coachAge"))
  }

  function Cards(items: seq<Value>): seq<StaffCard> {
    seq(|items|, i requires 0 <= i < |items| => CardOf(items[i]))
  }

  predicate HasNull(items: seq<Value>) {
    exists k :: 0 <= k < |items| && items[k].Null?
  }

  /**
   * What the page shows: the select's placeholder, the current coach if a team
   * is found, and one card per team. The select's items and the panel both map
   * over every team reading its properties, so any null entry, wherever it
   * stands, makes the render throw, as does a list that is not an array.
   */
  datatype StaffView = StaffView(placeholder: string, currentCoach: Option<Option<Value>>, cards: seq<StaffCard>) | StaffRenderError

  function View(teams: Value, teamId: string): (v: StaffView)
    ensures v.StaffRenderError? <==> !teams.Arr? || HasNull(teams.items)
    ensures Lookup(teams, teamId).Throws? ==> v.StaffRenderError?
    ensures v.StaffView? ==> (v.currentCoach.Some? <==> Lookup(teams, teamId).Found?)
    ensures v.StaffView? ==> Lookup(teams, teamId).Found? ==> v.currentCoach == Some(Prop(Lookup(teams, teamId).team, "coach"))
    ensures v.StaffView? && Lookup(teams, teamId).NotFound? ==> v.placeholder == "Selecione..." && v.currentCoach.None?
    ensures v.StaffView? ==> |v.cards| == |teams.items| && forall i :: 0 <= i < |teams.items| ==> v.cards[i] == CardOf(teams.items[i])
  {
    if !teams.Arr? || HasNull(teams.items) then StaffRenderError
    else
      match FindTeam(teams.items, teamId)
      case Throws => StaffRenderError
      case NotFound => StaffView("Selecione...", None, Cards(teams.items))
      case Found(t) =>
        var name := Prop(t, "name");
        StaffView(if TruthyOpt(name) then JsString(name.value) else "Selecione...", Some(Prop(t, "coach")), Cards(teams.items))
  }

  /** A null after the selected team: `find` stops at the match, but the lists that map over every team still throw. */
  lemma NullAfterMatchBreaksPage(coach: Value)
    ensures var teams := [Obj([("id", Str("1")), ("coach", coach)]), Null];
      FindTeam(teams, "1") == Found(teams[0]) && View(Arr(teams), "1") == StaffRenderError
  {
    var teams := [Obj([("id", Str("1")), ("coach", coach)]), Null];
    assert HasId(teams[0], "1");
    assert teams[1].Null?;
  }

  /** The page's state slots, the bodies it has sent and how many times it asked for the team list. */
  class StaffPage {
    var teams: Value
    var form: CoachForm
    var status: Status
    var puts: seq<Fields>
    var teamRequests: nat

    constructor ()
      ensures teams == Arr([]) && form == EmptyForm && status == Status("", "") && puts == [] && teamRequests == 0
    {
      teams, form, status := Arr([]), EmptyForm, Status("", "");
      puts, teamRequests := [], 0;
    }

    /** The mount effect: `fetchTeams()`. */
    method Mount()
      modifies this
      ensures teamRequests == old(teamRequests) + 1
      ensures teams == old(teams) && form == old(form) && status == old(status) && puts == old(puts)
    {
      teamRequests := teamRequests + 1;
    }

    /** A team-list reply: whatever body arrived becomes the list; a rejection is only logged. */
    method TeamsArrived(resp: Response)
      modifies this
      ensures teams == if resp.Received? then resp.body else old(teams)
      ensures form == old(form) && status == old(status) && puts == old(puts) && teamRequests == old(teamRequests)
    {
      if resp.Received? {
        teams := resp.body;
      }
    }

    /** The select and the inputs' `onChange`: the whole form is replaced by the edited copy. */
    method Edit(f: CoachForm)
      modifies this
      ensures form == f
      ensures teams == old(teams) && status == old(status) && puts == old(puts) && teamRequests == old(teamRequests)
    {
      form := f;
    }

    /** Submitting: blocked by the browser while a required input is empty; otherwise the loading status and one PUT. */
    method Submit()
      modifies this
      ensures form == old(form) && teams == old(teams) && teamRequests == old(teamRequests)
      ensures form.coachName == "" || form.nationality == "" || form.age == "" ==>
        status == old(status) && puts == old(puts)
      ensures form.coachName != "" && form.nationality != "" && form.age != "" ==>
        status == LoadingStatus && puts == old(puts) + [Payload(form)]
    {
      if form.coachName != "" && form.nationality != "" && form.age != "" {
        status := LoadingStatus;
        puts := puts + [Payload(form)];
      }
    }

    /** The PUT settles; its body is never read. Success resets the form and fetches the list again; anything else gives the fixed error. */
    method Settle(resp: Response)
      modifies this
      ensures resp.Received? && resp.ok ==>
        status == SuccessStatus && form == EmptyForm && teamRequests == old(teamRequests) + 1
      ensures !(resp.Received? && resp.ok) ==>
        status == FailureStatus && form == old(form) && teamRequests == old(teamRequests)
      ensures teams == old(teams) && puts == old(puts)
    {
      if resp.Received? && resp.ok {
        status := SuccessStatus;
        form := EmptyForm;
        teamRequests := teamRequests + 1;
      } else {
        status := FailureStatus;
      }
    }

    function Render(): StaffView
      reads this
    {
      View(teams, form.teamId)
    }
  }

  /** An error object in place of the team list is stored as it is, and the next render throws. */
  method ErrorBodyBreaksPage(detail: string) returns (view: StaffView)
    ensures view == StaffRenderError
  {
    var page := new StaffPage();
    page.Mount();
    page.TeamsArrived(Received(false, Obj([("detail", Str(detail))])));
    view := page.Render();
  }

  /** Every failure gives the same message, whatever the server said, and keeps the form. */
  method FailureIgnoresReply(f: CoachForm, body: Value) returns (first: Status, second: Status, kept: CoachForm)
    ensures first == second == FailureStatus && kept == f
  {
    var page := new StaffPage();
    page.Edit(f);
    page.Submit();
    page.Settle(Received(false, body));
    first := page.status;
    page.Settle(Failed("Failed to fetch"));
    second, kept := page.status, page.form;
  }
}
